/**
 Properties of the cart ledger operations of controllers/cartController.js: the quantity
 floor of a merge, the lines each operation keeps, and that no operation of one user
 changes what another user's cart holds.
 */
module CartProperties {
  import opened CartLedger

  /** `find` distributes over concatenation of the collection. */
  lemma {:induction false} FilterConcat(s: seq<CartLine>, t: seq<CartLine>, q: Query, keep: bool)
    ensures Filter(s + t, q, keep) == Filter(s, q, keep) + Filter(t, q, keep)
  {
    if s == [] {
      assert s + t == t;
    } else {
      assert (s + t)[1..] == s[1..] + t;
      FilterConcat(s[1..], t, q, keep);
    }
  }

  /** A single line that `q` does not select contributes nothing to `find(q)`. */
  lemma FilterUnselected(x: CartLine, q: Query)
    requires !Selects(q, x)
    ensures Filter([x], q, true) == []
  {
    assert [x][1..] == [];
  }

  /** Replacing line k by another line that `q` does not select leaves `find(q)` as it was. */
  lemma ReplaceUnselected(s: seq<CartLine>, k: nat, x: CartLine, q: Query)
    requires k < |s| && !Selects(q, s[k]) && !Selects(q, x)
    ensures Filter(s[k := x], q, true) == Filter(s, q, true)
  {
    var a, b := s[..k], s[k + 1..];
    assert s == a + [s[k]] + b;
    assert s[k := x] == a + [x] + b;
    FilterUnselected(s[k], q);
    FilterUnselected(x, q);
    calc {
      Filter(a + [x] + b, q, true);
      { FilterConcat(a + [x], b, q, true); FilterConcat(a, [x], q, true); }
      Filter(a, q, true) + Filter([x], q, true) + Filter(b, q, true);
      Filter(a, q, true) + Filter([s[k]], q, true) + Filter(b, q, true);
      { FilterConcat(a + [s[k]], b, q, true); FilterConcat(a, [s[k]], q, true); }
      Filter(a + [s[k]] + b, q, true);
    }
  }

  /** Removing line k, which `q` does not select, leaves `find(q)` as it was. */
  lemma RemoveUnselected(s: seq<CartLine>, k: nat, q: Query)
    requires k < |s| && !Selects(q, s[k])
    ensures Filter(s[..k] + s[k + 1..], q, true) == Filter(s, q, true)
  {
    var a, b := s[..k], s[k + 1..];
    assert s == a + [s[k]] + b;
    FilterUnselected(s[k], q);
    calc {
      Filter(a + b, q, true);
      { FilterConcat(a, b, q, true); }
      Filter(a, q, true) + Filter(b, q, true);
      Filter(a, q, true) + Filter([s[k]], q, true) + Filter(b, q, true);
      { FilterConcat(a + [s[k]], b, q, true); FilterConcat(a, [s[k]], q, true); }
      Filter(a + [s[k]] + b, q, true);
    }
  }

  /** `addToCart` by `user` leaves every other user's cart as it was. */
  lemma AddLeavesOtherCarts(st: Ledger, user: UserId, product: ProductId, q: int, other: UserId)
    requires other != user
    ensures Filter(Add(st, user, product, q).lines, OwnedBy(other), true) == Filter(st.lines, OwnedBy(other), true)
  {
    var k := FindOne(st.lines, LineFor(user, product));
    if k >= 0 {
      var merged := st.lines[k].(quantity := Max(1, st.lines[k].quantity + q));
      assert Add(st, user, product, q).lines == st.lines[k := merged];
      ReplaceUnselected(st.lines, k, merged, OwnedBy(other));
    } else {
      var line := CartLine(st.nextId, user, product, q);
      assert Add(st, user, product, q).lines == st.lines + [line];
      FilterConcat(st.lines, [line], OwnedBy(other), true);
      FilterUnselected(line, OwnedBy(other));
    }
  }

  /** `updateCartItem` by `user` leaves every other user's cart as it was. */
  lemma SetQuantityLeavesOtherCarts(st: Ledger, user: UserId, id: LineId, q: int, other: UserId)
    requires other != user
    ensures Filter(SetQuantity(st, user, id, q).lines, OwnedBy(other), true) == Filter(st.lines, OwnedBy(other), true)
  {
    var k := FindOne(st.lines, OwnedLine(user, id));
    if k >= 0 {
      ReplaceUnselected(st.lines, k, st.lines[k].(quantity := Max(1, q)), OwnedBy(other));
    }
  }

  /** `deleteCartItem` by `user` leaves every other user's cart as it was. */
  lemma DeleteLeavesOtherCarts(st: Ledger, user: UserId, id: LineId, other: UserId)
    requires other != user
    ensures Filter(Delete(st, user, id).lines, OwnedBy(other), true) == Filter(st.lines, OwnedBy(other), true)
  {
    var k := FindOne(st.lines, OwnedLine(user, id));
    if k >= 0 {
      RemoveUnselected(st.lines, k, OwnedBy(other));
    }
  }

  /** Dropping one user's lines does not change which lines of another user remain, nor their order. */
  lemma {:induction false} FilterOtherOwner(s: seq<CartLine>, user: UserId, other: UserId)
    requires other != user
    ensures Filter(Filter(s, OwnedBy(user), false), OwnedBy(other), true) == Filter(s, OwnedBy(other), true)
  {
    if s != [] {
      FilterOtherOwner(s[1..], user, other);
    }
  }

  /** `clearCart` by `user` leaves every other user's cart as it was. */
  lemma ClearLeavesOtherCarts(st: Ledger, user: UserId, other: UserId)
    requires other != user
    ensures Filter(Clear(st, user).lines, OwnedBy(other), true) == Filter(st.lines, OwnedBy(other), true)
  {
    FilterOtherOwner(st.lines, user, other);
  }

  /** `clearCart` removes every line of the caller and only those. */
  lemma ClearRemovesExactlyCallersLines(st: Ledger, user: UserId)
    ensures forall l :: l in Clear(st, user).lines <==> l in st.lines && l.user != user
  {
  }

  /**
   A repeated add merges into the existing line: same place, same id, quantity
   `max(1, old + q)`, so at least 1. The line is never removed and no other line changes.
   */
  lemma AddMergesExistingLine(st: Ledger, user: UserId, product: ProductId, q: int)
    requires FindOne(st.lines, LineFor(user, product)) >= 0
    ensures var k := FindOne(st.lines, LineFor(user, product));
            var r := Add(st, user, product, q);
            && |r.lines| == |st.lines| && r.nextId == st.nextId
            && r.lines[k].id == st.lines[k].id && r.lines[k].product == product && r.lines[k].user == user
            && r.lines[k].quantity == Max(1, st.lines[k].quantity + q) >= 1
            && forall j :: 0 <= j < |st.lines| && j != k ==> r.lines[j] == st.lines[j]
  {
  }

  /** A first add appends exactly one line, with the quantity as given (not floored). */
  lemma AddCreatesOneLine(st: Ledger, user: UserId, product: ProductId, q: int)
    requires FindOne(st.lines, LineFor(user, product)) < 0
    ensures var r := Add(st, user, product, q);
            && r.lines[..|st.lines|] == st.lines && |r.lines| == |st.lines| + 1
            && r.lines[|st.lines|] == CartLine(st.nextId, user, product, q)
            && r.nextId == st.nextId + 1
  {
  }

  /**
   `updateCartItem` never deletes: every line keeps its place, the updated one changes only
   its quantity, to at least 1, and every other line stays as it was.
   */
  lemma SetQuantityNeverDeletes(st: Ledger, user: UserId, id: LineId, q: int)
    ensures var r := SetQuantity(st, user, id, q);
            var k := FindOne(st.lines, OwnedLine(user, id));
            && |r.lines| == |st.lines| && r.nextId == st.nextId
            && (forall j :: 0 <= j < |st.lines| ==> r.lines[j].id == st.lines[j].id)
            && (forall j :: 0 <= j < |st.lines| && j != k ==> r.lines[j] == st.lines[j])
            && (k >= 0 ==> r.lines[k] == st.lines[k].(quantity := Max(1, q)) && r.lines[k].quantity >= 1)
  {
  }

  /** `deleteCartItem` of an owned line removes exactly that line; of any other id, nothing. */
  lemma DeleteRemovesExactlyThatLine(st: Ledger, user: UserId, id: LineId)
    requires Consistent(st)
    ensures var r := Delete(st, user, id);
            if FindOne(st.lines, OwnedLine(user, id)) >= 0 then
              && |r.lines| == |st.lines| - 1
              && forall l :: l in r.lines <==> l in st.lines && l.id != id
            else r == st
  {
    var k := FindOne(st.lines, OwnedLine(user, id));
    if k >= 0 {
      var s := st.lines;
      var r := s[..k] + s[k + 1..];
      assert forall i :: 0 <= i < |r| ==> r[i] == s[if i < k then i else i + 1];
      forall l ensures l in r <==> l in s && l.id != id {
        if l in r {
          var i :| 0 <= i < |r| && r[i] == l;
          assert s[if i < k then i else i + 1] == l;
        }
        if l in s && l.id != id {
          var i :| 0 <= i < |s| && s[i] == l;
          assert i != k;
          assert r[if i < k then i else i - 1] == l;
        }
      }
    }
  }

  /** The quantity a run of adds of one product leaves: the first as given, each later one merged. */
  function Accumulate(qs: seq<int>): int
    requires qs != []
  {
    if |qs| == 1 then qs[0] else Max(1, Accumulate(qs[..|qs| - 1]) + qs[|qs| - 1])
  }

  /** The ledger after adding `product` for `user` with each quantity of `qs` in turn. */
  function AddAll(st: Ledger, user: UserId, product: ProductId, qs: seq<int>): Ledger
  {
    if qs == [] then st else Add(AddAll(st, user, product, qs[..|qs| - 1]), user, product, qs[|qs| - 1])
  }

  function Sum(qs: seq<int>): int
  {
    if qs == [] then 0 else Sum(qs[..|qs| - 1]) + qs[|qs| - 1]
  }

  /**
   After a run of adds of one product to a cart without it, the cart holds exactly one
   line for that product, created with the next id, whose quantity is the accumulated one.
   */
  lemma {:induction false} RepeatedAddsKeepOneLine(st: Ledger, user: UserId, product: ProductId, qs: seq<int>)
    requires Consistent(st) && FindOne(st.lines, LineFor(user, product)) < 0 && qs != []
    ensures var r := AddAll(st, user, product, qs);
            var k := FindOne(r.lines, LineFor(user, product));
            && Consistent(r) && r.nextId == st.nextId + 1
            && k >= 0 && r.lines[k] == CartLine(st.nextId, user, product, Accumulate(qs))
            && forall l :: l in r.lines && Selects(LineFor(user, product), l) ==> l == r.lines[k]
  {
    var q := LineFor(user, product);
    var init := qs[..|qs| - 1];
    var r := AddAll(st, user, product, qs);
    if init == [] {
      assert AddAll(st, user, product, init) == st;
      assert r.lines == st.lines + [CartLine(st.nextId, user, product, qs[0])];
      assert r.lines[|st.lines|] in r.lines;
    } else {
      RepeatedAddsKeepOneLine(st, user, product, init);
      var prev := AddAll(st, user, product, init);
      var k := FindOne(prev.lines, q);
      assert r == Add(prev, user, product, qs[|qs| - 1]);
      assert r.lines[k] in r.lines;
    }
    var k := FindOne(r.lines, q);
    forall l | l in r.lines && Selects(q, l) ensures l == r.lines[k] {
      var i :| 0 <= i < |r.lines| && r.lines[i] == l;
      if i < k {
      } else if k < i {
        assert r.lines[k].user == r.lines[i].user && r.lines[k].product == r.lines[i].product;
      }
    }
  }

  /** With positive quantities only, the accumulated quantity is their sum. */
  lemma {:induction false} AccumulateOfPositives(qs: seq<int>)
    requires qs != [] && forall i :: 0 <= i < |qs| ==> qs[i] >= 1
    ensures Accumulate(qs) == Sum(qs) >= 1
  {
    if |qs| > 1 {
      AccumulateOfPositives(qs[..|qs| - 1]);
    } else {
      assert qs[..0] == [];
    }
  }

  /**
   The floor is applied at every merge, not to the total: adds of 5, -10 and 3 leave 4,
   where `max(1, 5 - 10 + 3)` would be 1; and a first add of -2 is kept as -2.
   */
  lemma AccumulateFloorsEachStep()
    ensures Accumulate([5, -10, 3]) == 4 && Max(1, Sum([5, -10, 3])) == 1
    ensures Accumulate([-2]) == -2
    ensures Accumulate([2, 3]) == 5
  {
    assert [5, -10, 3][..2] == [5, -10];
    assert [5, -10][..1] == [5];
    assert [2, 3][..1] == [2];
    assert [5, -10, 3][..2][..1] == [5];
  }
}
