/**
 The per-user cart ledger of the cart controller (controllers/cartController.js).

 The cart collection is a sequence of lines in insertion order; the document store's
 generated ids are modelled by a counter the ledger keeps. Each controller operation is
 specified by a function on the ledger's value (`Add`, `SetQuantity`, `Delete`, `Clear`)
 and implemented by a method of `CartStore` that updates its fields in place and is
 proved equal to that function.
 */
module CartLedger {
  import opened Http

  type UserId = string
  type ProductId = string
  type LineId = nat

  /** One document of the cart collection. */
  datatype CartLine = CartLine(id: LineId, user: UserId, product: ProductId, quantity: int)

  /** What the cart routes send back for a line: its id, product and quantity. */
  datatype LineView = LineView(id: LineId, product: ProductId, quantity: int)

  function View(l: CartLine): LineView
  {
    LineView(l.id, l.product, l.quantity)
  }

  /** Reply of a successful add: 200 with the merged line, or 201 with the new one. */
  datatype AddOutcome = Merged(line: LineView) | Created(line: LineView)

  /** The whole cart collection, and the id the next created line receives. */
  datatype Ledger = Ledger(lines: seq<CartLine>, nextId: nat)

  const MissingFieldsMessage := "Product identifier (productId or itemId) and quantity (number) are required"
  const LineNotFoundMessage := "Cart item not found"

  /** `Math.max` on integers. */
  function Max(a: int, b: int): int
  {
    if a < b then b else a
  }

  /** The filters the controller passes to the cart collection. */
  datatype Query =
    | OwnedBy(user: UserId)                      // { user }
    | LineFor(user: UserId, product: ProductId)  // { user, product }
    | OwnedLine(user: UserId, id: LineId)        // { _id, user }

  predicate Selects(q: Query, l: CartLine)
  {
    match q
    case OwnedBy(u) => l.user == u
    case LineFor(u, p) => l.user == u && l.product == p
    case OwnedLine(u, id) => l.user == u && l.id == id
  }

  ghost predicate UniqueIds(s: seq<CartLine>)
  {
    forall i, j :: 0 <= i < j < |s| ==> s[i].id != s[j].id
  }

  /** At most one line per (user, product) pair. */
  ghost predicate OneLinePerProduct(s: seq<CartLine>)
  {
    forall i, j :: 0 <= i < j < |s| ==> s[i].user != s[j].user || s[i].product != s[j].product
  }

  /** The ledger invariant every operation keeps. */
  ghost predicate Consistent(st: Ledger)
  {
    && UniqueIds(st.lines)
    && OneLinePerProduct(st.lines)
    && forall l :: l in st.lines ==> l.id < st.nextId
  }

  /** `findOne`: the index of the first line the query selects, or -1 when there is none. */
  function FindOne(s: seq<CartLine>, q: Query): (k: int)
    ensures -1 <= k < |s|
    ensures k >= 0 ==> Selects(q, s[k]) && forall j :: 0 <= j < k ==> !Selects(q, s[j])
    ensures k < 0 ==> forall l :: l in s ==> !Selects(q, l)
  {
    if s == [] then -1
    else if Selects(q, s[0]) then 0
    else
      var k := FindOne(s[1..], q);
      if k < 0 then -1 else k + 1
  }

  /**
   The lines whose selection by `q` equals `keep`, in store order: `find` when `keep`
   is true, what `deleteMany` leaves when it is false.
   */
  function Filter(s: seq<CartLine>, q: Query, keep: bool): (r: seq<CartLine>)
    ensures forall l :: l in r <==> l in s && Selects(q, l) == keep
    ensures |r| <= |s|
    ensures UniqueIds(s) ==> UniqueIds(r)
    ensures OneLinePerProduct(s) ==> OneLinePerProduct(r)
  {
    if s == [] then []
    else
      var rest := Filter(s[1..], q, keep);
      if Selects(q, s[0]) == keep then
        assert [s[0]] + s[1..] == s;
        ConsKeepsInvariants(s[0], s[1..], rest);
        [s[0]] + rest
      else rest
  }

  /** Putting back in front of a sub-collection a line that stood in front of the whole keeps both invariants. */
  lemma ConsKeepsInvariants(x: CartLine, s: seq<CartLine>, rest: seq<CartLine>)
    requires forall l :: l in rest ==> l in s
    ensures UniqueIds([x] + s) && UniqueIds(rest) ==> UniqueIds([x] + rest)
    ensures OneLinePerProduct([x] + s) && OneLinePerProduct(rest) ==> OneLinePerProduct([x] + rest)
  {
    var t, u := [x] + rest, [x] + s;
    // every later line of t is a later line of u
    forall j | 1 <= j < |t| ensures exists m :: 1 <= m < |u| && u[m] == t[j] {
      assert t[j] == rest[j - 1] && rest[j - 1] in s;
      var m :| 0 <= m < |s| && s[m] == t[j];
      assert u[m + 1] == s[m];
    }
    if UniqueIds(u) && UniqueIds(rest) {
      forall i, j | 0 <= i < j < |t| ensures t[i].id != t[j].id {
        if i == 0 {
          var m :| 1 <= m < |u| && u[m] == t[j];
          assert u[0] == x;
        } else {
          assert t[i] == rest[i - 1] && t[j] == rest[j - 1];
        }
      }
    }
    if OneLinePerProduct(u) && OneLinePerProduct(rest) {
      forall i, j | 0 <= i < j < |t| ensures t[i].user != t[j].user || t[i].product != t[j].product {
        if i == 0 {
          var m :| 1 <= m < |u| && u[m] == t[j];
          assert u[0] == x;
        } else {
          assert t[i] == rest[i - 1] && t[j] == rest[j - 1];
        }
      }
    }
  }

  /** `productId || itemId`, rejected when falsy. */
  function ProductOf(productId: Option<string>, itemId: Option<string>): (pid: Option<ProductId>)
    ensures pid.None? <==> !Truthy(productId) && !Truthy(itemId)
    ensures pid.Some? ==> pid.value != "" && (pid == productId || pid == itemId)
    ensures Truthy(productId) ==> pid == productId
  {
    if Truthy(productId) then productId
    else if Truthy(itemId) then itemId
    else None
  }

  lemma RemoveAtKeepsConsistency(st: Ledger, k: nat)
    requires Consistent(st) && k < |st.lines|
    ensures Consistent(st.(lines := st.lines[..k] + st.lines[k + 1..]))
  {
    var s := st.lines;
    var r := s[..k] + s[k + 1..];
    assert forall i :: 0 <= i < |r| ==> r[i] == s[if i < k then i else i + 1];
    forall l | l in r ensures l in s {
      var i :| 0 <= i < |r| && r[i] == l;
    }
  }

  /**
   `addToCart` once the product and the quantity are accepted: the line of
   (user, product) is merged to `max(1, old + q)`, or a new line with `q` as given is
   appended.
   */
  function Add(st: Ledger, user: UserId, product: ProductId, q: int): (r: Ledger)
    ensures Consistent(st) ==> Consistent(r)
  {
    var k := FindOne(st.lines, LineFor(user, product));
    if k >= 0 then
      st.(lines := st.lines[k := st.lines[k].(quantity := Max(1, st.lines[k].quantity + q))])
    else
      var line := CartLine(st.nextId, user, product, q);
      assert forall l :: l in st.lines ==> !Selects(LineFor(user, product), l);
      Ledger(st.lines + [line], st.nextId + 1)
  }

  /** `updateCartItem`: the caller's line `id` gets quantity `max(1, q)`. */
  function SetQuantity(st: Ledger, user: UserId, id: LineId, q: int): (r: Ledger)
    ensures Consistent(st) ==> Consistent(r)
  {
    var k := FindOne(st.lines, OwnedLine(user, id));
    if k >= 0 then st.(lines := st.lines[k := st.lines[k].(quantity := Max(1, q))])
    else st
  }

  /** `deleteCartItem`: the caller's line `id` is removed. */
  function Delete(st: Ledger, user: UserId, id: LineId): (r: Ledger)
    ensures Consistent(st) ==> Consistent(r)
  {
    var k := FindOne(st.lines, OwnedLine(user, id));
    if k >= 0 then
      var r := st.(lines := st.lines[..k] + st.lines[k + 1..]);
      assert Consistent(st) ==> Consistent(r) by {
        if Consistent(st) { RemoveAtKeepsConsistency(st, k); }
      }
      r
    else st
  }

  /** `clearCart`: `deleteMany({ user })`. */
  function Clear(st: Ledger, user: UserId): (r: Ledger)
    ensures Consistent(st) ==> Consistent(r)
  {
    st.(lines := Filter(st.lines, OwnedBy(user), false))
  }

  /** The cart collection, updated in place by the cart routes. */
  class CartStore {
    var lines: seq<CartLine>
    var nextId: nat

    ghost function State(): Ledger
      reads this
    {
      Ledger(lines, nextId)
    }

    ghost predicate Valid()
      reads this
    {
      Consistent(State())
    }

    constructor ()
      ensures Valid() && lines == []
    {
      lines := [];
      nextId := 0;
    }

    /** GET /api/cart: exactly the caller's lines, with their quantities, in store order. */
    method GetCart(user: UserId) returns (r: seq<LineView>)
      ensures |r| == |Filter(lines, OwnedBy(user), true)|
      ensures forall v :: v in r <==> exists l :: l in lines && l.user == user && View(l) == v
    {
      var mine := Filter(lines, OwnedBy(user), true);
      r := seq(|mine|, i requires 0 <= i < |mine| => View(mine[i]));
      forall v | v in r ensures exists l :: l in lines && l.user == user && View(l) == v {
        var i :| 0 <= i < |r| && r[i] == v;
        assert mine[i] in mine;
      }
      forall l | l in lines && l.user == user ensures View(l) in r {
        assert l in mine;
        var i :| 0 <= i < |mine| && mine[i] == l;
        assert r[i] == View(l);
      }
    }

    /**
     POST /api/cart. A 400 when no product identifier or no numeric quantity is given;
     otherwise the caller's line for the product is merged or created.
     */
    method AddToCart(user: UserId, productId: Option<string>, itemId: Option<string>, quantity: Option<int>)
      returns (r: Result<AddOutcome>)
      requires Valid()
      modifies this
      ensures Valid()
      ensures r.Err? <==> ProductOf(productId, itemId).None? || quantity.None?
      ensures r.Err? ==> r.error == BadRequest(MissingFieldsMessage) && State() == old(State())
      ensures r.Ok? ==> State() == Add(old(State()), user, ProductOf(productId, itemId).value, quantity.value)
      ensures r.Ok? ==> (r.value.Created? <==> FindOne(old(lines), LineFor(user, ProductOf(productId, itemId).value)) < 0)
      ensures r.Ok? ==>
        var k := FindOne(lines, LineFor(user, ProductOf(productId, itemId).value));
        0 <= k && r.value.line == View(lines[k])
    {
      var pid := ProductOf(productId, itemId);
      if pid.None? || quantity.None? {
        return Err(BadRequest(MissingFieldsMessage));
      }
      var k := FindOne(lines, LineFor(user, pid.value));
      if k >= 0 {
        var merged := Max(1, lines[k].quantity + quantity.value);
        // `addToCart` deletes the line when the merged quantity is below 1; after the floor it never is
        assert merged >= 1;
        lines := lines[k := lines[k].(quantity := merged)];
        assert lines[k] in lines;
        r := Ok(Merged(View(lines[k])));
      } else {
        var line := CartLine(nextId, user, pid.value, quantity.value);
        assert forall j :: 0 <= j < |lines| ==> lines[j] in lines;
        lines := lines + [line];
        nextId := nextId + 1;
        assert lines[|lines| - 1] == line && line in lines;
        r := Ok(Created(View(line)));
      }
    }

    /** PUT /api/cart/:id. A 404 unless the caller owns line `id`; never deletes. */
    method UpdateCartItem(user: UserId, id: LineId, quantity: int) returns (r: Result<LineView>)
      requires Valid()
      modifies this
      ensures Valid()
      ensures State() == SetQuantity(old(State()), user, id, quantity)
      ensures r.Err? <==> FindOne(old(lines), OwnedLine(user, id)) < 0
      ensures r.Err? ==> r.error == NotFound(LineNotFoundMessage)
      ensures r.Ok? ==> r.value.id == id && r.value.quantity == Max(1, quantity) >= 1
      ensures r.Ok? ==> exists l :: l in lines && l.user == user && View(l) == r.value
    {
      var k := FindOne(lines, OwnedLine(user, id));
      if k < 0 {
        return Err(NotFound(LineNotFoundMessage));
      }
      lines := lines[k := lines[k].(quantity := Max(1, quantity))];
      r := Ok(View(lines[k]));
    }

    /** DELETE /api/cart/:id. A 404 unless the caller owns line `id`. */
    method DeleteCartItem(user: UserId, id: LineId) returns (r: Result<LineId>)
      requires Valid()
      modifies this
      ensures Valid()
      ensures State() == Delete(old(State()), user, id)
      ensures r.Err? <==> FindOne(old(lines), OwnedLine(user, id)) < 0
      ensures r.Err? ==> r.error == NotFound(LineNotFoundMessage)
      ensures r.Ok? ==> r.value == id
    {
      var k := FindOne(lines, OwnedLine(user, id));
      if k < 0 {
        return Err(NotFound(LineNotFoundMessage));
      }
      RemoveAtKeepsConsistency(State(), k);
      lines := lines[..k] + lines[k + 1..];
      r := Ok(id);
    }

    /** POST /api/cart/clear: always succeeds. */
    method ClearCart(user: UserId)
      requires Valid()
      modifies this
      ensures Valid()
      ensures State() == Clear(old(State()), user)
    {
      lines := Filter(lines, OwnedBy(user), false);
    }
  }
}
