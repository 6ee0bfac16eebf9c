/**
 Properties of the order store of controllers/orderController.js: how payment method and
 payment status are tied together, what confirmation, update and deletion may change, and
 the order of the order list.
 */
module OrderProperties {
  import opened Http
  import opened OrderLifecycle

  /** Every cash-on-delivery order is paid. */
  ghost predicate CashIsPaid(s: seq<Order>)
  {
    forall o :: o in s && o.paymentMethod == CashOnDelivery ==> o.paymentStatus == Paid
  }

  /**
   Confirmation changes exactly one order, the first whose stored session id is the
   given one, and of that order only the payment status, which becomes "Paid".
   */
  lemma ConfirmMarksOnlyThatOrder(s: seq<Order>, sid: string)
    ensures var r := Confirmed(s, sid);
            var k := FindOrder(s, BySession(sid));
            && |r| == |s|
            && (forall j :: 0 <= j < |s| && j != k ==> r[j] == s[j])
            && (k >= 0 ==> r[k] == s[k].(paymentStatus := Paid) && s[k].sessionId == Some(sid))
            && (k < 0 ==> r == s)
  {
  }

  /** No confirmation turns a paid order back to unpaid. */
  lemma ConfirmNeverUnpays(s: seq<Order>, sid: string)
    ensures forall j :: 0 <= j < |s| && s[j].paymentStatus == Paid ==> Confirmed(s, sid)[j].paymentStatus == Paid
  {
  }

  /** A cash-on-delivery order carries no session, so no confirmation touches it. */
  lemma ConfirmLeavesCashOrders(s: seq<Order>, nextKey: nat, sid: string)
    requires WellFormed(s, nextKey)
    ensures forall j :: 0 <= j < |s| && s[j].paymentMethod == CashOnDelivery ==> Confirmed(s, sid)[j] == s[j]
  {
    var k := FindOrder(s, BySession(sid));
    if k >= 0 {
      assert s[k] in s;
    }
  }

  /**
   Creating orders and confirming payments never leave a cash-on-delivery order unpaid:
   such orders are created paid, and confirmation only ever sets "Paid".
   */
  lemma CreateAndConfirmKeepCashPaid(s: seq<Order>, key: nat, orderId: string, user: UserId, req: OrderRequest,
                                      items: seq<OrderItem>, session: Option<Session>, now: int, sid: string)
    requires CashIsPaid(s)
    ensures CashIsPaid(s + [BuildOrder(key, orderId, user, req, items, session, now)])
    ensures CashIsPaid(Confirmed(s, sid))
  {
    var r := Confirmed(s, sid);
    var k := FindOrder(s, BySession(sid));
    forall x | x in r && x.paymentMethod == CashOnDelivery ensures x.paymentStatus == Paid {
      var j :| 0 <= j < |r| && r[j] == x;
      if j != k {
        assert s[j] in s;
      }
    }
  }

  /**
   The update route, by contrast, writes whatever payment status the request carries:
   a cash-on-delivery order can be set back to unpaid through it.
   */
  lemma UpdateCanUnpayCashOrder(o: Order)
    requires o.paymentMethod == CashOnDelivery && o.paymentStatus == Paid
    ensures Applied(o, AllowedPart(map["paymentStatus" := Unpaid])).paymentStatus == Unpaid
    ensures !CashIsPaid([Applied(o, AllowedPart(map["paymentStatus" := Unpaid]))])
  {
    var u := Applied(o, AllowedPart(map["paymentStatus" := Unpaid]));
    assert "paymentStatus" in AllowedFields;
    assert u in [u];
  }

  /** A request field outside the allow-list has no effect on the update. */
  lemma UnknownFieldIgnored(body: map<string, string>, f: string, v: string)
    requires f !in AllowedFields
    ensures AllowedPart(body[f := v]) == AllowedPart(body)
    ensures AllowedPart(body - {f}) == AllowedPart(body)
  {
  }

  /**
   The update changes only the order with that id, and in it only the allow-listed
   fields the request carries; an unknown id changes nothing.
   */
  lemma UpdateTouchesOnlyThatOrder(s: seq<Order>, key: nat, body: map<string, string>)
    ensures var r := Updated(s, key, body);
            var k := FindOrder(s, ByKey(key));
            && |r| == |s|
            && (forall j :: 0 <= j < |s| && j != k ==> r[j] == s[j])
            && (k >= 0 ==>
                  && r[k].(status := s[k].status, paymentStatus := s[k].paymentStatus,
                           deliveryDate := s[k].deliveryDate, notes := s[k].notes) == s[k]
                  && forall f :: f in AllowedFields ==>
                       Field(r[k], f) == if f in body then Some(body[f]) else Field(s[k], f))
  {
  }

  /** Deleting an existing id removes exactly that order; deleting an unknown id changes nothing. */
  lemma DeleteRemovesExactlyThatOrder(s: seq<Order>, nextKey: nat, key: nat)
    requires WellFormed(s, nextKey)
    ensures var r := Removed(s, key);
            if FindOrder(s, ByKey(key)) >= 0 then
              && |r| == |s| - 1
              && forall o :: o in r <==> o in s && o.key != key
            else r == s
  {
    var k := FindOrder(s, ByKey(key));
    if k >= 0 {
      var r := s[..k] + s[k + 1..];
      assert forall i :: 0 <= i < |r| ==> r[i] == s[if i < k then i else i + 1];
      forall o ensures o in r <==> o in s && o.key != key {
        if o in r {
          var i :| 0 <= i < |r| && r[i] == o;
          assert s[if i < k then i else i + 1] == o;
        }
        if o in s && o.key != key {
          var i :| 0 <= i < |s| && s[i] == o;
          assert i != k;
          assert r[if i < k then i else i - 1] == o;
        }
      }
    }
  }

  /** The order list starts with a newest order of the store. */
  lemma NewestFirstStartsWithNewest(s: seq<Order>)
    requires s != []
    ensures forall o :: o in s ==> NewestFirst(s)[0].createdAt >= o.createdAt
  {
    var r := NewestFirst(s);
    forall o | o in s ensures r[0].createdAt >= o.createdAt {
      assert o in multiset(r);
      var j :| 0 <= j < |r| && r[j] == o;
    }
  }
}
