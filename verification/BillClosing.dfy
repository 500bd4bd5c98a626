/**
 * Which open orders a payment can still close: exactly those with something unpaid, nothing unsent, and no more
 * discount left than what is unpaid comes to; and which voids leave an order that no payment can close.
 */
module BillClosing {
  import opened Common
  import opened Sums
  import opened Money
  import opened Bill
  import opened BillStore
  import opened BillLaws
  import opened BillWrites
  import opened BillSettlement

  /** Lines that ask the same of every row weigh the same. */
  lemma SameAsked(items: seq<Item>, a: seq<PayLine>, b: seq<PayLine>, w: Weight)
    requires DistinctIds(items)
    requires forall k :: 0 <= k < |a| ==> Has(items, a[k].item, w)
    requires forall k :: 0 <= k < |b| ==> Has(items, b[k].item, w)
    requires forall i :: 0 <= i < |items| ==> LineQuantity(a, items[i].id) == LineQuantity(b, items[i].id)
    ensures Sum(a, LinePart(w)) == Sum(b, LinePart(w))
  {
    CountLinesOrRows(items, a, w);
    CountLinesOrRows(items, b, w);
    forall i | 0 <= i < |items| ensures ByLines(w, a)(items[i]) == ByLines(w, b)(items[i]) {
      assert LineQuantity(a, items[i].id) == LineQuantity(b, items[i].id);
    }
    SumSame(items, items, ByLines(w, a), ByLines(w, b));
  }

  lemma RowsHave(items: seq<Item>, lines: seq<PayLine>, w: Weight)
    requires forall k :: 0 <= k < |lines| ==> lines[k].item in items
    ensures forall k :: 0 <= k < |lines| ==> Has(items, lines[k].item, w)
  {
    forall k | 0 <= k < |lines| ensures Has(items, lines[k].item, w) {
      var i :| 0 <= i < |items| && items[i] == lines[k].item;
    }
  }

  // ---------------------------------------------------------------- asking for all that is unpaid

  function AskFor(lines: seq<PayLine>): (r: seq<ReqLine>)
    ensures |r| == |lines|
  {
    seq(|lines|, i requires 0 <= i < |lines| => ReqLine(lines[i].item.id, lines[i].quantity))
  }

  /** The unpaid rows come in row order, each once. */
  lemma {:induction false} UnpaidIncreasing(items: seq<Item>, n: nat)
    requires DistinctIds(items) && n <= |items|
    ensures forall k :: 0 <= k < |UnpaidLines(items[..n])| ==> HasId(items[..n], UnpaidLines(items[..n])[k].item.id)
    ensures DistinctLines(AskFor(UnpaidLines(items[..n])))
  {
    if n > 0 {
      assert items[..n][..n - 1] == items[..n - 1];
      UnpaidIncreasing(items, n - 1);
      var before, now := UnpaidLines(items[..n - 1]), UnpaidLines(items[..n]);
      assert now == before || now == before + [PayLine(items[n - 1], Unpaid(items[n - 1]))];
      forall k | 0 <= k < |before|
        ensures HasId(items[..n], before[k].item.id) && before[k].item.id != items[n - 1].id
      {
        assert HasId(items[..n - 1], before[k].item.id);
        var i :| 0 <= i < n - 1 && items[..n - 1][i].id == before[k].item.id;
        assert items[..n][i].id == before[k].item.id;
      }
      forall k | 0 <= k < |before| ensures AskFor(before)[k].itemId == before[k].item.id {}
      assert items[..n][n - 1].id == items[n - 1].id;
    }
  }

  lemma UnpaidAnswers(items: seq<Item>)
    requires DistinctIds(items)
    ensures LinesError(items, AskFor(UnpaidLines(items))).None?
    ensures PayLines(items, AskFor(UnpaidLines(items))) == UnpaidLines(items)
    ensures forall k :: 0 <= k < |UnpaidLines(items)| ==> 0 < UnpaidLines(items)[k].quantity
  {
    var lines := UnpaidLines(items);
    forall k | 0 <= k < |lines|
      ensures LineError(items, AskFor(lines)[k]).None? && Find(items, lines[k].item.id) == Some(lines[k].item)
      ensures 0 < lines[k].quantity
    {
      UnpaidMembers(items, lines[k]);
      var i :| 0 <= i < |items| && items[i] == lines[k].item;
      FindAt(items, i);
    }
  }

  /** The request for everything unpaid. */
  function Everything(o: Order, key: nat): PayRequest { PayRequest(key, None, AskFor(UnpaidLines(o.items))) }

  ghost predicate SomeUnpaid(items: seq<Item>) { exists i :: 0 <= i < |items| && Unpaid(items[i]) > 0 }

  lemma SomeUnpaidLines(items: seq<Item>)
    ensures SomeUnpaid(items) <==> UnpaidLines(items) != []
  {
    if SomeUnpaid(items) {
      var i :| 0 <= i < |items| && Unpaid(items[i]) > 0;
      UnpaidMembers(items, PayLine(items[i], Unpaid(items[i])));
    }
    if UnpaidLines(items) != [] {
      var l := UnpaidLines(items)[0];
      UnpaidMembers(items, l);
      var i :| 0 <= i < |items| && items[i] == l.item;
      assert Unpaid(items[i]) > 0;
    }
  }

  /** Asking for everything unpaid is a proper request. */
  lemma EverythingProper(o: Order, key: nat) returns (p: Plan)
    requires DistinctIds(o.items) && SomeUnpaid(o.items)
    ensures RequestMap(Everything(o, key).lines) == Ok(p.req) && LinesError(o.items, Everything(o, key).lines).None?
    ensures p.lines == UnpaidLines(o.items) == PayLines(o.items, Everything(o, key).lines)
    ensures PositiveLines(Everything(o, key))
  {
    var r := Everything(o, key);
    assert o.items[..|o.items|] == o.items;
    UnpaidIncreasing(o.items, |o.items|);
    UnpaidAnswers(o.items);
    SomeUnpaidLines(o.items);
    assert r.lines[0..] == r.lines;
    CollectFrom(r.lines, 0);
    p := Plan(UnpaidLines(o.items), Requested(r.lines, |r.lines|), Totals(0, 0, 0, 0), 0, 0, true);
  }

  /** It settles the order if nothing is unsent. */
  lemma EverythingAsks(o: Order, key: nat) returns (p: Plan)
    requires RowsOk(o.items) && SomeUnpaid(o.items)
    ensures RequestMap(Everything(o, key).lines) == Ok(p.req) && LinesError(o.items, Everything(o, key).lines).None?
    ensures p.lines == UnpaidLines(o.items) == PayLines(o.items, Everything(o, key).lines)
    ensures Asks(o, Everything(o, key), p) && PositiveLines(Everything(o, key))
    ensures !HasDraft(o.items) ==> Settles(o.items, p.req)
  {
    p := EverythingProper(o, key);
    RequestAsks(o, Everything(o, key), p);
    forall i | 0 <= i < |o.items| ensures Unpaid(o.items[i]) <= Want(p.req, o.items[i].id) {
      UnpaidWanted(o.items, i);
      assert Want(p.req, o.items[i].id) == LineQuantity(p.lines, o.items[i].id);
    }
    SettlesMeans(o.items, p.req);
  }

  lemma UnpaidWanted(items: seq<Item>, i: nat)
    requires i < |items|
    ensures Unpaid(items[i]) <= LineQuantity(UnpaidLines(items), items[i].id)
  {
    var l := PayLine(items[i], Unpaid(items[i]));
    if l.quantity > 0 {
      UnpaidMembers(items, l);
      LineCounts(UnpaidLines(items), l);
    }
  }

  lemma LineCounts(lines: seq<PayLine>, l: PayLine)
    requires l in lines
    ensures l.quantity <= LineQuantity(lines, l.item.id)
  {
    var k :| 0 <= k < |lines| && lines[k] == l;
    SumTerm(lines, k, LineOf(l.item.id));
  }

  // ---------------------------------------------------------------- what a closing request weighs

  /** A request that settles the order asks of every row exactly what is unpaid of it. */
  lemma ClosingAsks(o: Order, r: PayRequest, p: Plan, i: nat)
    requires RowsOk(o.items) && Asks(o, r, p) && Settles(o.items, p.req) && i < |o.items|
    ensures LineQuantity(p.lines, o.items[i].id) == Unpaid(o.items[i])
  {
    SettlesMeans(o.items, p.req);
    forall k | 0 <= k < |p.lines| ensures Billable(p.lines[k].item) {
      assert LineError(o.items, r.lines[k]).None?;
      var g :| 0 <= g < |o.items| && o.items[g] == p.lines[k].item;
    }
    AskedOfRow(o, r, p, i);
    assert Want(p.req, o.items[i].id) == LineQuantity(p.lines, o.items[i].id);
  }

  /** Any two closing requests weigh the same. */
  lemma ClosingWeighs(o: Order, r: PayRequest, p: Plan, r2: PayRequest, p2: Plan, w: Weight)
    requires RowsOk(o.items) && Asks(o, r, p) && Settles(o.items, p.req) && Asks(o, r2, p2) && Settles(o.items, p2.req)
    ensures Sum(p.lines, LinePart(w)) == Sum(p2.lines, LinePart(w))
  {
    AskedRows(o, r, p);
    AskedRows(o, r2, p2);
    RowsHave(o.items, p.lines, w);
    RowsHave(o.items, p2.lines, w);
    forall i | 0 <= i < |o.items|
      ensures LineQuantity(p.lines, o.items[i].id) == LineQuantity(p2.lines, o.items[i].id)
    {
      ClosingAsks(o, r, p, i);
      ClosingAsks(o, r2, p2, i);
    }
    SameAsked(o.items, p.lines, p2.lines, w);
  }

  lemma AskedRows(o: Order, r: PayRequest, p: Plan)
    requires Asks(o, r, p)
    ensures forall k :: 0 <= k < |p.lines| ==> p.lines[k].item in o.items
  {
    forall k | 0 <= k < |p.lines| ensures p.lines[k].item in o.items { assert LineError(o.items, r.lines[k]).None?; }
  }

  /** The tax on all that is unpaid, rounded once. */
  function UnpaidTax(items: seq<Item>): nat { HalfUp(Sum(UnpaidLines(items), LinePart(ByTax)), RATE_SCALE) }

  /** Something is unpaid, nothing is unsent, and what is left of the discount does not exceed what is unpaid. */
  ghost predicate CanClose(o: Order)
  {
    SomeUnpaid(o.items) && !HasDraft(o.items) && Rest(o) <= DueTotal(o.items) + UnpaidTax(o.items)
  }

  /** A split payment under this request goes through and completes the order. */
  predicate Closes(o: Order, r: PayRequest)
  {
    var (n, out) := PaySplit(o, r, true, true);
    out.Paid? && n.status.Completed?
  }

  /** The closing share is all that is left of the discount. */
  lemma ClosingShareIs(o: Order, subtotal: nat)
    ensures ShareOf(o, subtotal, true) == Rest(o)
  {
  }

  lemma UnpaidTotals(items: seq<Item>, discount: nat)
    ensures var t := TotalsOf(PricedAll(UnpaidLines(items)), discount);
            t.subtotal == DueTotal(items) && t.tax == UnpaidTax(items)
            && t.total == DueTotal(items) + UnpaidTax(items) - discount
  {
    LinesTotals(UnpaidLines(items));
    UnpaidValue(items);
  }

  /** What a proper request that settles the order is charged. */
  lemma SettlingPlan(o: Order, r: PayRequest, req: map<nat, nat>, lines: seq<PayLine>)
    requires o.status.InService? && RequestMap(r.lines) == Ok(req) && LinesError(o.items, r.lines).None?
    requires lines == PayLines(o.items, r.lines) && Settles(o.items, req)
    ensures PlanPayment(o, r) == Charge(lines, req, TotalsOf(PricedAll(lines), Rest(o)), r.cash, true)
  {
    ClosingShareIs(o, TotalsOf(PricedAll(lines), 0).subtotal);
  }

  lemma ChargedFreely(lines: seq<PayLine>, req: map<nat, nat>, t: Totals)
    requires 0 <= t.total
    ensures Charge(lines, req, t, None, true).Ok? && Charge(lines, req, t, None, true).value.final
  {
  }

  lemma EverythingPlanned(o: Order, key: nat)
    requires RowsOk(o.items) && o.status.InService? && CanClose(o)
    ensures PlanPayment(o, Everything(o, key)).Ok? && PlanPayment(o, Everything(o, key)).value.final
    ensures PositiveLines(Everything(o, key)) && RequestMap(Everything(o, key).lines).Ok?
  {
    var p := EverythingAsks(o, key);
    UnpaidTotals(o.items, Rest(o));
    SettlingPlan(o, Everything(o, key), p.req, p.lines);
    ChargedFreely(p.lines, p.req, TotalsOf(PricedAll(p.lines), Rest(o)));
  }

  lemma EverythingCloses(o: Order, key: nat)
    requires RowsOk(o.items) && o.status.InService? && PaymentFor(o.payments, key).None? && CanClose(o)
    ensures Closes(o, Everything(o, key)) && PositiveLines(Everything(o, key))
  {
    EverythingPlanned(o, key);
    PlannedCloses(o, Everything(o, key));
  }

  lemma PlannedCloses(o: Order, r: PayRequest)
    requires o.status.InService? && PaymentFor(o.payments, r.key).None? && RequestMap(r.lines).Ok?
    requires PlanPayment(o, r).Ok? && PlanPayment(o, r).value.final
    ensures Closes(o, r)
  {
  }

  lemma ClosingNeeds(o: Order, r: PayRequest)
    requires RowsOk(o.items) && o.status.InService? && PaymentFor(o.payments, r.key).None? && PositiveLines(r)
    requires Closes(o, r)
    ensures CanClose(o)
  {
    PlanIsPlanned(o, r);
    var p := PlanPayment(o, r).value;
    SettlesMeans(o.items, p.req);
    assert LineError(o.items, r.lines[0]).None?;
    var it := Find(o.items, r.lines[0].itemId).value;
    var i :| 0 <= i < |o.items| && o.items[i] == it;
    assert Unpaid(o.items[i]) > 0;
    var all := EverythingAsks(o, r.key);
    ClosingWeighs(o, r, p, Everything(o, r.key), all, ByPrice);
    ClosingWeighs(o, r, p, Everything(o, r.key), all, ByTax);
    UnpaidValue(o.items);
    FinalTotal(o, r);
  }

  /** A plan that was made has passed the last check on its amount. */
  lemma FinalTotal(o: Order, r: PayRequest)
    requires PlanPayment(o, r).Ok? && PlanPayment(o, r).value.final
    ensures var t := PlanPayment(o, r).value.totals; 0 <= t.subtotal + t.tax - t.discount && t.discount == Rest(o)
  {
    PlanIsPlanned(o, r);
  }

  /** Under a fresh key some split payment closes the order exactly when it can be closed. */
  lemma ClosableExactly(o: Order, key: nat)
    requires RowsOk(o.items) && o.status.InService? && PaymentFor(o.payments, key).None?
    ensures (exists r: PayRequest :: r.key == key && PositiveLines(r) && Closes(o, r)) <==> CanClose(o)
  {
    if CanClose(o) {
      EverythingCloses(o, key);
      assert Everything(o, key).key == key;
    }
    if r: PayRequest :| r.key == key && PositiveLines(r) && Closes(o, r) {
      ClosingNeeds(o, r);
    }
  }

  /**
   * Where the rest of the discount fits what is due and nothing is unsent, that is: exactly while something is
   * unpaid.
   */
  lemma CoveredClosable(o: Order, key: nat)
    requires RowsOk(o.items) && o.status.InService? && PaymentFor(o.payments, key).None?
    requires Covered(o) && !HasDraft(o.items)
    ensures (exists r: PayRequest :: r.key == key && PositiveLines(r) && Closes(o, r))
            <==> exists i :: 0 <= i < |o.items| && Billable(o.items[i]) && o.items[i].paid < o.items[i].quantity
  {
    ClosableExactly(o, key);
    if i :| 0 <= i < |o.items| && Billable(o.items[i]) && o.items[i].paid < o.items[i].quantity {
      assert Unpaid(o.items[i]) > 0;
    }
    if SomeUnpaid(o.items) {
      var i :| 0 <= i < |o.items| && Unpaid(o.items[i]) > 0;
      assert Billable(o.items[i]) && o.items[i].paid < o.items[i].quantity;
    }
  }

  predicate ClosesWhole(o: Order, cash: Option<nat>)
  {
    var (n, out) := PayWhole(o, cash, true, true);
    out.Paid? && n.status.Completed?
  }

  /** The whole-bill payment closes exactly an order with sent rows, none of them unsent and none paid. */
  lemma WholeClosable(o: Order)
    requires RowsOk(o.items) && o.status.InService?
    ensures (exists cash :: ClosesWhole(o, cash))
            <==> !HasDraft(o.items) && NothingPaid(o.items) && WholeLines(o.items) != []
  {
    NoneAnyPaid(o.items);
    if !HasDraft(o.items) && NothingPaid(o.items) && WholeLines(o.items) != [] {
      assert ClosesWhole(o, None);
    }
  }

  // ---------------------------------------------------------------- orders that cannot be closed

  /** Everything sent is paid, something is, and nothing is unsent. */
  ghost predicate PaidUpOpen(items: seq<Item>) { !HasDraft(items) && !SomeUnpaid(items) && !NothingPaid(items) }

  lemma NothingLeftToAsk(items: seq<Item>, l: ReqLine)
    requires !SomeUnpaid(items) && !HasDraft(items) && 0 < l.quantity
    ensures LineError(items, l).Some?
  {
    var f := Find(items, l.itemId);
    if f.Some? {
      var i :| 0 <= i < |items| && items[i] == f.value;
      assert Unpaid(items[i]) == 0 && !items[i].status.Draft?;
    }
  }

  /**
   * On an open order where everything sent is paid every payment is refused, split or whole. Nothing in billing
   * closes it any more.
   */
  lemma PaidUpOpenOrderIsStuck(o: Order, r: PayRequest, cash: Option<nat>)
    requires RowsOk(o.items) && PaidUpOpen(o.items) && PositiveLines(r)
    ensures PlanPayment(o, r).Err?
    ensures WholePayment(o, cash) == Err(PartlyPaid)
  {
    if r.lines != [] {
      NothingLeftToAsk(o.items, r.lines[0]);
    }
    NoneAnyPaid(o.items);
  }

  /**
   * The voids that leave such an order: exactly those that take the whole unpaid rest of the order, when
   * something has been paid and nothing is unsent.
   */
  lemma VoidSticksExactly(o: Order, id: nat, readQuantity: nat, readPaid: nat, readStage: Stage, q: nat)
    requires RowsOk(o.items) && VoidWrite(o, id, readQuantity, readPaid, readStage, q).Some?
    ensures var i := IndexOf(o.items, id);
            PaidUpOpen(VoidWrite(o, id, readQuantity, readPaid, readStage, q).value.items)
            <==> !HasDraft(o.items) && !NothingPaid(o.items) && Unpaid(o.items[i]) == q
                 && forall j :: 0 <= j < |o.items| && j != i ==> Unpaid(o.items[j]) == 0
  {
    var i, n := IndexOf(o.items, id), VoidWrite(o, id, readQuantity, readPaid, readStage, q).value;
    assert RowOk(o.items[i]);
    assert Unpaid(n.items[i]) == Unpaid(o.items[i]) - q;
    assert forall j :: 0 <= j < |o.items| && j != i ==> n.items[j] == o.items[j];
    assert n.items[i].paid == o.items[i].paid && !n.items[i].status.Draft? && !o.items[i].status.Draft?;
    assert HasDraft(n.items) <==> HasDraft(o.items) by {
      if HasDraft(n.items) {
        var j :| 0 <= j < |n.items| && n.items[j].status.Draft?;
        assert o.items[j].status.Draft?;
      }
      if HasDraft(o.items) {
        var j :| 0 <= j < |o.items| && o.items[j].status.Draft?;
        assert n.items[j].status.Draft?;
      }
    }
    assert NothingPaid(n.items) <==> NothingPaid(o.items) by {
      assert forall j :: 0 <= j < |o.items| ==> n.items[j].paid == o.items[j].paid;
    }
    assert SomeUnpaid(n.items) <==> exists j :: 0 <= j < |n.items| && Unpaid(n.items[j]) > 0;
  }
}
