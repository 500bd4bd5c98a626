/**
 * Where the settlement code stops short of its documentation, each with the exact condition:
 * voids against the discount, a discount lowered in mid-settlement, unsent rows that get paid,
 * the whole-bill payment that may come out negative, and orders that can no longer be closed.
 */
module BillEdges {
  import opened Common
  import opened Sums
  import opened Money
  import opened Bill
  import opened BillStore
  import opened BillLaws
  import opened BillWrites
  import opened BillSettlement
  import opened BillClosing

  // ---------------------------------------------------------------- voids

  lemma DueUpdate(items: seq<Item>, i: nat, x: Item)
    requires i < |items|
    ensures DueTotal(items[i := x]) + Due(items[i]) == DueTotal(items) + Due(x)
  {
    SumUpdate(items, i, x, Due);
  }

  lemma VoidLowers(it: Item, q: nat, left: nat, stage: Stage)
    requires RowOk(it) && Billable(it) && it.quantity == left + q && it.paid <= left
    ensures Due(it) == Due(it.(quantity := left, status := if left == 0 then Cancelled else Sent(stage))) + it.price * q
  {
    Spread(it.price, left - it.paid, q);
    assert left == 0 ==> Times(it.price, 0) == 0;
  }

  /** A void keeps the discount covered exactly when its value fits into the slack. */
  lemma VoidKeepsCover(o: Order, id: nat, q: nat, readQuantity: nat, readPaid: nat, readStage: Stage)
    requires RowsOk(o.items) && VoidWrite(o, id, readQuantity, readPaid, readStage, q).Some?
    ensures var i := IndexOf(o.items, id);
            Covered(VoidWrite(o, id, readQuantity, readPaid, readStage, q).value)
            <==> Rest(o) + o.items[i].price * q <= DueTotal(o.items)
  {
    var i := IndexOf(o.items, id);
    var it := o.items[i];
    assert RowOk(it);
    var left := it.quantity - q;
    VoidLowers(it, q, left, readStage);
    DueUpdate(o.items, i, it.(quantity := left, status := if left == 0 then Cancelled else Sent(readStage)));
  }

  // ---------------------------------------------------------------- the closing payment

  /** The closing payment brings the shares to the discount, or leaves them where they are if already past it. */
  lemma ClosingShares(o: Order, r: PayRequest)
    requires PlanPayment(o, r).Ok? && PlanPayment(o, r).value.final
    ensures SharesTaken(CommitSplit(o, PlanPayment(o, r).value, r.key).payments)
            == if SharesTaken(o.payments) <= o.discount then o.discount else SharesTaken(o.payments)
  {
    PlanIsPlanned(o, r);
    SumAppend(o.payments, SplitPayment(PlanPayment(o, r).value, r.key), ShareOfPayment);
  }

  /** A completed order has used exactly its discount, if and only if no one had put it below what was used. */
  lemma ClosingSharesExact(o: Order, r: PayRequest)
    requires PlanPayment(o, r).Ok? && PlanPayment(o, r).value.final
    ensures SharesTaken(CommitSplit(o, PlanPayment(o, r).value, r.key).payments) == o.discount
            <==> SharesTaken(o.payments) <= o.discount
  {
    ClosingShares(o, r);
  }

  // ---------------------------------------------------------------- one split payment against the whole bill

  /** Asking for everything counts the same as the whole bill, whatever the weight. */
  lemma EverythingWeighs(o: Order, r: PayRequest, p: Plan, w: Weight)
    requires RowsOk(o.items) && NothingPaid(o.items) && Asks(o, r, p) && Settles(o.items, p.req)
    ensures Sum(p.lines, LinePart(w)) == Sum(WholeLines(o.items), LinePart(w))
  {
    var whole := WholeLines(o.items);
    forall k | 0 <= k < |p.lines| ensures p.lines[k].item in o.items {
      assert LineError(o.items, r.lines[k]).None?;
    }
    forall k | 0 <= k < |whole| ensures whole[k].item in o.items { WholeMembers(o.items, whole[k]); }
    RowsHave(o.items, p.lines, w);
    RowsHave(o.items, whole, w);
    forall i | 0 <= i < |o.items| ensures LineQuantity(p.lines, o.items[i].id) == LineQuantity(whole, o.items[i].id) {
      EverythingOfRow(o, r, p, i);
    }
    SameAsked(o.items, p.lines, whole, w);
  }

  lemma EverythingOfRow(o: Order, r: PayRequest, p: Plan, i: nat)
    requires RowsOk(o.items) && NothingPaid(o.items) && Asks(o, r, p) && Settles(o.items, p.req) && i < |o.items|
    ensures LineQuantity(p.lines, o.items[i].id) == LineQuantity(WholeLines(o.items), o.items[i].id)
  {
    SettlesMeans(o.items, p.req);
    WholeAsks(o.items);
    AskedOfRow(o, r, p, i);
    assert Want(p.req, o.items[i].id) == LineQuantity(p.lines, o.items[i].id);
    assert Want(WholeReq(o.items), o.items[i].id) == LineQuantity(WholeLines(o.items), o.items[i].id);
    if !Billable(o.items[i]) {
      NoDraftMeansSent(o, r, p);
    }
  }

  lemma NoDraftMeansSent(o: Order, r: PayRequest, p: Plan)
    requires Asks(o, r, p) && !HasDraft(o.items)
    ensures NoDraftLine(p)
  {
    forall k | 0 <= k < |p.lines| ensures Billable(p.lines[k].item) {
      assert LineError(o.items, r.lines[k]).None?;
    }
  }

  /**
   * On an untouched bill, one split payment that takes everything charges what the whole-bill payment
   * charges, figure by figure; and where it is refused as negative, exactly when the discount exceeds
   * subtotal and tax, the whole-bill payment goes through with that negative amount.
   */
  lemma OneSplitAgainstWhole(o: Order, r: PayRequest)
    requires RowsOk(o.items) && NothingPaid(o.items) && o.payments == [] && o.status.InService? && r.cash.None?
    requires RequestMap(r.lines).Ok? && LinesError(o.items, r.lines).None?
             && Settles(o.items, RequestMap(r.lines).value)
    ensures WholePayment(o, None).Ok?
    ensures var whole := WholePayment(o, None).value;
            match PlanPayment(o, r)
            case Ok(p) =>
              p.final && p.totals == Totals(whole.subtotal, whole.tax, whole.discount, whole.amount)
              && 0 <= whole.amount
            case Err(e) => e == NegativeTotal && whole.amount < 0
  {
    var lines := PayLines(o.items, r.lines);
    EverythingAsked(o, r);
    LinesTotals(lines);
    LinesTotals(WholeLines(o.items));
  }

  lemma EverythingAsked(o: Order, r: PayRequest)
    requires RowsOk(o.items) && NothingPaid(o.items)
    requires RequestMap(r.lines).Ok? && LinesError(o.items, r.lines).None?
             && Settles(o.items, RequestMap(r.lines).value)
    ensures Sum(PayLines(o.items, r.lines), LinePart(ByPrice)) == Sum(WholeLines(o.items), LinePart(ByPrice))
    ensures Sum(PayLines(o.items, r.lines), LinePart(ByTax)) == Sum(WholeLines(o.items), LinePart(ByTax))
    ensures WholeLines(o.items) != [] && !AnyPaid(WholeLines(o.items)) && !HasDraft(o.items)
  {
    var lines := PayLines(o.items, r.lines);
    var p := Plan(lines, RequestMap(r.lines).value, Totals(0, 0, 0, 0), 0, 0, true);
    RequestAsks(o, r, p);
    EverythingWeighs(o, r, p, ByPrice);
    EverythingWeighs(o, r, p, ByTax);
    NoneAnyPaid(o.items);
    NoDraftMeansSent(o, r, p);
    assert LineError(o.items, r.lines[0]).None?;
    WholeMembers(o.items, PayLine(lines[0].item, lines[0].item.quantity));
  }

  // ---------------------------------------------------------------- three runs

  const NOBODY: multiset<nat> := multiset{}

  function Row(id: nat, price: nat, quantity: nat, status: ItemStatus): Item
  {
    Item(id, None, price, 0, quantity, 0, status)
  }

  function Opened(items: seq<Item>, discount: nat): Order
  {
    Order(items, InService(Submitted), false, discount, [], NOBODY)
  }

  /** Asking one unit of one row. */
  function OneUnit(key: nat, id: nat): PayRequest { PayRequest(key, None, [ReqLine(id, 1)]) }

  lemma OneUnitPlan(o: Order, key: nat, id: nat, it: Item)
    requires o.status.InService? && Find(o.items, id) == Some(it) && !it.status.Cancelled? && it.paid < it.quantity
    requires it.rate == 0
    ensures var final := Settles(o.items, map[id := 1]);
            var share := ShareOf(o, it.price, final);
            PlanPayment(o, OneUnit(key, id))
            == if it.price < share then Err(NegativeTotal)
               else Ok(Plan([PayLine(it, 1)], map[id := 1], Totals(it.price, 0, share, it.price - share),
                            it.price - share, 0, final))
  {
    var r := OneUnit(key, id);
    assert r.lines[1..] == [];
    assert CollectLines(r.lines[1..], map[id := 1]) == Ok(map[id := 1]);
    assert LinesError(o.items, r.lines[1..]).None?;
    var lines := PayLines(o.items, r.lines);
    assert lines == [PayLine(it, 1)];
    assert PricedAll(lines) == [PricedLine(it.price, 0, 1)];
    SumOne(PricedLine(it.price, 0, 1), LineValue);
    SumOne(PricedLine(it.price, 0, 1), LineTax);
  }

  lemma {:induction false} UnpaidOne(it: Item)
    requires Billable(it) && it.paid < it.quantity
    ensures UnpaidLines([it]) == [PayLine(it, Unpaid(it))]
    ensures DueTotal([it]) == it.price * Unpaid(it)
  {
    assert [it][..0] == [];
    assert UnpaidLines([]) == [];
    SumOne(it, Due);
  }

  /** A draft row behind the others changes nothing about what is due. */
  lemma {:induction false} DraftNotDue(items: seq<Item>, d: Item)
    requires d.status.Draft?
    ensures UnpaidLines(items + [d]) == UnpaidLines(items) && DueTotal(items + [d]) == DueTotal(items)
  {
    assert (items + [d])[..|items|] == items;
    SumAppend(items, d, Due);
  }

  lemma ShareIs(o: Order, subtotal: nat, final: bool)
    ensures ShareOf(o, subtotal, final)
            == DiscountShare(o.discount, SharesTaken(o.payments), subtotal, DueTotal(o.items), final)
  {
    LinesTotals(UnpaidLines(o.items));
    UnpaidValue(o.items);
  }

  /** One sent row and one draft row of one unit each. */
  function WithDraft(sentPrice: nat, draftPrice: nat, discount: nat): Order
  {
    Opened([Row(1, sentPrice, 1, Sent(Submitted)), Row(2, draftPrice, 1, Draft)], discount)
  }

  lemma WithDraftRows(sentPrice: nat, draftPrice: nat, discount: nat)
    ensures var o := WithDraft(sentPrice, draftPrice, discount);
            RowsOk(o.items) && Find(o.items, 2) == Some(Row(2, draftPrice, 1, Draft)) && HasDraft(o.items)
            && DueTotal(o.items) == sentPrice
  {
    var a, b := Row(1, sentPrice, 1, Sent(Submitted)), Row(2, draftPrice, 1, Draft);
    var o := WithDraft(sentPrice, draftPrice, discount);
    assert o.items[1..] == [b] && o.items == [a] + [b];
    UnpaidOne(a);
    DraftNotDue([a], b);
    assert o.items[1].status.Draft?;
  }

  /**
   * An unsent row can be paid, and its share of the discount is computed against the sent rows alone;
   * with a discount equal to the sent rows, the share is the unsent row's whole price, however large.
   */
  lemma DraftPaidRun(sentPrice: nat, draftPrice: nat)
    requires 0 < sentPrice
    ensures var o := WithDraft(sentPrice, draftPrice, sentPrice);
            RowsOk(o.items) && PlanPayment(o, OneUnit(7, 2)).Ok?
            && SharesTaken(CommitSplit(o, PlanPayment(o, OneUnit(7, 2)).value, 7).payments) == draftPrice
  {
    var o := WithDraft(sentPrice, draftPrice, sentPrice);
    WithDraftRows(sentPrice, draftPrice, sentPrice);
    OneUnitPlan(o, 7, 2, Row(2, draftPrice, 1, Draft));
    ShareIs(o, draftPrice, false);
    WholeShare(draftPrice, sentPrice);
    SumAppend([], SplitPayment(PlanPayment(o, OneUnit(7, 2)).value, 7), ShareOfPayment);
  }

  lemma WholeShare(part: nat, whole: nat)
    requires 0 < whole
    ensures HalfUp(whole * part, whole) == part
  {
    HalfUpAtMost(whole * part, whole, part);
    if part > 0 {
      HalfUpAtMost(whole * part, whole, part - 1);
      assert whole * (part - 1) == whole * part - whole;
    }
  }

  /** Paying one unit of a row, with nothing in the way: what the order and its shares come to. */
  lemma PayOneUnit(o: Order, key: nat, id: nat, it: Item)
    requires o.status.InService? && Find(o.items, id) == Some(it) && !it.status.Cancelled? && it.paid < it.quantity
    requires it.rate == 0 && PaymentFor(o.payments, key).None?
    requires var final := Settles(o.items, map[id := 1]);
             DiscountShare(o.discount, SharesTaken(o.payments), it.price, DueTotal(o.items), final) <= it.price
    ensures var c := Call(OneUnit(key, id), true, true);
            var final := Settles(o.items, map[id := 1]);
            Answer(o, c).Paid? && After(o, c).items == PaidUp(o.items, map[id := 1])
            && After(o, c).status == (if final then Completed else o.status)
            && After(o, c).discount == o.discount
            && |After(o, c).payments| == |o.payments| + 1
            && After(o, c).payments[|o.payments|].key == Some(key)
            && SharesTaken(After(o, c).payments)
               == SharesTaken(o.payments)
                  + DiscountShare(o.discount, SharesTaken(o.payments), it.price, DueTotal(o.items), final)
  {
    OneUnitPlan(o, key, id, it);
    ShareIs(o, it.price, Settles(o.items, map[id := 1]));
    SumAppend(o.payments, SplitPayment(PlanPayment(o, OneUnit(key, id)).value, key), ShareOfPayment);
    assert OneUnit(key, id).lines[1..] == [];
    assert CollectLines(OneUnit(key, id).lines[1..], map[id := 1]) == Ok(map[id := 1]);
  }

  function Round(quantity: nat, paid: nat): Item { Item(1, None, 100, 0, quantity, paid, Sent(Submitted)) }

  /** An order of two units of 1.00, half of which its first guest has paid. */
  function HalfPaid(discount: nat): Order
  {
    After(Opened([Round(2, 0)], discount), Call(OneUnit(7, 1), true, true))
  }

  lemma FirstOfTwo(o: Order)
    requires o.items == [Round(2, 0)]
    ensures !Settles(o.items, map[1 := 1]) && DueTotal(o.items) == 200
  {
    UnpaidOne(Round(2, 0));
    var l := PayLine(Round(2, 0), 2);
    assert l in UnpaidLines(o.items) && Want(map[1 := 1], l.item.id) < l.quantity;
  }

  lemma HalfPaidIs(discount: nat)
    requires 0 < discount <= 100
    ensures var o := HalfPaid(discount);
            o.items == [Round(2, 1)] && o.status == InService(Submitted) && o.discount == discount
            && SharesTaken(o.payments) == HalfUp(discount * 100, 200)
            && |o.payments| == 1 && o.payments[0].key == Some(7)
  {
    var o := Opened([Round(2, 0)], discount);
    FirstOfTwo(o);
    HalfUpAtMost(discount * 100, 200, 100);
    PayOneUnit(o, 7, 1, Round(2, 0));
  }

  lemma HalfPaidGood(discount: nat)
    ensures Good(HalfPaid(discount))
  {
    UntouchedGood([Round(2, 0)], discount);
    CallKeeps(Opened([Round(2, 0)], discount), Call(OneUnit(7, 1), true, true));
  }

  /** The other unit is voided: the order is open, paid up, and no payment can close it. */
  lemma StuckRun(discount: nat, r: PayRequest, cash: Option<nat>)
    requires PositiveLines(r) && 0 < discount <= 100
    ensures var o := Land(HalfPaid(discount), VoidRow(1, 2, 1, Submitted, 1));
            o.Some? && Good(o.value) && o.value.status.InService?
            && PlanPayment(o.value, r).Err? && WholePayment(o.value, cash) == Err(PartlyPaid)
  {
    HalfPaidIs(discount);
    HalfPaidGood(discount);
    var w := VoidRow(1, 2, 1, Submitted, 1);
    HarmlessKeeps(HalfPaid(discount), w);
    var o := Land(HalfPaid(discount), w).value;
    assert o.items == [Round(1, 1)];
    assert o.items[0].paid != 0;
    PaidUpOpenOrderIsStuck(o, r, cash);
  }

  /** The discount is put down in between: the second unit closes the order with the shares of the first. */
  lemma LoweredDiscountRun(discount: nat, lower: nat)
    requires 0 < discount <= 100 && lower < HalfUp(discount * 100, 200)
    ensures ApplyDiscount(HalfPaid(discount).status, HalfPaid(discount), lower).Ok?
    ensures var lowered := ApplyDiscount(HalfPaid(discount).status, HalfPaid(discount), lower).value;
            var o := After(lowered, Call(OneUnit(8, 1), true, true));
            o.status.Completed? && o.discount == lower && lower < SharesTaken(o.payments)
  {
    HalfPaidIs(discount);
    var o := ApplyDiscount(HalfPaid(discount).status, HalfPaid(discount), lower).value;
    UnpaidOne(Round(2, 1));
    assert Settles(o.items, map[1 := 1]);
    assert PaymentFor(o.payments[1..], 8).None?;
    PayOneUnit(o, 8, 1, Round(2, 1));
  }

  /** An order nobody has paid anything of yet. */
  lemma UntouchedGood(items: seq<Item>, discount: nat)
    requires RowsOk(items) && NothingPaid(items)
    ensures Good(Opened(items, discount))
  {
    forall id {:trigger LedgerQuantity([], id)} ensures LedgerQuantity([], id) == 0 {}
    forall w: Weight ensures Sum(items, PaidPart(w)) == 0 {
      forall i | 0 <= i < |items| ensures PaidPart(w)(items[i]) == 0 { assert Times(w.Of(items[i]), 0) == 0; }
      SumZero(items, PaidPart(w));
    }
  }
}
