/**
 * Results about whole settlements: split payments add up to the one-go payment, rounding never makes
 * a payment negative, and the places where the code does less than its documentation says.
 */
module BillSettlement {
  import opened Common
  import opened Sums
  import opened Money
  import opened Bill
  import opened BillStore
  import opened BillLaws
  import opened BillWrites

  // ---------------------------------------------------------------- nothing paid, no payments

  lemma {:induction false} WholeMembers(items: seq<Item>, l: PayLine)
    ensures l in WholeLines(items) <==> l.item in items && Billable(l.item) && l.quantity == l.item.quantity
  {
    if items != [] {
      assert items == items[..|items| - 1] + [items[|items| - 1]];
      WholeMembers(items[..|items| - 1], l);
    }
  }

  /** Every payment has left its trace on a row that is still on the bill. */
  lemma PaymentLeavesRow(o: Order) returns (i: nat)
    requires Good(o) && o.payments != []
    ensures i < |o.items| && Billable(o.items[i]) && o.items[i].paid > 0
  {
    var p := o.payments[0];
    assert PaymentOk(p);
    var id := p.rows[0].itemId;
    SumTerm(p.rows, 0, RowOf(id));
    SumTerm(o.payments, 0, OfPayment(id));
    assert LedgerQuantity(o.payments, id) > 0;
    i :| 0 <= i < |o.items| && o.items[i].id == id;
    assert RowOk(o.items[i]);
  }

  /**
   * transferOrderItems closes a source order with no live row as COMPLETED when it has payments and as
   * CANCELLED otherwise; the first of these cannot happen, because a paid row never leaves.
   */
  lemma NothingLeftMeansNeverPaid(o: Order)
    requires Good(o)
    requires forall i :: 0 <= i < |o.items| ==> o.items[i].status.Cancelled? || o.items[i].quantity == 0
    ensures o.payments == []
  {
    if o.payments != [] {
      var i := PaymentLeavesRow(o);
    }
  }

  // ---------------------------------------------------------------- paying the whole bill

  ghost function WholeIds(items: seq<Item>): set<nat> { set it | it in items && Billable(it) :: it.id }

  ghost function WholeReq(items: seq<Item>): map<nat, nat>
  {
    map id | id in WholeIds(items) && Find(items, id).Some? :: Find(items, id).value.quantity
  }

  lemma {:induction false} WholeQuantity(items: seq<Item>, n: nat, id: nat)
    requires DistinctIds(items) && n <= |items|
    ensures forall i :: 0 <= i < n && items[i].id == id ==>
              LineQuantity(WholeLines(items[..n]), id) == if Billable(items[i]) then items[i].quantity else 0
    ensures !HasId(items[..n], id) ==> LineQuantity(WholeLines(items[..n]), id) == 0
  {
    if n > 0 {
      var it := items[n - 1];
      assert items[..n][..n - 1] == items[..n - 1];
      WholeQuantity(items, n - 1, id);
      if Billable(it) {
        SumAppend(WholeLines(items[..n - 1]), PayLine(it, it.quantity), LineOf(id));
      } else {
        assert WholeLines(items[..n]) == WholeLines(items[..n - 1]);
      }
      if it.id == id {
        assert forall i :: 0 <= i < n - 1 ==> items[i].id != id;
      } else {
        if !HasId(items[..n], id) {
          assert forall i :: 0 <= i < n - 1 ==> items[..n][i] == items[..n - 1][i];
        }
      }
    }
  }

  lemma WholeAsks(items: seq<Item>)
    requires RowsOk(items)
    ensures MapsLines(WholeReq(items), WholeLines(items))
    ensures forall i :: 0 <= i < |items| ==>
              Want(WholeReq(items), items[i].id) == if Billable(items[i]) then items[i].quantity else 0
  {
    var req, lines := WholeReq(items), WholeLines(items);
    assert items[..|items|] == items;
    forall i | 0 <= i < |items|
      ensures Want(req, items[i].id) == if Billable(items[i]) then items[i].quantity else 0
    {
      FindAt(items, i);
      if items[i].id in req {
        var it :| it in items && Billable(it) && it.id == items[i].id;
        var j :| 0 <= j < |items| && items[j] == it;
        FindAt(items, j);
      }
      assert items[i] in items;
    }
    forall id ensures Want(req, id) == LineQuantity(lines, id) {
      WholeQuantity(items, |items|, id);
      if HasId(items, id) {
        var i :| 0 <= i < |items| && items[i].id == id;
      } else {
        NoIndex(items, id);
      }
    }
  }

  ghost predicate NothingPaid(items: seq<Item>)
  {
    forall i :: 0 <= i < |items| ==> items[i].paid == 0
  }

  lemma NoneAnyPaid(items: seq<Item>)
    requires RowsOk(items)
    ensures AnyPaid(WholeLines(items)) <==> !NothingPaid(items)
  {
    forall l ensures l in WholeLines(items) <==> l.item in items && Billable(l.item) && l.quantity == l.item.quantity {
      WholeMembers(items, l);
    }
    if !NothingPaid(items) {
      var i :| 0 <= i < |items| && items[i].paid != 0;
      assert RowOk(items[i]);
      assert PayLine(items[i], items[i].quantity) in WholeLines(items);
    }
  }

  lemma WholeLand(items: seq<Item>)
    requires RowsOk(items) && NothingPaid(items)
    ensures Lands(items, WholeLines(items))
  {
    var lines := WholeLines(items);
    forall k | 0 <= k < |lines|
      ensures exists i :: 0 <= i < |items| && SameRow(lines[k].item, items[i])
      ensures lines[k].item.paid + lines[k].quantity <= lines[k].item.quantity && 0 < lines[k].quantity
    {
      WholeMembers(items, lines[k]);
      var i :| 0 <= i < |items| && items[i] == lines[k].item;
      assert RowOk(items[i]);
      assert SameRow(lines[k].item, items[i]);
    }
  }

  lemma WholeAskedByLine(items: seq<Item>)
    requires DistinctIds(items)
    ensures AsksByLine(WholeReq(items), WholeLines(items))
  {
    var lines, req := WholeLines(items), WholeReq(items);
    forall id {:trigger Want(req, id)} | Want(req, id) > 0 ensures AskedBy(lines, id, Want(req, id)) {
      var it :| it in items && Billable(it) && it.id == id;
      var j :| 0 <= j < |items| && items[j] == it;
      FindAt(items, j);
      WholeMembers(items, PayLine(it, it.quantity));
      var k :| 0 <= k < |lines| && lines[k] == PayLine(it, it.quantity);
    }
  }

  lemma SettlesByRequest(items: seq<Item>)
    requires RowsOk(items) && NothingPaid(items)
    ensures SettleAll(items) == PaidUp(items, WholeReq(items))
  {
    WholeAsks(items);
  }

  /** The figures of an accepted whole-bill payment. */
  lemma WholePays(o: Order, cash: Option<nat>)
    requires WholePayment(o, cash).Ok?
    ensures var p := WholePayment(o, cash).value;
            p.rows == LedgerRows(WholeLines(o.items)) && p.rows != [] && p.discount == o.discount && p.key == None
            && p.subtotal == Sum(WholeLines(o.items), LinePart(ByPrice))
            && p.tax == HalfUp(Sum(WholeLines(o.items), LinePart(ByTax)), RATE_SCALE)
            && p.amount == p.subtotal + p.tax - p.discount
            && p.tendered - p.change == p.amount && 0 <= p.change
    ensures !HasDraft(o.items) && !AnyPaid(WholeLines(o.items))
  {
    LinesTotals(WholeLines(o.items));
  }

  lemma WholePaymentOk(items: seq<Item>, p: Payment)
    requires Lands(items, WholeLines(items)) && p.rows == LedgerRows(WholeLines(items)) && p.rows != []
    requires p.subtotal == Sum(WholeLines(items), LinePart(ByPrice))
    requires p.tax == HalfUp(Sum(WholeLines(items), LinePart(ByTax)), RATE_SCALE)
    requires p.amount == p.subtotal + p.tax - p.discount && p.tendered - p.change == p.amount && 0 <= p.change
    ensures PaymentOk(p) && RawTax(p) == Sum(WholeLines(items), LinePart(ByTax))
  {
    LedgerTotals(WholeLines(items));
  }

  lemma SameLedger(payments: seq<Payment>, p: Payment, q: Payment, id: nat)
    requires p.rows == q.rows
    ensures LedgerQuantity(payments + [p], id) == LedgerQuantity(payments + [q], id)
  {
    SumAppend(payments, p, OfPayment(id));
    SumAppend(payments, q, OfPayment(id));
  }

  lemma WholeLedger(items: seq<Item>, payments: seq<Payment>, p: Payment)
    requires RowsOk(items) && NothingPaid(items) && LedgerOk(items, payments)
    requires p.rows == LedgerRows(WholeLines(items))
    ensures LedgerOk(PaidUp(items, WholeReq(items)), payments + [p])
  {
    WholeLand(items);
    WholeAskedByLine(items);
    WholeAsks(items);
    var plan := Plan(WholeLines(items), WholeReq(items), Totals(0, 0, 0, 0), 0, 0, true);
    CommitLedger(items, payments, plan, 0);
    forall id ensures LedgerQuantity(payments + [p], id) == LedgerQuantity(payments + [SplitPayment(plan, 0)], id) {
      SameLedger(payments, p, SplitPayment(plan, 0), id);
    }
  }

  lemma WholePaid(items: seq<Item>, w: Weight)
    requires RowsOk(items) && NothingPaid(items)
    ensures Sum(PaidUp(items, WholeReq(items)), PaidPart(w))
            == Sum(items, PaidPart(w)) + Sum(WholeLines(items), LinePart(w))
  {
    WholeLand(items);
    WholeAsks(items);
    CommitWeighs(items, WholeLines(items), WholeReq(items), w);
  }

  lemma WholeMoney(items: seq<Item>, payments: seq<Payment>, p: Payment)
    requires RowsOk(items) && NothingPaid(items) && MoneyOk(items, payments) && PaymentOk(p)
    requires p.subtotal == Sum(WholeLines(items), LinePart(ByPrice))
    requires RawTax(p) == Sum(WholeLines(items), LinePart(ByTax))
    ensures MoneyOk(PaidUp(items, WholeReq(items)), payments + [p])
  {
    WholePaid(items, ByPrice);
    WholePaid(items, ByTax);
    SumAppend(payments, p, Subtotal);
    SumAppend(payments, p, RawTax);
  }

  lemma WholeRowsStock(items: seq<Item>, deducted: multiset<nat>)
    requires RowsOk(items) && NothingPaid(items) && StockOk(items, deducted)
    ensures RowsOk(PaidUp(items, WholeReq(items)))
    ensures StockOk(PaidUp(items, WholeReq(items)), Deduct(deducted, WholeLines(items)))
  {
    WholeLand(items);
    WholeAskedByLine(items);
    WholeAsks(items);
    CommitRows(items, WholeLines(items), WholeReq(items));
    CommitStock(items, deducted, WholeLines(items), WholeReq(items));
  }

  lemma AllSettled(items: seq<Item>)
    requires RowsOk(items) && !HasDraft(items)
    ensures Settled(SettleAll(items))
  {
    forall i | 0 <= i < |items| ensures Done(SettleAll(items)[i]) { assert RowOk(items[i]); }
  }

  lemma UnpaidMeansNoPayments(o: Order)
    requires Good(o) && NothingPaid(o.items)
    ensures o.payments == []
  {
    if o.payments != [] {
      var i := PaymentLeavesRow(o);
    }
  }

  /** A whole-bill payment keeps the invariant, and takes the whole discount. */
  lemma WholeGood(o: Order, cash: Option<nat>)
    requires Good(o) && o.status.InService? && WholePayment(o, cash).Ok?
    ensures Good(CommitWhole(o, WholePayment(o, cash).value))
  {
    var p := WholePayment(o, cash).value;
    WholePays(o, cash);
    NoneAnyPaid(o.items);
    UnpaidMeansNoPayments(o);
    SettlesByRequest(o.items);
    WholeLand(o.items);
    WholePaymentOk(o.items, p);
    WholeRowsStock(o.items, o.deducted);
    WholeLedger(o.items, o.payments, p);
    WholeMoney(o.items, o.payments, p);
    CommitPrices(o.items, o.payments, WholeLines(o.items), WholeReq(o.items), p);
    AllSettled(o.items);
    SumAppend(o.payments, p, ShareOfPayment);
  }

  // ---------------------------------------------------------------- split refines whole

  function Unpay(items: seq<Item>): (r: seq<Item>)
    ensures |r| == |items|
    ensures forall i :: 0 <= i < |items| ==> r[i] == items[i].(paid := 0)
  {
    seq(|items|, i requires 0 <= i < |items| => items[i].(paid := 0))
  }

  /** The same rows and the same discount, as if nobody had paid anything yet. */
  function Fresh(o: Order): Order
  {
    o.(items := Unpay(o.items), status := InService(Served), payments := [], deducted := multiset{})
  }

  function TaxOf(p: Payment): nat { p.tax }

  /** Rounding each payment's tax moves the total by at most half a hundredth per payment. */
  lemma {:induction false} TaxRounding(payments: seq<Payment>)
    requires forall i :: 0 <= i < |payments| ==> PaymentOk(payments[i])
    ensures -(RATE_SCALE * |payments|) <= 2 * RATE_SCALE * Sum(payments, TaxOf) - 2 * Sum(payments, RawTax)
    ensures 2 * RATE_SCALE * Sum(payments, TaxOf) - 2 * Sum(payments, RawTax) <= RATE_SCALE * |payments|
  {
    if payments != [] {
      var p := payments[|payments| - 1];
      TaxRounding(payments[..|payments| - 1]);
      assert PaymentOk(p);
    }
  }

  function Afresh(it: Item): Item { it.(paid := 0) }

  function OwnLine(it: Item): seq<PayLine> { if Billable(it) then [PayLine(it, it.quantity)] else [] }

  lemma AfreshLast(items: seq<Item>)
    requires items != []
    ensures WholeLines(Unpay(items)) == WholeLines(Unpay(items[..|items| - 1])) + OwnLine(Afresh(items[|items| - 1]))
  {
    assert Unpay(items)[..|items| - 1] == Unpay(items[..|items| - 1]);
  }

  lemma OwnLineWeighs(lines: seq<PayLine>, it: Item, w: Weight)
    requires Done(it) && RowOk(it)
    ensures Sum(lines + OwnLine(Afresh(it)), LinePart(w)) == Sum(lines, LinePart(w)) + PaidPart(w)(it)
  {
    if Billable(it) {
      SumAppend(lines, PayLine(Afresh(it), it.quantity), LinePart(w));
      assert w.Of(Afresh(it)) == w.Of(it);
    } else {
      assert lines + OwnLine(Afresh(it)) == lines;
      assert Times(w.Of(it), 0) == 0;
    }
  }

  /** Charging settled rows afresh counts exactly what had been paid of them. */
  lemma {:induction false} WholeWeighs(items: seq<Item>, w: Weight)
    requires forall i :: 0 <= i < |items| ==> Done(items[i]) && RowOk(items[i])
    ensures Sum(WholeLines(Unpay(items)), LinePart(w)) == Sum(items, PaidPart(w))
  {
    if items != [] {
      var n := |items| - 1;
      assert Done(items[n]) && RowOk(items[n]);
      WholeWeighs(items[..n], w);
      AfreshLast(items);
      OwnLineWeighs(WholeLines(Unpay(items[..n])), items[n], w);
    }
  }

  lemma FreshPays(o: Order)
    requires Good(o) && o.status.Completed? && o.payments != []
    ensures WholePayment(Fresh(o), None).Ok?
  {
    var f := Fresh(o);
    forall i | 0 <= i < |f.items| ensures !f.items[i].status.Draft? && RowOk(f.items[i]) {
      assert Done(o.items[i]) && RowOk(o.items[i]);
    }
    NoneAnyPaid(f.items);
    var i := PaymentLeavesRow(o);
    assert f.items[i] in f.items;
    WholeMembers(f.items, PayLine(f.items[i], f.items[i].quantity));
  }

  /** Payments that collect the same raw amounts as one payment differ from it in tax only by roundings. */
  lemma TaxesClose(payments: seq<Payment>, tax: nat)
    requires forall i :: 0 <= i < |payments| ==> PaymentOk(payments[i])
    requires tax == HalfUp(Sum(payments, RawTax), RATE_SCALE)
    ensures 2 * (Sum(payments, TaxOf) - tax) <= |payments| + 1
    ensures 2 * (tax - Sum(payments, TaxOf)) <= |payments| + 1
  {
    TaxRounding(payments);
    Halves(Sum(payments, TaxOf), Sum(payments, RawTax), tax, |payments|);
  }

  lemma Halves(taxes: nat, raw: nat, tax: nat, n: nat)
    requires -(10000 * n) <= 20000 * taxes - 2 * raw <= 10000 * n
    requires 20000 * tax <= 2 * raw + 10000 < 20000 * tax + 20000
    ensures 2 * (taxes - tax) <= n + 1 && 2 * (tax - taxes) <= n + 1
  {
  }

  /**
   * However the bill was partitioned, and whatever was voided or moved on the way, a completed order has
   * collected exactly the pre-tax net that one whole-bill payment of the same rows would collect: same
   * subtotal, same discount, and a tax that differs by at most half a hundredth per payment plus one.
   */
  lemma SplitRefinesWhole(o: Order)
    requires Good(o) && o.status.Completed? && o.payments != []
    ensures WholePayment(Fresh(o), None).Ok?
    ensures var whole := WholePayment(Fresh(o), None).value;
            Sum(o.payments, Subtotal) == whole.subtotal
            && SharesTaken(o.payments) == whole.discount
            && 2 * (Sum(o.payments, TaxOf) - whole.tax) <= |o.payments| + 1
            && 2 * (whole.tax - Sum(o.payments, TaxOf)) <= |o.payments| + 1
  {
    FreshPays(o);
    WholePays(Fresh(o), None);
    forall i | 0 <= i < |o.items| ensures Done(o.items[i]) && RowOk(o.items[i]) {}
    WholeWeighs(o.items, ByPrice);
    WholeWeighs(o.items, ByTax);
    TaxesClose(o.payments, WholePayment(Fresh(o), None).value.tax);
  }

  // ---------------------------------------------------------------- rounding never bites

  /** What is left of the discount fits into what is still due. */
  predicate Covered(o: Order) { Rest(o) <= DueTotal(o.items) }

  ghost predicate NoDraftNamed(items: seq<Item>, r: PayRequest)
  {
    forall i, k :: 0 <= i < |items| && 0 <= k < |r.lines| && items[i].id == r.lines[k].itemId ==>
      !items[i].status.Draft?
  }

  ghost predicate PositiveLines(r: PayRequest) { forall k :: 0 <= k < |r.lines| ==> 0 < r.lines[k].quantity }

  lemma NamedPlan(o: Order, r: PayRequest, p: Plan)
    requires Asks(o, r, p) && NoDraftNamed(o.items, r) && PositiveLines(r)
    ensures NoDraftLine(p) && Positive(p)
  {
    forall k | 0 <= k < |p.lines| ensures Billable(p.lines[k].item) && 0 < p.lines[k].quantity {
      assert LineError(o.items, r.lines[k]).None?;
      var i :| 0 <= i < |o.items| && o.items[i] == p.lines[k].item;
    }
  }

  /** What is due after a payment is what it left unasked. */
  lemma DueAfter(items: seq<Item>, req: map<nat, nat>)
    ensures DueTotal(PaidUp(items, req)) == Sum(items, Unasked(req))
  {
    SumSame(items, PaidUp(items, req), Unasked(req), Due);
  }

  /** Pro rata with the closing remainder, in figures: what is left of the discount fits what is left due. */
  lemma ShareFitsFigures(discount: nat, taken: nat, subtotal: nat, left: nat, due: nat, final: bool)
    requires taken <= discount && discount - taken <= due == subtotal + left
    requires final ==> left == 0
    ensures var share := DiscountShare(discount, taken, subtotal, due, final);
            share <= subtotal && taken + share <= discount && discount - (taken + share) <= left
  {
    if !final && due > 0 {
      ProRataShare(discount - taken, subtotal, due);
    }
  }

  /** The figures a plan is built from, before the last checks look at the amount. */
  ghost predicate Drawn(o: Order, r: PayRequest, p: Plan)
  {
    && Asks(o, r, p) && p.totals.subtotal == Sum(p.lines, LinePart(ByPrice)) && p.final == Settles(o.items, p.req)
    && p.totals.discount
       == DiscountShare(o.discount, SharesTaken(o.payments), p.totals.subtotal, DueTotal(o.items), p.final)
  }

  /** With the discount covered, every share fits its own payment, and the rest stays covered. */
  lemma ShareFits(o: Order, r: PayRequest, p: Plan)
    requires RowsOk(o.items) && SharesTaken(o.payments) <= o.discount && Covered(o)
    requires Drawn(o, r, p) && NoDraftLine(p)
    ensures p.totals.discount <= p.totals.subtotal
    ensures SharesTaken(o.payments) + p.totals.discount <= o.discount
    ensures o.discount - (SharesTaken(o.payments) + p.totals.discount) <= DueTotal(PaidUp(o.items, p.req))
  {
    AskedBalance(o, r, p);
    DueAfter(o.items, p.req);
    if p.final {
      SettlesMeans(o.items, p.req);
      SumZero(o.items, Unasked(p.req));
    }
    ShareFitsFigures(o.discount, SharesTaken(o.payments), p.totals.subtotal, Sum(o.items, Unasked(p.req)),
                     DueTotal(o.items), p.final);
  }

  lemma PlanKeepsCover(o: Order, r: PayRequest, p: Plan)
    requires RowsOk(o.items) && SharesTaken(o.payments) <= o.discount && Covered(o)
    requires Planned(o, r, p) && NoDraftLine(p)
    ensures p.totals.discount <= p.totals.subtotal
    ensures Covered(CommitSplit(o, p, r.key))
  {
    ShareFits(o, r, p);
    SumAppend(o.payments, SplitPayment(p, r.key), ShareOfPayment);
  }

  lemma {:induction false} CollectRefusal(lines: seq<ReqLine>, req: map<nat, nat>)
    ensures CollectLines(lines, req).Err? ==> CollectLines(lines, req).error == DuplicateLine
  {
    if lines != [] && lines[0].itemId !in req {
      CollectRefusal(lines[1..], req[lines[0].itemId := lines[0].quantity]);
    }
  }

  lemma {:induction false} LinesRefusal(items: seq<Item>, lines: seq<ReqLine>)
    ensures LinesError(items, lines) != Some(NegativeTotal)
  {
    if lines != [] {
      LinesRefusal(items, lines[1..]);
    }
  }

  /** A refusal as negative comes from the plan's own figures, nothing else. */
  lemma NegativeMeans(o: Order, r: PayRequest) returns (p: Plan)
    requires PlanPayment(o, r) == Err(NegativeTotal)
    ensures Drawn(o, r, p) && p.totals.subtotal < p.totals.discount
  {
    CollectRefusal(r.lines, map[]);
    LinesRefusal(o.items, r.lines);
    var req := RequestMap(r.lines).value;
    var lines := PayLines(o.items, r.lines);
    var final := Settles(o.items, req);
    var share := ShareOf(o, TotalsOf(PricedAll(lines), 0).subtotal, final);
    p := Plan(lines, req, TotalsOf(PricedAll(lines), share), 0, 0, final);
    LinesTotals(lines);
    LinesTotals(UnpaidLines(o.items));
    UnpaidValue(o.items);
    RequestAsks(o, r, p);
  }

  lemma RequestAsks(o: Order, r: PayRequest, p: Plan)
    requires RequestMap(r.lines) == Ok(p.req) && LinesError(o.items, r.lines).None?
    requires p.lines == PayLines(o.items, r.lines)
    ensures Asks(o, r, p)
  {
    assert r.lines[0..] == r.lines;
    CollectFrom(r.lines, 0);
    forall id ensures Want(p.req, id) == LineQuantity(p.lines, id) {
      RequestedQuantity(o.items, r.lines, |r.lines|, id);
      assert p.lines[..|r.lines|] == p.lines;
    }
  }

  /** While the discount left fits what is due, no payment of sent rows is ever refused as negative. */
  lemma NeverNegative(o: Order, r: PayRequest)
    requires RowsOk(o.items) && SharesTaken(o.payments) <= o.discount && Covered(o)
    requires NoDraftNamed(o.items, r) && PositiveLines(r)
    ensures PlanPayment(o, r) != Err(NegativeTotal)
  {
    if PlanPayment(o, r) == Err(NegativeTotal) {
      var p := NegativeMeans(o, r);
      NamedPlan(o, r, p);
      ShareFits(o, r, p);
    }
  }

  lemma AskedBalance(o: Order, r: PayRequest, p: Plan)
    requires RowsOk(o.items) && Asks(o, r, p) && NoDraftLine(p)
    ensures Sum(p.lines, LinePart(ByPrice)) + Sum(o.items, Unasked(p.req)) == DueTotal(o.items)
  {
    forall k | 0 <= k < |p.lines| ensures Has(o.items, p.lines[k].item, ByPrice) {
      assert LineError(o.items, r.lines[k]).None?;
      var i :| 0 <= i < |o.items| && o.items[i] == p.lines[k].item;
    }
    CountLinesOrRows(o.items, p.lines, ByPrice);
    forall i | 0 <= i < |o.items|
      ensures Billable(o.items[i]) ==> Want(p.req, o.items[i].id) <= Unpaid(o.items[i])
      ensures DraftAsked(p.req)(o.items[i]) == 0
    {
      AskedOfRow(o, r, p, i);
    }
    Balanced(o.items, p.lines, p.req);
    SumZero(o.items, DraftAsked(p.req));
  }

  // ---------------------------------------------------------------- any run of split payments

  datatype Call = Call(r: PayRequest, shiftOpen: bool, stockOk: bool)

  function After(o: Order, c: Call): Order { PaySplit(o, c.r, c.shiftOpen, c.stockOk).0 }

  function Answer(o: Order, c: Call): Outcome { PaySplit(o, c.r, c.shiftOpen, c.stockOk).1 }

  function RunAll(o: Order, calls: seq<Call>): Order
  {
    if calls == [] then o else After(RunAll(o, calls[..|calls| - 1]), calls[|calls| - 1])
  }

  /** The two things asked of the callers: no row still unsent is named, and every quantity is positive. */
  ghost predicate Tame(items: seq<Item>, r: PayRequest) { NoDraftNamed(items, r) && PositiveLines(r) }

  lemma Relocate(o: Order, p: Plan, r: PayRequest)
    requires Tame(o.items, r)
    ensures Tame(PaidUp(o.items, p.req), r)
  {
  }

  lemma SelfDrift(o: Order)
    ensures Drift(o, o)
  {
    forall i | 0 <= i < |o.items| ensures CameFrom(o.items, o.items[i]) {
      assert RowDrift(o.items[i], o.items[i]);
    }
  }

  lemma SelfGuarded(o: Order, r: PayRequest, p: Plan, k: nat)
    requires RowsOk(o.items) && Asks(o, r, p) && k < |p.lines|
    ensures Unchanged(o.items, p.lines[k].item)
  {
    assert LineError(o.items, r.lines[k]).None?;
    var i :| 0 <= i < |o.items| && o.items[i] == p.lines[k].item;
    FindAt(o.items, i);
  }

  /** The one way a call changes the order. */
  ghost predicate Commits(o: Order, c: Call)
  {
    && PlanPayment(o, c.r).Ok? && o.status.InService? && PaymentFor(o.payments, c.r.key).None?
    && After(o, c) == CommitSplit(o, PlanPayment(o, c.r).value, c.r.key)
  }

  lemma CallCommits(o: Order, c: Call)
    ensures After(o, c) == o || Commits(o, c)
    ensures Answer(o, c) == Refused(NegativeTotal) ==> PlanPayment(o, c.r) == Err(NegativeTotal)
  {
    CollectRefusal(c.r.lines, map[]);
  }

  lemma AloneCommitting(o: Order, r: PayRequest, p: Plan)
    requires Good(o) && Tame(o.items, r) && o.status.InService? && PaymentFor(o.payments, r.key).None?
    requires Planned(o, r, p)
    ensures Committing(o, o, r, p)
  {
    NamedPlan(o, r, p);
    SelfDrift(o);
    forall k | 0 <= k < |p.lines| ensures Unchanged(o.items, p.lines[k].item) { SelfGuarded(o, r, p, k); }
  }

  /** One call: the invariant is kept, and a covered discount stays covered and is never refused as negative. */
  lemma CallKeeps(o: Order, c: Call)
    requires Good(o) && Tame(o.items, c.r)
    ensures Good(After(o, c))
    ensures Covered(o) ==> Covered(After(o, c)) && Answer(o, c) != Refused(NegativeTotal)
  {
    CallCommits(o, c);
    if Covered(o) {
      NeverNegative(o, c.r);
    }
    if Commits(o, c) {
      PlanIsPlanned(o, c.r);
      var p := PlanPayment(o, c.r).value;
      AloneCommitting(o, c.r, p);
      CommitGood(o, o, c.r, p);
      if Covered(o) {
        PlanKeepsCover(o, c.r, p);
      }
    }
  }

  lemma CallKeepsTame(o: Order, c: Call, r: PayRequest)
    requires Tame(o.items, r)
    ensures Tame(After(o, c).items, r)
  {
    if After(o, c) != o {
      Relocate(o, PlanPayment(o, c.r).value, r);
    }
  }

  lemma {:induction false} RunKeepsTame(o: Order, calls: seq<Call>, r: PayRequest)
    requires Tame(o.items, r)
    ensures Tame(RunAll(o, calls).items, r)
  {
    if calls != [] {
      RunKeepsTame(o, calls[..|calls| - 1], r);
      CallKeepsTame(RunAll(o, calls[..|calls| - 1]), calls[|calls| - 1], r);
    }
  }

  ghost predicate NotNegative(o: Order, calls: seq<Call>, k: nat)
    requires k < |calls|
  {
    Answer(RunAll(o, calls[..k]), calls[k]) != Refused(NegativeTotal)
  }

  lemma LastCall(o: Order, calls: seq<Call>, before: seq<Call>, last: Call)
    requires calls == before + [last] && Tame(o.items, last.r)
    requires Good(RunAll(o, before)) && Covered(RunAll(o, before))
    ensures Good(RunAll(o, calls)) && Covered(RunAll(o, calls)) && NotNegative(o, calls, |before|)
  {
    assert calls[..|before|] == before;
    RunKeepsTame(o, before, last.r);
    CallKeeps(RunAll(o, before), last);
  }

  lemma EarlierCall(o: Order, calls: seq<Call>, n: nat, k: nat)
    requires k < n <= |calls|
    ensures NotNegative(o, calls[..n], k) ==> NotNegative(o, calls, k)
  {
    assert calls[..n][..k] == calls[..k];
  }

  /**
   * Rounding never bites: from a good order whose remaining discount fits what is due, no run of split
   * payments, in any number and order and with any repeats and refusals in between, is ever refused
   * because an amount came out negative; and the run ends in a good and covered order again.
   */
  lemma {:induction false} NoRunGoesNegative(o: Order, calls: seq<Call>)
    requires Good(o) && Covered(o)
    requires forall k :: 0 <= k < |calls| ==> Tame(o.items, calls[k].r)
    ensures Good(RunAll(o, calls)) && Covered(RunAll(o, calls))
    ensures forall k :: 0 <= k < |calls| ==> NotNegative(o, calls, k)
  {
    if calls != [] {
      var n := |calls| - 1;
      var before := calls[..n];
      NoRunGoesNegative(o, before);
      forall k | 0 <= k < n ensures NotNegative(o, calls, k) { EarlierCall(o, calls, n, k); }
      LastCall(o, calls, before, calls[n]);
    }
  }
}
