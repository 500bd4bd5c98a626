/**
 * What a split payment keeps. The commit is stated against two versions of the order: the locked
 * read it was planned from, and the rows as they are when it lands, which other writers may have
 * changed in between as far as the row guards allow.
 */
module BillLaws {
  import opened Common
  import opened Sums
  import opened Money
  import opened Bill
  import opened BillStore

  // ---------------------------------------------------------------- weighted sums

  /** What a unit of a row counts for: its price, its share of the raw tax, or one unit of a menu item. */
  datatype Weight = ByPrice | ByTax | ByMenu(menuItem: nat)
  {
    function Of(it: Item): nat
    {
      match this
      case ByPrice => it.price
      case ByTax => it.price * it.rate
      case ByMenu(m) => if it.menuItem == Some(m) then 1 else 0
    }
  }

  function Times(a: nat, b: nat): nat { a * b }

  /** The weight of what has been paid of a row. */
  function PaidPart(w: Weight): Item -> nat { (it: Item) => Times(w.Of(it), it.paid) }

  function LinePart(w: Weight): PayLine -> nat { (l: PayLine) => Times(w.Of(l.item), l.quantity) }

  function LineOf(id: nat): PayLine -> nat { (l: PayLine) => if l.item.id == id then l.quantity else 0 }

  function LineQuantity(lines: seq<PayLine>, id: nat): nat { Sum(lines, LineOf(id)) }

  function ByLines(w: Weight, lines: seq<PayLine>): Item -> nat
  {
    (it: Item) => Times(w.Of(it), LineQuantity(lines, it.id))
  }

  function OnlyAt(w: Weight, id: nat, q: nat): Item -> nat
  {
    (it: Item) => if it.id == id then Times(w.Of(it), q) else 0
  }

  lemma Spread(a: nat, b: nat, c: nat)
    ensures Times(a, b + c) == Times(a, b) + Times(a, c)
  {
  }

  lemma {:induction false} SumOnlyAt(items: seq<Item>, w: Weight, i: nat, q: nat)
    requires DistinctIds(items) && i < |items|
    ensures Sum(items, OnlyAt(w, items[i].id, q)) == Times(w.Of(items[i]), q)
  {
    var n, f := |items| - 1, OnlyAt(w, items[i].id, q);
    if i == n {
      forall j | 0 <= j < n ensures f(items[..n][j]) == 0 { assert items[j].id != items[n].id; }
      SumZero(items[..n], f);
    } else {
      assert items[i].id != items[n].id;
      SumOnlyAt(items[..n], w, i, q);
    }
  }

  /** Summing the request per line or per row gives the same, whatever the weight. */
  lemma {:induction false} CountLinesOrRows(items: seq<Item>, lines: seq<PayLine>, w: Weight)
    requires DistinctIds(items)
    requires forall k :: 0 <= k < |lines| ==> Has(items, lines[k].item, w)
    ensures Sum(items, ByLines(w, lines)) == Sum(lines, LinePart(w))
  {
    if lines == [] {
      SumZero(items, ByLines(w, lines));
    } else {
      var n := |lines| - 1;
      var l := lines[n];
      CountLinesOrRows(items, lines[..n], w);
      assert Has(items, l.item, w);
      var i :| 0 <= i < |items| && items[i].id == l.item.id && w.Of(items[i]) == w.Of(l.item);
      SumOnlyAt(items, w, i, l.quantity);
      forall j | 0 <= j < |items|
        ensures ByLines(w, lines)(items[j]) == ByLines(w, lines[..n])(items[j])
                + OnlyAt(w, l.item.id, l.quantity)(items[j])
      {
        var x, y := LineQuantity(lines[..n], items[j].id), LineOf(items[j].id)(l);
        assert LineQuantity(lines, items[j].id) == x + y;
        Spread(w.Of(items[j]), x, y);
      }
      SumPointwise(items, items, ByLines(w, lines[..n]), OnlyAt(w, l.item.id, l.quantity), ByLines(w, lines));
    }
  }

  ghost predicate Has(items: seq<Item>, row: Item, w: Weight)
  {
    exists i :: 0 <= i < |items| && items[i].id == row.id && w.Of(items[i]) == w.Of(row)
  }

  /** A request map that agrees with its lines, row by row. */
  ghost predicate MapsLines(req: map<nat, nat>, lines: seq<PayLine>)
  {
    forall id {:trigger Want(req, id)} :: Want(req, id) == LineQuantity(lines, id)
  }

  lemma {:induction false} RequestedQuantity(items: seq<Item>, lines: seq<ReqLine>, k: nat, id: nat)
    requires LinesError(items, lines).None? && DistinctLines(lines) && k <= |lines|
    ensures Want(Requested(lines, k), id) == LineQuantity(PayLines(items, lines)[..k], id)
  {
    if k > 0 {
      var ls := PayLines(items, lines);
      RequestedQuantity(items, lines, k - 1, id);
      RequestedIds(lines, k - 1);
      assert LineError(items, lines[k - 1]).None?;
      assert ls[..k][..k - 1] == ls[..k - 1];
      assert ls[..k][k - 1].item.id == lines[k - 1].itemId;
    }
  }

  /** The plan's lines are the requested rows of the locked read, each named once, all payable. */
  ghost predicate Asks(o: Order, r: PayRequest, p: Plan)
  {
    && LinesError(o.items, r.lines).None? && p.lines == PayLines(o.items, r.lines) && p.lines != []
    && DistinctLines(r.lines) && p.req == Requested(r.lines, |r.lines|) && MapsLines(p.req, p.lines)
  }

  /** The plan's figures follow from its lines. */
  ghost predicate Amounts(p: Plan)
  {
    && p.lines != []
    && p.totals.subtotal == Sum(p.lines, LinePart(ByPrice))
    && p.totals.tax == HalfUp(Sum(p.lines, LinePart(ByTax)), RATE_SCALE)
    && p.totals.total == p.totals.subtotal + p.totals.tax - p.totals.discount
    && p.tendered - p.change == p.totals.total && 0 <= p.change
  }

  /** Everything the proofs use of a plan made from the locked read. */
  ghost predicate Planned(o: Order, r: PayRequest, p: Plan)
  {
    && Asks(o, r, p) && Amounts(p)
    && p.totals.discount
       == DiscountShare(o.discount, SharesTaken(o.payments), p.totals.subtotal, DueTotal(o.items), p.final)
    && p.final == Settles(o.items, p.req)
  }

  lemma LinesTotals(lines: seq<PayLine>)
    ensures Sum(PricedAll(lines), LineValue) == Sum(lines, LinePart(ByPrice))
    ensures Sum(PricedAll(lines), LineTax) == Sum(lines, LinePart(ByTax))
  {
    SumSame(lines, PricedAll(lines), LinePart(ByPrice), LineValue);
    SumSame(lines, PricedAll(lines), LinePart(ByTax), LineTax);
  }

  lemma {:induction false} UnpaidValue(items: seq<Item>)
    ensures Sum(UnpaidLines(items), LinePart(ByPrice)) == DueTotal(items)
  {
    if items != [] {
      var it := items[|items| - 1];
      UnpaidValue(items[..|items| - 1]);
      if Unpaid(it) > 0 {
        SumAppend(UnpaidLines(items[..|items| - 1]), PayLine(it, Unpaid(it)), LinePart(ByPrice));
      } else {
        assert UnpaidLines(items) == UnpaidLines(items[..|items| - 1]);
      }
    }
  }

  lemma PlanIsPlanned(o: Order, r: PayRequest)
    requires PlanPayment(o, r).Ok?
    ensures Planned(o, r, PlanPayment(o, r).value)
  {
    var p := PlanPayment(o, r).value;
    assert r.lines[0..] == r.lines;
    CollectFrom(r.lines, 0);
    forall id ensures Want(p.req, id) == LineQuantity(p.lines, id) {
      RequestedQuantity(o.items, r.lines, |r.lines|, id);
      assert p.lines[..|r.lines|] == p.lines;
    }
    LinesTotals(p.lines);
    LinesTotals(UnpaidLines(o.items));
    UnpaidValue(o.items);
  }

  // ---------------------------------------------------------------- the invariant

  ghost predicate RowsOk(items: seq<Item>)
  {
    DistinctIds(items)
    && forall i :: 0 <= i < |items| ==> RowOk(items[i])
  }

  /** Paid at most the quantity; nothing paid on rows that are not on the bill; just the cancelled rows are empty. */
  predicate RowOk(it: Item)
  {
    it.paid <= it.quantity && (!Billable(it) ==> it.paid == 0) && (it.status.Cancelled? <==> it.quantity == 0)
  }

  function RowOf(id: nat): LedgerRow -> nat { (r: LedgerRow) => if r.itemId == id then r.quantity else 0 }

  function OfPayment(id: nat): Payment -> nat { (p: Payment) => Sum(p.rows, RowOf(id)) }

  /** How much of a row the ledger says has been paid, over all payments. */
  function LedgerQuantity(payments: seq<Payment>, id: nat): nat { Sum(payments, OfPayment(id)) }

  ghost predicate LedgerOk(items: seq<Item>, payments: seq<Payment>)
  {
    && (forall i :: 0 <= i < |items| ==> LedgerQuantity(payments, items[i].id) == items[i].paid)
    && (forall id {:trigger LedgerQuantity(payments, id)} ::
          LedgerQuantity(payments, id) > 0 ==> HasId(items, id))
  }

  ghost predicate HasId(items: seq<Item>, id: nat) { exists i :: 0 <= i < |items| && items[i].id == id }

  ghost predicate StockOk(items: seq<Item>, deducted: multiset<nat>)
  {
    forall m {:trigger ByMenu(m)} :: deducted[m] == Sum(items, PaidPart(ByMenu(m)))
  }

  function RowValue(r: LedgerRow): nat { r.unitPrice * r.quantity }

  function RowTax(r: LedgerRow): nat { r.unitPrice * r.rate * r.quantity }

  function Subtotal(p: Payment): nat { p.subtotal }

  function RawTax(p: Payment): nat { Sum(p.rows, RowTax) }

  /** A payment's own figures agree with its ledger rows. */
  ghost predicate PaymentOk(p: Payment)
  {
    && p.rows != [] && (forall i :: 0 <= i < |p.rows| ==> 0 < p.rows[i].quantity)
    && p.subtotal == Sum(p.rows, RowValue)
    && p.tax == HalfUp(RawTax(p), RATE_SCALE)
    && p.amount == p.subtotal + p.tax - p.discount
    && p.tendered - p.change == p.amount && 0 <= p.change
  }

  ghost predicate MoneyOk(items: seq<Item>, payments: seq<Payment>)
  {
    && (forall i :: 0 <= i < |payments| ==> PaymentOk(payments[i]))
    && Sum(payments, Subtotal) == Sum(items, PaidPart(ByPrice))
    && Sum(payments, RawTax) == Sum(items, PaidPart(ByTax))
  }

  /** A payment item and the row it paid agree on what a unit is. */
  predicate Frozen(r: LedgerRow, it: Item)
  {
    r.unitPrice == it.price && r.rate == it.rate && r.menuItem == it.menuItem
  }

  /** The prices payments were made at are still the prices of the rows. */
  ghost predicate PricesOk(items: seq<Item>, payments: seq<Payment>)
  {
    forall i, p, k :: 0 <= i < |items| && 0 <= p < |payments| && 0 <= k < |payments[p].rows| ==>
      payments[p].rows[k].itemId == items[i].id ==> Frozen(payments[p].rows[k], items[i])
  }

  ghost predicate KeysOk(payments: seq<Payment>)
  {
    forall i, j :: 0 <= i < j < |payments| && payments[i].key.Some? ==> payments[i].key != payments[j].key
  }

  ghost predicate Settled(items: seq<Item>)
  {
    forall i :: 0 <= i < |items| ==>
      items[i].status.Cancelled? || (Billable(items[i]) && items[i].paid == items[i].quantity)
  }

  ghost predicate ClosedOk(o: Order)
  {
    o.status.Completed? ==> Settled(o.items) && SharesTaken(o.payments) == o.discount
  }

  ghost predicate Good(o: Order)
  {
    RowsOk(o.items) && LedgerOk(o.items, o.payments) && StockOk(o.items, o.deducted)
    && MoneyOk(o.items, o.payments) && PricesOk(o.items, o.payments) && KeysOk(o.payments)
    && SharesTaken(o.payments) <= o.discount && ClosedOk(o)
  }

  // ---------------------------------------------------------------- between the locked read and the commit

  /** How far a row may have moved since the locked read while the order row stays locked. */
  ghost predicate RowDrift(seen: Item, now: Item)
  {
    now.id == seen.id && now.paid == seen.paid
    && (!seen.status.Draft? ==>
          now.price == seen.price && now.rate == seen.rate && now.menuItem == seen.menuItem
          && now.quantity <= seen.quantity && !now.status.Draft?
          && (seen.status.Cancelled? ==> now.status.Cancelled?))
  }

  ghost predicate Drift(seen: Order, now: Order)
  {
    && now.payments == seen.payments && now.deducted == seen.deducted
    && now.discount == seen.discount && now.status == seen.status
    && forall i :: 0 <= i < |now.items| ==> CameFrom(seen.items, now.items[i])
  }

  ghost predicate CameFrom(seen: seq<Item>, now: Item) { exists j :: 0 <= j < |seen| && RowDrift(seen[j], now) }

  ghost predicate NoDraftLine(p: Plan) { forall k :: 0 <= k < |p.lines| ==> Billable(p.lines[k].item) }

  ghost predicate Positive(p: Plan) { forall k :: 0 <= k < |p.lines| ==> 0 < p.lines[k].quantity }

  ghost predicate Guarded(items: seq<Item>, p: Plan)
  {
    forall k :: 0 <= k < |p.lines| ==> Unchanged(items, p.lines[k].item)
  }

  /** A guarded line names a current row that agrees with the locked read in everything billing uses. */
  lemma GuardedRow(seen: Order, now: Order, r: PayRequest, p: Plan, k: nat) returns (i: nat)
    requires RowsOk(seen.items) && Drift(seen, now) && Asks(seen, r, p) && k < |p.lines|
    requires Billable(p.lines[k].item) && Unchanged(now.items, p.lines[k].item)
    ensures i < |now.items| && SameRow(p.lines[k].item, now.items[i])
    ensures p.lines[k].item.paid + p.lines[k].quantity <= p.lines[k].item.quantity
  {
    var row := p.lines[k].item;
    assert LineError(seen.items, r.lines[k]).None?;
    var found := Find(now.items, row.id).value;
    i :| 0 <= i < |now.items| && now.items[i] == found;
    assert CameFrom(seen.items, now.items[i]);
    var j :| 0 <= j < |seen.items| && RowDrift(seen.items[j], now.items[i]);
    var s :| 0 <= s < |seen.items| && seen.items[s] == row;
    assert seen.items[j].id == seen.items[s].id;
    assert j == s;
  }

  predicate SameRow(a: Item, b: Item)
  {
    a.id == b.id && a.price == b.price && a.rate == b.rate && a.menuItem == b.menuItem
    && a.quantity == b.quantity && a.paid == b.paid && Billable(b)
  }

  /** Every line of the plan is a current row, as it was read, with enough left unpaid. */
  ghost predicate Lands(items: seq<Item>, lines: seq<PayLine>)
  {
    forall k :: 0 <= k < |lines| ==>
      (exists i :: 0 <= i < |items| && SameRow(lines[k].item, items[i]))
      && lines[k].item.paid + lines[k].quantity <= lines[k].item.quantity
      && 0 < lines[k].quantity
  }

  lemma GuardsLand(seen: Order, now: Order, r: PayRequest, p: Plan)
    requires RowsOk(seen.items) && Drift(seen, now) && Asks(seen, r, p)
    requires NoDraftLine(p) && Positive(p) && Guarded(now.items, p)
    ensures Lands(now.items, p.lines)
  {
    forall k | 0 <= k < |p.lines|
      ensures (exists i :: 0 <= i < |now.items| && SameRow(p.lines[k].item, now.items[i]))
              && p.lines[k].item.paid + p.lines[k].quantity <= p.lines[k].item.quantity
    {
      assert Unchanged(now.items, p.lines[k].item);
      var i := GuardedRow(seen, now, r, p, k);
    }
  }

  /** The request asks for a row only through one of its lines, and then for exactly that line's quantity. */
  ghost predicate AsksByLine(req: map<nat, nat>, lines: seq<PayLine>)
  {
    forall id {:trigger Want(req, id)} :: Want(req, id) > 0 ==> AskedBy(lines, id, Want(req, id))
  }

  ghost predicate AskedBy(lines: seq<PayLine>, id: nat, q: nat)
  {
    exists k :: 0 <= k < |lines| && lines[k].item.id == id && lines[k].quantity == q
  }

  lemma AsksLines(o: Order, r: PayRequest, p: Plan)
    requires Asks(o, r, p)
    ensures AsksByLine(p.req, p.lines)
  {
    forall id {:trigger Want(p.req, id)} | Want(p.req, id) > 0 ensures AskedBy(p.lines, id, Want(p.req, id)) {
      RequestedIds(r.lines, |r.lines|);
      var k :| 0 <= k < |r.lines| && r.lines[k].itemId == id;
      WantIs(r.lines, |r.lines|, k);
      assert LineError(o.items, r.lines[k]).None?;
      assert p.lines[k].item.id == id && p.lines[k].quantity == Want(p.req, id);
    }
  }

  /** What a landed request asks of a current row never passes its unpaid rest. */
  lemma AskedWithin(items: seq<Item>, lines: seq<PayLine>, req: map<nat, nat>, i: nat)
    requires DistinctIds(items) && Lands(items, lines) && AsksByLine(req, lines) && i < |items|
    ensures Want(req, items[i].id) > 0 ==>
              Billable(items[i]) && items[i].paid + Want(req, items[i].id) <= items[i].quantity
  {
    var id := items[i].id;
    if Want(req, id) > 0 {
      assert AskedBy(lines, id, Want(req, id));
      var k :| 0 <= k < |lines| && lines[k].item.id == id && lines[k].quantity == Want(req, id);
      var g :| 0 <= g < |items| && SameRow(lines[k].item, items[g]);
      assert items[g].id == items[i].id;
      assert g == i;
    }
  }

  lemma CommitRows(items: seq<Item>, lines: seq<PayLine>, req: map<nat, nat>)
    requires RowsOk(items) && Lands(items, lines) && AsksByLine(req, lines)
    ensures RowsOk(PaidUp(items, req))
  {
    var after := PaidUp(items, req);
    forall i | 0 <= i < |after| ensures RowOk(after[i]) {
      AskedWithin(items, lines, req, i);
      assert RowOk(items[i]);
    }
  }

  lemma PaidUpWeighs(items: seq<Item>, req: map<nat, nat>, lines: seq<PayLine>, w: Weight)
    requires MapsLines(req, lines)
    ensures Sum(PaidUp(items, req), PaidPart(w)) == Sum(items, PaidPart(w)) + Sum(items, ByLines(w, lines))
  {
    var after := PaidUp(items, req);
    forall i | 0 <= i < |after|
      ensures PaidPart(w)(after[i]) == PaidPart(w)(items[i]) + ByLines(w, lines)(items[i])
    {
      var it := items[i];
      Spread(w.Of(it), it.paid, Want(req, it.id));
    }
    SumPointwise(items, after, PaidPart(w), ByLines(w, lines), PaidPart(w));
  }

  /** Weighted by anything the rows and the locked read agree on, the paid total grows by the plan's lines. */
  lemma CommitWeighs(items: seq<Item>, lines: seq<PayLine>, req: map<nat, nat>, w: Weight)
    requires DistinctIds(items) && Lands(items, lines) && MapsLines(req, lines)
    ensures Sum(PaidUp(items, req), PaidPart(w)) == Sum(items, PaidPart(w)) + Sum(lines, LinePart(w))
  {
    forall k | 0 <= k < |lines| ensures Has(items, lines[k].item, w) {
      var i :| 0 <= i < |items| && SameRow(lines[k].item, items[i]);
      assert w.Of(items[i]) == w.Of(lines[k].item);
    }
    CountLinesOrRows(items, lines, w);
    PaidUpWeighs(items, req, lines, w);
  }

  lemma DeductLast(stock: multiset<nat>, lines: seq<PayLine>, m: nat)
    requires lines != []
    ensures Deduct(stock, lines)[m] == Deduct(stock, lines[..|lines| - 1])[m] + LinePart(ByMenu(m))(lines[|lines| - 1])
  {
    var l := lines[|lines| - 1];
    assert Times(1, l.quantity) == l.quantity && Times(0, l.quantity) == 0;
  }

  lemma {:induction false} DeductAdds(stock: multiset<nat>, lines: seq<PayLine>, m: nat)
    ensures Deduct(stock, lines)[m] == stock[m] + Sum(lines, LinePart(ByMenu(m)))
  {
    if lines != [] {
      DeductAdds(stock, lines[..|lines| - 1], m);
      DeductLast(stock, lines, m);
    }
  }

  lemma CommitStock(items: seq<Item>, deducted: multiset<nat>, lines: seq<PayLine>, req: map<nat, nat>)
    requires DistinctIds(items) && Lands(items, lines) && MapsLines(req, lines)
    requires StockOk(items, deducted)
    ensures StockOk(PaidUp(items, req), Deduct(deducted, lines))
  {
    forall m: nat {:trigger ByMenu(m)}
      ensures Deduct(deducted, lines)[m] == Sum(PaidUp(items, req), PaidPart(ByMenu(m)))
    {
      DeductAdds(deducted, lines, m);
      CommitWeighs(items, lines, req, ByMenu(m));
    }
  }

  lemma LedgerTotals(lines: seq<PayLine>)
    ensures Sum(LedgerRows(lines), RowValue) == Sum(lines, LinePart(ByPrice))
    ensures Sum(LedgerRows(lines), RowTax) == Sum(lines, LinePart(ByTax))
  {
    SumSame(lines, LedgerRows(lines), LinePart(ByPrice), RowValue);
    SumSame(lines, LedgerRows(lines), LinePart(ByTax), RowTax);
  }

  lemma NewPaymentOk(p: Plan, key: nat)
    requires Amounts(p) && Positive(p)
    ensures PaymentOk(SplitPayment(p, key))
    ensures Subtotal(SplitPayment(p, key)) == Sum(p.lines, LinePart(ByPrice))
    ensures RawTax(SplitPayment(p, key)) == Sum(p.lines, LinePart(ByTax))
  {
    LedgerTotals(p.lines);
  }

  lemma CommitMoney(items: seq<Item>, payments: seq<Payment>, p: Plan, key: nat)
    requires DistinctIds(items) && Lands(items, p.lines) && MapsLines(p.req, p.lines)
    requires Amounts(p) && Positive(p) && MoneyOk(items, payments)
    ensures MoneyOk(PaidUp(items, p.req), payments + [SplitPayment(p, key)])
  {
    var pay := SplitPayment(p, key);
    NewPaymentOk(p, key);
    CommitWeighs(items, p.lines, p.req, ByPrice);
    CommitWeighs(items, p.lines, p.req, ByTax);
    SumAppend(payments, pay, Subtotal);
    SumAppend(payments, pay, RawTax);
  }

  lemma LedgerGrows(payments: seq<Payment>, p: Plan, key: nat, id: nat)
    requires MapsLines(p.req, p.lines)
    ensures LedgerQuantity(payments + [SplitPayment(p, key)], id) == LedgerQuantity(payments, id) + Want(p.req, id)
  {
    SumAppend(payments, SplitPayment(p, key), OfPayment(id));
    SumSame(p.lines, LedgerRows(p.lines), LineOf(id), RowOf(id));
  }

  lemma CommitLedger(items: seq<Item>, payments: seq<Payment>, p: Plan, key: nat)
    requires Lands(items, p.lines) && AsksByLine(p.req, p.lines) && MapsLines(p.req, p.lines)
    requires LedgerOk(items, payments)
    ensures LedgerOk(PaidUp(items, p.req), payments + [SplitPayment(p, key)])
  {
    var after, later := PaidUp(items, p.req), payments + [SplitPayment(p, key)];
    forall i | 0 <= i < |after| ensures LedgerQuantity(later, after[i].id) == after[i].paid {
      LedgerGrows(payments, p, key, items[i].id);
    }
    forall id {:trigger LedgerQuantity(later, id)} | LedgerQuantity(later, id) > 0 ensures HasId(after, id) {
      LedgerGrows(payments, p, key, id);
      if Want(p.req, id) > 0 {
        assert AskedBy(p.lines, id, Want(p.req, id));
        var k :| 0 <= k < |p.lines| && p.lines[k].item.id == id;
        var i :| 0 <= i < |items| && SameRow(p.lines[k].item, items[i]);
        assert items[i].id == id;
      }
      assert HasId(items, id);
      var i :| 0 <= i < |items| && items[i].id == id;
      assert after[i].id == id;
    }
  }

  lemma CommitPrices(items: seq<Item>, payments: seq<Payment>, lines: seq<PayLine>, req: map<nat, nat>, p: Payment)
    requires DistinctIds(items) && Lands(items, lines) && p.rows == LedgerRows(lines) && PricesOk(items, payments)
    ensures PricesOk(PaidUp(items, req), payments + [p])
  {
    var after, later := PaidUp(items, req), payments + [p];
    forall i, n, k | 0 <= i < |after| && 0 <= n < |later| && 0 <= k < |later[n].rows|
      && later[n].rows[k].itemId == after[i].id
      ensures Frozen(later[n].rows[k], after[i])
    {
      if n < |payments| {
        assert Frozen(payments[n].rows[k], items[i]);
      } else {
        var g :| 0 <= g < |items| && SameRow(lines[k].item, items[g]);
        assert items[g].id == items[i].id;
      }
    }
  }

  lemma CommitKeys(payments: seq<Payment>, p: Payment, key: nat)
    requires KeysOk(payments) && PaymentFor(payments, key).None? && p.key == Some(key)
    ensures KeysOk(payments + [p])
  {
    forall i | 0 <= i < |payments| ensures payments[i].key != p.key { assert payments[i] in payments; }
  }

  // ---------------------------------------------------------------- the discount

  lemma {:induction false} UnpaidMembers(items: seq<Item>, l: PayLine)
    ensures l in UnpaidLines(items) <==> l.item in items && 0 < l.quantity == Unpaid(l.item)
  {
    if items != [] {
      assert items == items[..|items| - 1] + [items[|items| - 1]];
      UnpaidMembers(items[..|items| - 1], l);
    }
  }

  /** A request settles the order exactly when no row is a draft and every unpaid rest is asked for. */
  lemma SettlesMeans(items: seq<Item>, req: map<nat, nat>)
    ensures Settles(items, req) <==>
              forall i :: 0 <= i < |items| ==> !items[i].status.Draft? && Unpaid(items[i]) <= Want(req, items[i].id)
  {
    forall l ensures l in UnpaidLines(items) <==> l.item in items && 0 < l.quantity == Unpaid(l.item) {
      UnpaidMembers(items, l);
    }
    if Settles(items, req) {
      forall i | 0 <= i < |items| ensures !items[i].status.Draft? && Unpaid(items[i]) <= Want(req, items[i].id) {
        if Unpaid(items[i]) > 0 {
          assert PayLine(items[i], Unpaid(items[i])) in UnpaidLines(items);
        }
      }
    }
  }

  function DraftPart(req: map<nat, nat>, it: Item): nat
  {
    if Billable(it) then 0 else Times(it.price, Want(req, it.id))
  }

  function DraftAsked(req: map<nat, nat>): Item -> nat { (it: Item) => DraftPart(req, it) }

  function Unasked(req: map<nat, nat>): Item -> nat
  {
    (it: Item) => if Want(req, it.id) < Unpaid(it) then Times(it.price, Unpaid(it) - Want(req, it.id)) else 0
  }

  /** One row of the balance below. */
  lemma RowBalance(it: Item, lines: seq<PayLine>, req: map<nat, nat>)
    requires RowOk(it) && Want(req, it.id) == LineQuantity(lines, it.id)
    requires Billable(it) ==> Want(req, it.id) <= Unpaid(it)
    ensures ByLines(ByPrice, lines)(it) + Unasked(req)(it) == Due(it) + DraftAsked(req)(it)
  {
    var w := Want(req, it.id);
    if Billable(it) {
      Spread(it.price, w, Unpaid(it) - w);
    }
  }

  function Balance(req: map<nat, nat>): Item -> nat { (it: Item) => Due(it) + DraftPart(req, it) }

  lemma Balanced(items: seq<Item>, lines: seq<PayLine>, req: map<nat, nat>)
    requires forall i :: 0 <= i < |items| ==> RowOk(items[i])
    requires MapsLines(req, lines)
    requires forall i :: 0 <= i < |items| ==> Billable(items[i]) ==> Want(req, items[i].id) <= Unpaid(items[i])
    ensures Sum(items, ByLines(ByPrice, lines)) + Sum(items, Unasked(req))
            == DueTotal(items) + Sum(items, DraftAsked(req))
  {
    forall i | 0 <= i < |items|
      ensures Balance(req)(items[i]) == ByLines(ByPrice, lines)(items[i]) + Unasked(req)(items[i])
    {
      RowBalance(items[i], lines, req);
    }
    SumPointwise(items, items, ByLines(ByPrice, lines), Unasked(req), Balance(req));
    SumPointwise(items, items, Due, DraftAsked(req), Balance(req));
  }

  /** Paid now plus left over of the sent rows is what was due plus whatever is paid of unsent rows. */
  lemma SubtotalAgainstDue(o: Order, r: PayRequest, p: Plan)
    requires RowsOk(o.items) && Planned(o, r, p)
    ensures p.totals.subtotal + Sum(o.items, Unasked(p.req)) == DueTotal(o.items) + Sum(o.items, DraftAsked(p.req))
  {
    forall k | 0 <= k < |p.lines| ensures Has(o.items, p.lines[k].item, ByPrice) {}
    CountLinesOrRows(o.items, p.lines, ByPrice);
    forall i | 0 <= i < |o.items| ensures Billable(o.items[i]) ==> Want(p.req, o.items[i].id) <= Unpaid(o.items[i]) {
      AskedOfRow(o, r, p, i);
    }
    Balanced(o.items, p.lines, p.req);
  }

  lemma NoDraftAsked(o: Order, r: PayRequest, p: Plan)
    requires RowsOk(o.items) && Planned(o, r, p) && NoDraftLine(p)
    ensures Sum(o.items, DraftAsked(p.req)) == 0
  {
    forall i | 0 <= i < |o.items| ensures DraftAsked(p.req)(o.items[i]) == 0 {
      AskedOfRow(o, r, p, i);
    }
    SumZero(o.items, DraftAsked(p.req));
  }

  lemma AskedOfRow(o: Order, r: PayRequest, p: Plan, i: nat)
    requires RowsOk(o.items) && Asks(o, r, p) && i < |o.items|
    ensures var it := o.items[i];
            (Billable(it) ==> Want(p.req, it.id) <= Unpaid(it))
            && (NoDraftLine(p) && !Billable(it) ==> Want(p.req, it.id) == 0)
  {
    var it := o.items[i];
    if Want(p.req, it.id) > 0 {
      RequestedIds(r.lines, |r.lines|);
      var k :| 0 <= k < |r.lines| && r.lines[k].itemId == it.id;
      WantIs(r.lines, |r.lines|, k);
      assert LineError(o.items, r.lines[k]).None?;
      FindAt(o.items, i);
    }
  }

  function Rest(o: Order): nat
  {
    if SharesTaken(o.payments) < o.discount then o.discount - SharesTaken(o.payments) else 0
  }

  /** The share bound with the numbers it depends on. */
  lemma ShareBound(discount: nat, taken: nat, subtotal: nat, due: nat, final: bool, rest: nat, excess: int)
    requires taken <= discount && rest == discount - taken && excess == subtotal - due
    ensures taken + DiscountShare(discount, taken, subtotal, due, final) <= discount
            <==> final || due == 0 || 2 * (rest * excess) < due
    ensures subtotal <= due ==> taken + DiscountShare(discount, taken, subtotal, due, final) <= discount
    ensures final ==> taken + DiscountShare(discount, taken, subtotal, due, final) == discount
  {
    if !final && due > 0 {
      ShareWithin(rest, subtotal, due);
      if subtotal <= due {
        ProRataShare(rest, subtotal, due);
      }
    }
  }

  /**
   * The exact reach of the share bound. The locked validation lets a DRAFT row be paid, although the
   * share is computed against the sent rows only; the shares then stay within the discount exactly
   * when the draft rows being paid do not outweigh the sent remainder left unasked by more than the
   * rounding allows.
   */
  lemma ShareStaysWithin(o: Order, r: PayRequest, p: Plan)
    requires RowsOk(o.items) && Planned(o, r, p) && SharesTaken(o.payments) <= o.discount
    ensures SharesTaken(o.payments) + p.totals.discount <= o.discount
            <==> p.final || DueTotal(o.items) == 0
                 || 2 * (Rest(o) * (Sum(o.items, DraftAsked(p.req)) - Sum(o.items, Unasked(p.req)))) < DueTotal(o.items)
  {
    SubtotalAgainstDue(o, r, p);
    ShareBound(o.discount, SharesTaken(o.payments), p.totals.subtotal, DueTotal(o.items), p.final,
               Rest(o), Sum(o.items, DraftAsked(p.req)) - Sum(o.items, Unasked(p.req)));
  }

  /** Without draft lines the shares never pass the discount, and the closing share completes it exactly. */
  lemma ShareConserved(o: Order, r: PayRequest, p: Plan)
    requires RowsOk(o.items) && Planned(o, r, p) && SharesTaken(o.payments) <= o.discount
    requires NoDraftLine(p)
    ensures SharesTaken(o.payments) + p.totals.discount <= o.discount
            && (p.final ==> SharesTaken(o.payments) + p.totals.discount == o.discount)
            && p.totals.subtotal <= DueTotal(o.items)
  {
    SubtotalAgainstDue(o, r, p);
    NoDraftAsked(o, r, p);
    ShareBound(o.discount, SharesTaken(o.payments), p.totals.subtotal, DueTotal(o.items), p.final,
               Rest(o), p.totals.subtotal - DueTotal(o.items));
  }

  /** A payment that settles the order charges everything that was due. */
  lemma FinalChargesAll(o: Order, r: PayRequest, p: Plan)
    requires RowsOk(o.items) && Planned(o, r, p) && p.final
    ensures p.totals.subtotal == DueTotal(o.items)
    ensures NoDraftLine(p)
  {
    SettlesMeans(o.items, p.req);
    forall k | 0 <= k < |p.lines| ensures Billable(p.lines[k].item) {
      assert LineError(o.items, r.lines[k]).None?;
    }
    SubtotalAgainstDue(o, r, p);
    NoDraftAsked(o, r, p);
    SumZero(o.items, Unasked(p.req));
  }

  // ---------------------------------------------------------------- closing

  predicate Done(it: Item) { it.status.Cancelled? || (Billable(it) && it.paid == it.quantity) }

  /** A row is done after the payment exactly when it is no draft and its unpaid rest was asked for. */
  lemma DoneMeans(it: Item, want: nat)
    requires RowOk(it) && (Billable(it) ==> want <= Unpaid(it)) && (!Billable(it) ==> want == 0)
    ensures Done(it.(paid := it.paid + want)) <==> !it.status.Draft? && Unpaid(it) <= want
  {
  }

  /** The order closes exactly when the rows of the locked read would all be settled by this payment. */
  lemma ClosesExactly(o: Order, r: PayRequest, p: Plan)
    requires RowsOk(o.items) && Planned(o, r, p) && NoDraftLine(p) && o.status.InService?
    ensures CommitSplit(o, p, r.key).status.Completed? <==> Settled(PaidUp(o.items, p.req))
    ensures CommitSplit(o, p, r.key).status.Completed? ==> CommitSplit(o, p, r.key).tableFree
  {
    SettlesMeans(o.items, p.req);
    var after := PaidUp(o.items, p.req);
    forall i | 0 <= i < |o.items|
      ensures !o.items[i].status.Draft? && Unpaid(o.items[i]) <= Want(p.req, o.items[i].id) <==> Done(after[i])
    {
      AskedOfRow(o, r, p, i);
      DoneMeans(o.items[i], Want(p.req, o.items[i].id));
    }
    assert Settled(after) <==> forall i :: 0 <= i < |o.items| ==> Done(after[i]);
  }

  /** A row that was unpaid up to what is asked stays so when it drifts; the guards make it equal where it is paid. */
  lemma DriftDone(seen: Item, now: Item, want: nat)
    requires RowOk(seen) && RowOk(now) && RowDrift(seen, now)
    requires !seen.status.Draft? && Unpaid(seen) <= want
    requires want > 0 ==> Billable(now) && now.paid + want <= now.quantity
    ensures Done(now.(paid := now.paid + want))
  {
  }

  lemma CommitSettles(seen: Order, now: Order, r: PayRequest, p: Plan)
    requires RowsOk(seen.items) && RowsOk(now.items) && Drift(seen, now)
    requires Settles(seen.items, p.req) && Lands(now.items, p.lines) && AsksByLine(p.req, p.lines)
    ensures Settled(PaidUp(now.items, p.req))
  {
    SettlesMeans(seen.items, p.req);
    var after := PaidUp(now.items, p.req);
    forall i | 0 <= i < |after| ensures Done(after[i]) {
      AskedWithin(now.items, p.lines, p.req, i);
      assert CameFrom(seen.items, now.items[i]);
      var j :| 0 <= j < |seen.items| && RowDrift(seen.items[j], now.items[i]);
      DriftDone(seen.items[j], now.items[i], Want(p.req, now.items[i].id));
    }
  }

  /** The whole situation in which a split payment commits. */
  ghost predicate Committing(seen: Order, now: Order, r: PayRequest, p: Plan)
  {
    && RowsOk(seen.items) && Good(now) && Drift(seen, now) && now.status.InService?
    && Planned(seen, r, p) && NoDraftLine(p) && Positive(p) && Guarded(now.items, p)
    && PaymentFor(now.payments, r.key).None?
  }

  /** A split payment that commits under its guards keeps every part of the invariant. */
  lemma CommitGood(seen: Order, now: Order, r: PayRequest, p: Plan)
    requires Committing(seen, now, r, p)
    ensures Good(CommitSplit(now, p, r.key))
  {
    GuardsLand(seen, now, r, p);
    AsksLines(seen, r, p);
    CommitRows(now.items, p.lines, p.req);
    CommitStock(now.items, now.deducted, p.lines, p.req);
    CommitMoney(now.items, now.payments, p, r.key);
    CommitLedger(now.items, now.payments, p, r.key);
    CommitPrices(now.items, now.payments, p.lines, p.req, SplitPayment(p, r.key));
    CommitKeys(now.payments, SplitPayment(p, r.key), r.key);
    ShareConserved(seen, r, p);
    SumAppend(now.payments, SplitPayment(p, r.key), ShareOfPayment);
    if p.final {
      CommitSettles(seen, now, r, p);
    }
  }
}
