/**
 * The other writers of an order: voids, transfers, new rounds, the kitchen, the discount. Most of them check
 * in one read and write in another transaction; what they write lands on the order as it is by then. Here is
 * what each write keeps, exactly when it keeps it, and how far a row can drift under a payment.
 */
module BillWrites {
  import opened Common
  import opened Sums
  import opened Money
  import opened Bill
  import opened BillStore
  import opened BillLaws

  datatype Write =
    | VoidRow(id: nat, readQuantity: nat, readPaid: nat, readStage: Stage, q: nat)
    | MoveOut(id: nat, readQuantity: nat, readPaid: nat, q: nat)
    | Arrive(row: Item)
    | Advance(id: nat, stage: Stage)
    | Add(row: Item)
    | Requantify(id: nat, q: nat)
    | Reprice(id: nat, price: nat)
    | Remove(id: nat)
    | Submit(sends: map<nat, Sending>, first: bool)
    | Discount(amount: nat)

  /** What a write does to the order it lands on. */
  function Land(o: Order, w: Write): Option<Order>
  {
    match w
    case VoidRow(id, rq, rp, rs, q) => VoidWrite(o, id, rq, rp, rs, q)
    case MoveOut(id, rq, rp, q) => MoveOutWrite(o, id, rq, rp, q)
    case Arrive(row) => AddRow(o, row)
    case Advance(id, stage) => AdvanceRow(o, id, stage)
    case Add(row) => AddDraft(o, row)
    case Requantify(id, q) => SetQuantity(o, id, q)
    case Reprice(id, price) => SetPrice(o, id, price)
    case Remove(id) => RemoveRow(o, id)
    case Submit(sends, first) => SubmitRows(o, sends, first)
    case Discount(amount) => Some(o.(discount := amount))
  }

  /** Every id is that of a row not sent yet. */
  predicate AllDraft(items: seq<Item>, ids: set<nat>)
  {
    forall id :: id in ids ==> IndexOf(items, id) < |items| && items[IndexOf(items, id)].status.Draft?
  }

  /** What the caller of a write has checked of the rows, when it checked them. */
  predicate RowsChecked(items: seq<Item>, w: Write)
  {
    match w
    case VoidRow(id, rq, rp, rs, q) =>
      var i := IndexOf(items, id);
      i < |items| && items[i].status == Sent(rs) && items[i].quantity == rq && items[i].paid == rp && rp + q <= rq
    case MoveOut(id, rq, rp, q) =>
      var i := IndexOf(items, id);
      i < |items| && !items[i].status.Cancelled? && items[i].quantity == rq && items[i].paid == rp && rp + q <= rq
    case Requantify(id, _) => AllDraft(items, {id})
    case Reprice(id, _) => AllDraft(items, {id})
    case Remove(id) => AllDraft(items, {id})
    case Submit(sends, _) => AllDraft(items, sends.Keys)
    case _ => true
  }

  /** What it has checked of the order's status. */
  predicate StatusChecked(s: OrderStatus, w: Write)
  {
    match w
    case VoidRow(_, _, _, _, _) => s.InService?
    case MoveOut(_, _, _, _) => s.InService?
    case Submit(_, first) => if first then s.Unsent? else s.InService?
    case Arrive(_) => true
    case Advance(_, _) => true
    case _ => OpenOrder(s)
  }

  /**
   * Writes that wait for a payment holding the order row, and so land before its lock or after its end: all
   * that update the order, or insert something that refers to it, and are not guarded by what they read.
   */
  predicate NeedsOrderRow(w: Write) { !w.VoidRow? && !w.MoveOut? && !w.Advance? }

  predicate TouchesRow(w: Write, it: Item)
  {
    match w
    case VoidRow(id, _, _, _, _) => it.id == id
    case MoveOut(id, _, _, _) => it.id == id
    case Advance(id, _) => it.id == id
    case Requantify(id, _) => it.id == id
    case Reprice(id, _) => it.id == id
    case Remove(id) => it.id == id
    case Submit(sends, _) => it.id in sends
    case _ => false
  }

  // ---------------------------------------------------------------- when a write does no harm

  /** A row that may be set to this quantity: not voided, not below what is paid, and unchanged once completed. */
  predicate QuantityFits(it: Item, q: nat, completed: bool)
  {
    !it.status.Cancelled? && it.paid <= q && (completed ==> q == it.quantity)
  }

  /** Sending this row again changes nothing that has been paid, and brings back nothing that was voided. */
  predicate SendingFits(it: Item, s: Sending)
  {
    !it.status.Cancelled?
    && (it.paid > 0 && s.tariff.Some? ==> s.tariff.value.price == it.price && s.tariff.value.rate == it.rate)
  }

  /** The exact condition, on the order a write lands on, under which it does no harm. */
  ghost predicate Harmless(o: Order, w: Write)
  {
    match w
    case Add(_) => !o.status.Completed?
    case Requantify(id, q) =>
      var i := IndexOf(o.items, id);
      i < |o.items| ==> QuantityFits(o.items[i], q, o.status.Completed?)
    case Reprice(id, price) =>
      var i := IndexOf(o.items, id);
      i < |o.items| && o.items[i].paid > 0 ==> price == o.items[i].price
    case Submit(sends, first) =>
      !(first && o.status.Completed?)
      && forall i :: 0 <= i < |o.items| && o.items[i].id in sends ==> SendingFits(o.items[i], sends[o.items[i].id])
    case Discount(amount) =>
      if o.status.Completed? then amount == o.discount else SharesTaken(o.payments) <= amount
    case _ => true
  }

  /** Everything its caller had checked still holds where the write lands, and no used discount is taken back. */
  ghost predicate Timely(o: Order, w: Write)
  {
    RowsChecked(o.items, w) && StatusChecked(o.status, w) && (w.Discount? ==> SharesTaken(o.payments) <= w.amount)
  }

  /** A write does no harm while what its caller had checked still holds. */
  lemma TimelyIsHarmless(o: Order, w: Write)
    requires RowsOk(o.items) && Timely(o, w)
    ensures Harmless(o, w)
  {
    match w
    case Submit(sends, _) =>
      forall i | 0 <= i < |o.items| && o.items[i].id in sends ensures SendingFits(o.items[i], sends[o.items[i].id]) {
        FindAt(o.items, i);
        assert RowOk(o.items[i]);
      }
    case Requantify(id, _) => assert IndexOf(o.items, id) < |o.items| ==> RowOk(o.items[IndexOf(o.items, id)]);
    case Reprice(id, _) => assert IndexOf(o.items, id) < |o.items| ==> RowOk(o.items[IndexOf(o.items, id)]);
    case _ =>
  }

  // ---------------------------------------------------------------- payments and the rows they refer to

  lemma {:induction false} SumPositive<T>(xs: seq<T>, f: T -> nat) returns (i: nat)
    requires Sum(xs, f) > 0
    ensures i < |xs| && f(xs[i]) > 0
  {
    var n := |xs| - 1;
    if f(xs[n]) > 0 {
      i := n;
    } else {
      i := SumPositive(xs[..n], f);
    }
  }

  /** A row is referred to by a payment item exactly when something of it has been paid. */
  lemma ReferencedIsPaid(o: Order, id: nat)
    requires LedgerOk(o.items, o.payments) && MoneyOk(o.items, o.payments)
    ensures Referenced(o.payments, id) <==> LedgerQuantity(o.payments, id) > 0
    ensures forall i :: 0 <= i < |o.items| && o.items[i].id == id ==>
              (o.items[i].paid > 0 <==> Referenced(o.payments, id))
  {
    if Referenced(o.payments, id) {
      var p, k :| 0 <= p < |o.payments| && 0 <= k < |o.payments[p].rows| && o.payments[p].rows[k].itemId == id;
      assert PaymentOk(o.payments[p]);
      SumTerm(o.payments[p].rows, k, RowOf(id));
      SumTerm(o.payments, p, OfPayment(id));
    }
    if LedgerQuantity(o.payments, id) > 0 {
      var p := SumPositive(o.payments, OfPayment(id));
      var k := SumPositive(o.payments[p].rows, RowOf(id));
      assert o.payments[p].rows[k].itemId == id;
    }
  }

  /** How one write changes one row: the paid quantity never moves, and a paid row only loses unpaid quantity. */
  predicate RowStep(was: Item, now: Item)
  {
    now.id == was.id && now.paid == was.paid
    && (was.paid > 0 ==> now.price == was.price && now.rate == was.rate && now.menuItem == was.menuItem)
  }

  ghost predicate Rowwise(was: seq<Item>, now: seq<Item>)
  {
    |now| == |was| && forall i :: 0 <= i < |was| ==> RowStep(was[i], now[i])
  }

  ghost predicate Dropped(was: seq<Item>, now: seq<Item>, i: nat)
  {
    i < |was| && was[i].paid == 0 && now == Without(was, i)
  }

  ghost predicate Grown(was: seq<Item>, now: seq<Item>)
  {
    |now| == |was| + 1 && now == was + [now[|was|]] && now[|was|].paid == 0 && !HasId(was, now[|was|].id)
  }

  ghost predicate RowsStep(was: seq<Item>, now: seq<Item>)
  {
    Rowwise(was, now) || (exists i :: Dropped(was, now, i)) || Grown(was, now)
  }

  lemma NoIndex(items: seq<Item>, id: nat)
    ensures IndexOf(items, id) == |items| <==> !HasId(items, id)
  {
  }

  lemma RowwiseAt(items: seq<Item>, i: nat, x: Item)
    requires i < |items| && RowStep(items[i], x)
    ensures Rowwise(items, items[i := x])
  {
  }

  lemma SendStep(it: Item, sends: map<nat, Sending>)
    requires it.id in sends ==> SendingFits(it, sends[it.id])
    ensures RowStep(it, SendRow(it, sends))
  {
  }

  lemma SendShape(items: seq<Item>, sends: map<nat, Sending>)
    requires forall i :: 0 <= i < |items| && items[i].id in sends ==> SendingFits(items[i], sends[items[i].id])
    ensures Rowwise(items, SendRows(items, sends))
  {
    forall i | 0 <= i < |items| ensures RowStep(items[i], SendRow(items[i], sends)) { SendStep(items[i], sends); }
  }

  lemma MoveOutShape(o: Order, id: nat, readQuantity: nat, readPaid: nat, q: nat)
    requires MoveOutWrite(o, id, readQuantity, readPaid, q).Some?
    ensures RowsStep(o.items, MoveOutWrite(o, id, readQuantity, readPaid, q).value.items)
  {
    var i, now := IndexOf(o.items, id), MoveOutWrite(o, id, readQuantity, readPaid, q).value.items;
    if |now| < |o.items| {
      assert Dropped(o.items, now, i);
    } else {
      RowwiseAt(o.items, i, now[i]);
    }
  }

  lemma RemoveShape(o: Order, id: nat)
    requires RemoveRow(o, id).Some? && LedgerOk(o.items, o.payments) && MoneyOk(o.items, o.payments)
    ensures RowsStep(o.items, RemoveRow(o, id).value.items)
  {
    ReferencedIsPaid(o, id);
    assert Dropped(o.items, RemoveRow(o, id).value.items, IndexOf(o.items, id));
  }

  /** Writes that change one row where it is. */
  lemma OneRowShape(o: Order, w: Write)
    requires Land(o, w).Some? && Harmless(o, w) && (w.VoidRow? || w.Advance? || w.Requantify? || w.Reprice?)
    ensures RowsStep(o.items, Land(o, w).value.items)
  {
    var i := IndexOf(o.items, w.id);
    RowwiseAt(o.items, i, Land(o, w).value.items[i]);
  }

  /** Every harmless write is one of the three row steps. */
  lemma WriteRowsStep(o: Order, w: Write)
    requires LedgerOk(o.items, o.payments) && MoneyOk(o.items, o.payments)
    requires Land(o, w).Some? && Harmless(o, w) && !w.Discount?
    ensures RowsStep(o.items, Land(o, w).value.items)
  {
    match w
    case Arrive(row) => GrowShape(o.items, row);
    case Add(row) => GrowShape(o.items, row);
    case Remove(id) => RemoveShape(o, id);
    case Submit(sends, _) => SendShape(o.items, sends);
    case MoveOut(id, rq, rp, q) => MoveOutShape(o, id, rq, rp, q);
    case _ => OneRowShape(o, w);
  }

  lemma GrowShape(items: seq<Item>, row: Item)
    requires row.paid == 0 && IndexOf(items, row.id) == |items|
    ensures RowsStep(items, items + [row])
  {
    NoIndex(items, row.id);
    assert Grown(items, items + [row]);
  }

  /** And it leaves the rest of the order alone, but for the discount it may set. */
  lemma WriteShape(o: Order, w: Write)
    requires Good(o) && Land(o, w).Some? && Harmless(o, w)
    ensures var n := Land(o, w).value;
            RowsStep(o.items, n.items) && n.payments == o.payments && n.deducted == o.deducted
            && (!w.Discount? ==> n.discount == o.discount)
  {
    if w.Discount? {
      assert Rowwise(o.items, o.items);
    } else {
      WriteRowsStep(o, w);
    }
  }

  lemma RowsUpdate(items: seq<Item>, i: nat, x: Item)
    requires RowsOk(items) && i < |items| && x.id == items[i].id && RowOk(x)
    ensures RowsOk(items[i := x])
  {
  }

  lemma RowsWithout(items: seq<Item>, i: nat)
    requires RowsOk(items) && i < |items|
    ensures RowsOk(Without(items, i))
  {
    forall a, b | 0 <= a < b < |items| - 1 ensures Without(items, i)[a].id != Without(items, i)[b].id {
      assert items[if a < i then a else a + 1].id != items[if b < i then b else b + 1].id;
    }
  }

  lemma RowsAppend(items: seq<Item>, x: Item)
    requires RowsOk(items) && RowOk(x) && !HasId(items, x.id)
    ensures RowsOk(items + [x])
  {
  }

  lemma RowsSent(items: seq<Item>, sends: map<nat, Sending>)
    requires RowsOk(items)
    requires forall i :: 0 <= i < |items| && items[i].id in sends ==> SendingFits(items[i], sends[items[i].id])
    ensures RowsOk(SendRows(items, sends))
  {
    forall i | 0 <= i < |items| ensures RowOk(SendRow(items[i], sends)) { assert RowOk(items[i]); }
  }

  lemma RowSet(items: seq<Item>, i: nat, now: seq<Item>)
    requires RowsOk(items) && i < |items| && |now| == |items| && now == items[i := now[i]]
    requires now[i].id == items[i].id && RowOk(now[i])
    ensures RowsOk(now)
  {
    RowsUpdate(items, i, now[i]);
  }

  /** A harmless write leaves well-formed rows with unique ids. */
  lemma WriteRows(o: Order, w: Write)
    requires RowsOk(o.items) && Land(o, w).Some? && Harmless(o, w)
    ensures RowsOk(Land(o, w).value.items)
  {
    var n := Land(o, w).value;
    match w
    case Arrive(row) =>
      NoIndex(o.items, row.id);
      RowsAppend(o.items, row);
    case Add(row) =>
      NoIndex(o.items, row.id);
      RowsAppend(o.items, row);
    case Remove(id) => RowsWithout(o.items, IndexOf(o.items, id));
    case Submit(sends, _) => RowsSent(o.items, sends);
    case MoveOut(id, _, _, _) =>
      var i := IndexOf(o.items, id);
      assert RowOk(o.items[i]);
      if |n.items| < |o.items| {
        RowsWithout(o.items, i);
      } else {
        RowSet(o.items, i, n.items);
      }
    case Discount(_) =>
    case _ =>
      var i := IndexOf(o.items, w.id);
      assert RowOk(o.items[i]);
      RowSet(o.items, i, n.items);
  }

  /** A row step leaves every paid total where it was. */
  lemma StepWeighs(was: seq<Item>, now: seq<Item>, k: Weight)
    requires RowsStep(was, now)
    ensures Sum(now, PaidPart(k)) == Sum(was, PaidPart(k))
  {
    if Rowwise(was, now) {
      SumSame(was, now, PaidPart(k), PaidPart(k));
    } else if Grown(was, now) {
      SumAppend(was, now[|was|], PaidPart(k));
    } else {
      var i :| Dropped(was, now, i);
      SumWithout(was, i, PaidPart(k));
    }
  }

  /** Rows with anything paid survive a row step, with the same paid quantity. */
  lemma PaidRowStays(was: seq<Item>, now: seq<Item>, i: nat) returns (j: nat)
    requires RowsStep(was, now) && i < |was| && was[i].paid > 0
    ensures j < |now| && now[j].id == was[i].id
  {
    if Rowwise(was, now) {
      j := i;
      assert RowStep(was[i], now[i]);
    } else if Grown(was, now) {
      j := i;
    } else {
      var g :| Dropped(was, now, g);
      j := if i < g then i else i - 1;
    }
  }

  lemma RowCameFrom(was: seq<Item>, now: seq<Item>, j: nat)
    requires RowsStep(was, now) && j < |now|
    ensures (exists i :: 0 <= i < |was| && was[i].id == now[j].id && was[i].paid == now[j].paid)
            || (now[j].paid == 0 && !HasId(was, now[j].id))
  {
    if Rowwise(was, now) {
      assert RowStep(was[j], now[j]);
    } else if !Grown(was, now) {
      var g :| Dropped(was, now, g);
      assert now[j] == was[if j < g then j else j + 1];
    }
  }

  lemma StepLedger(was: seq<Item>, now: seq<Item>, payments: seq<Payment>)
    requires RowsStep(was, now) && LedgerOk(was, payments)
    ensures LedgerOk(now, payments)
  {
    forall id {:trigger LedgerQuantity(payments, id)} | LedgerQuantity(payments, id) > 0 ensures HasId(now, id) {
      var i :| 0 <= i < |was| && was[i].id == id;
      var j := PaidRowStays(was, now, i);
    }
    forall j | 0 <= j < |now| ensures LedgerQuantity(payments, now[j].id) == now[j].paid {
      RowCameFrom(was, now, j);
    }
  }

  /** Rows a payment refers to keep their prices under a row step. */
  lemma StepPrices(o: Order, now: seq<Item>)
    requires RowsStep(o.items, now) && DistinctIds(o.items) && PricesOk(o.items, o.payments)
    requires LedgerOk(o.items, o.payments) && MoneyOk(o.items, o.payments)
    ensures PricesOk(now, o.payments)
  {
    forall j, p, k | 0 <= j < |now| && 0 <= p < |o.payments| && 0 <= k < |o.payments[p].rows|
      ensures o.payments[p].rows[k].itemId == now[j].id ==> Frozen(o.payments[p].rows[k], now[j])
    {
      if o.payments[p].rows[k].itemId == now[j].id {
        ReferencedIsPaid(o, now[j].id);
        assert Referenced(o.payments, now[j].id);
        var i := PaidFrom(o.items, now, j, o.payments);
        assert Frozen(o.payments[p].rows[k], o.items[i]);
      }
    }
  }

  /** A row the ledger knows is a row of before, with the same price. */
  lemma PaidFrom(was: seq<Item>, now: seq<Item>, j: nat, payments: seq<Payment>) returns (i: nat)
    requires RowsStep(was, now) && j < |now| && LedgerOk(was, payments) && LedgerQuantity(payments, now[j].id) > 0
    ensures i < |was| && was[i].id == now[j].id && was[i].price == now[j].price && was[i].rate == now[j].rate
            && was[i].menuItem == now[j].menuItem
  {
    assert HasId(was, now[j].id);
    if Rowwise(was, now) {
      i := j;
      assert RowStep(was[j], now[j]);
    } else if Grown(was, now) {
      i := j;
    } else {
      var g :| Dropped(was, now, g);
      i := if j < g then j else j + 1;
      assert now[j] == was[i];
    }
  }

  /** On a settled order no guarded lowering of a quantity can land, whatever it had read. */
  lemma NothingToLower(o: Order, id: nat, readQuantity: nat, readPaid: nat, readStage: Stage, q: nat)
    requires RowsOk(o.items) && Settled(o.items)
    ensures VoidWrite(o, id, readQuantity, readPaid, readStage, q).None?
    ensures MoveOutWrite(o, id, readQuantity, readPaid, q).None?
  {
    var i := IndexOf(o.items, id);
    if i < |o.items| {
      assert Done(o.items[i]) && RowOk(o.items[i]);
    }
  }

  lemma StepStock(was: seq<Item>, now: seq<Item>, deducted: multiset<nat>)
    requires RowsStep(was, now) && StockOk(was, deducted)
    ensures StockOk(now, deducted)
  {
    forall m: nat {:trigger ByMenu(m)} ensures deducted[m] == Sum(now, PaidPart(ByMenu(m))) {
      StepWeighs(was, now, ByMenu(m));
    }
  }

  lemma WriteBooks(o: Order, n: Order)
    requires LedgerOk(o.items, o.payments) && StockOk(o.items, o.deducted) && MoneyOk(o.items, o.payments)
    requires DistinctIds(o.items) && PricesOk(o.items, o.payments)
    requires RowsStep(o.items, n.items) && n.payments == o.payments && n.deducted == o.deducted
    ensures LedgerOk(n.items, n.payments) && StockOk(n.items, n.deducted) && MoneyOk(n.items, n.payments)
    ensures PricesOk(n.items, n.payments)
  {
    StepLedger(o.items, n.items, o.payments);
    StepWeighs(o.items, n.items, ByPrice);
    StepWeighs(o.items, n.items, ByTax);
    StepStock(o.items, n.items, o.deducted);
    StepPrices(o, n.items);
  }

  // ---------------------------------------------------------------- completed orders

  lemma SentStaysDone(o: Order, sends: map<nat, Sending>)
    requires RowsOk(o.items) && Settled(o.items)
    requires forall i :: 0 <= i < |o.items| && o.items[i].id in sends ==> SendingFits(o.items[i], sends[o.items[i].id])
    ensures Settled(SendRows(o.items, sends))
  {
    forall i | 0 <= i < |o.items| ensures Done(SendRow(o.items[i], sends)) { assert Done(o.items[i]); }
  }

  /**
   * A completed order that a harmless write lands on stays settled and completed, with the same discount.
   * Guarded voids and transfers cannot land at all, whatever they had read and whenever.
   */
  lemma CompletedStays(o: Order, w: Write)
    requires RowsOk(o.items) && Settled(o.items) && o.status.Completed? && Land(o, w).Some? && Harmless(o, w)
    ensures Settled(Land(o, w).value.items) && Land(o, w).value.status.Completed?
            && Land(o, w).value.discount == o.discount
    ensures !w.VoidRow? && !w.MoveOut? && !w.Arrive? && !w.Add?
  {
    var n := Land(o, w).value;
    match w
    case VoidRow(id, rq, rp, rs, q) => NothingToLower(o, id, rq, rp, rs, q);
    case MoveOut(id, rq, rp, q) => NothingToLower(o, id, rq, rp, Submitted, q);
    case Submit(sends, _) => SentStaysDone(o, sends);
    case Discount(_) =>
    case Arrive(_) =>
    case Add(_) =>
    case Remove(id) =>
      forall i | 0 <= i < |n.items| ensures Done(n.items[i]) { WithoutDone(o.items, IndexOf(o.items, id), i); }
    case _ =>
      var i := IndexOf(o.items, w.id);
      forall j | 0 <= j < |n.items| ensures Done(n.items[j]) { assert Done(o.items[j]) && RowOk(o.items[j]); }
  }

  lemma WithoutDone(items: seq<Item>, g: nat, i: nat)
    requires Settled(items) && g < |items| && i < |items| - 1
    ensures Done(Without(items, g)[i])
  {
    assert Without(items, g)[i] == items[if i < g then i else i + 1];
    assert Done(items[if i < g then i else i + 1]);
  }

  /** What may be asked of a write: the books hold, and what was completed stays completed. */
  ghost predicate Kept(o: Order, n: Order) { Good(n) && (o.status.Completed? ==> n.status.Completed?) }

  /** Only a payment completes an order. */
  lemma WriteNeverCompletes(o: Order, w: Write)
    requires Land(o, w).Some? && Land(o, w).value.status.Completed?
    ensures o.status.Completed?
  {
  }

  /** No write touches the payments, and just a late first submission takes a completed order back. */
  lemma LandLeaves(o: Order, w: Write)
    requires Land(o, w).Some?
    ensures Land(o, w).value.payments == o.payments
    ensures o.status.Completed? ==> (Land(o, w).value.status.Completed? <==> !(w.Submit? && w.first))
  {
  }

  lemma HarmlessKeeps(o: Order, w: Write)
    requires Good(o) && Land(o, w).Some? && Harmless(o, w)
    ensures Kept(o, Land(o, w).value)
  {
    var n := Land(o, w).value;
    WriteShape(o, w);
    WriteRows(o, w);
    WriteBooks(o, n);
    if o.status.Completed? {
      CompletedStays(o, w);
    } else if n.status.Completed? {
      WriteNeverCompletes(o, w);
    }
  }

  // ---------------------------------------------------------------- and every other write does harm

  /** A paid row whose price or rate is changed no longer agrees with the ledger. */
  lemma RepricedBreaks(o: Order, i: nat, now: seq<Item>)
    requires Good(o) && i < |o.items| && o.items[i].paid > 0 && |now| == |o.items|
    requires now[i].id == o.items[i].id && (now[i].price != o.items[i].price || now[i].rate != o.items[i].rate)
    ensures !PricesOk(now, o.payments)
  {
    var id := o.items[i].id;
    ReferencedIsPaid(o, id);
    var p, k :| 0 <= p < |o.payments| && 0 <= k < |o.payments[p].rows| && o.payments[p].rows[k].itemId == id;
    assert Frozen(o.payments[p].rows[k], o.items[i]);
    assert !Frozen(o.payments[p].rows[k], now[i]);
  }

  lemma LateSubmitBreaks(o: Order, sends: map<nat, Sending>, first: bool)
    requires Good(o) && SubmitRows(o, sends, first).Some? && !Harmless(o, Submit(sends, first))
    ensures !Kept(o, SubmitRows(o, sends, first).value)
  {
    var n := SubmitRows(o, sends, first).value;
    if !(first && o.status.Completed?) {
      var i :| 0 <= i < |o.items| && o.items[i].id in sends && !SendingFits(o.items[i], sends[o.items[i].id]);
      assert RowOk(o.items[i]);
      if o.items[i].status.Cancelled? {
        assert !RowOk(n.items[i]);
      } else {
        RepricedBreaks(o, i, n.items);
      }
    }
  }

  lemma LateQuantityBreaks(o: Order, id: nat, q: nat)
    requires Good(o) && SetQuantity(o, id, q).Some? && !Harmless(o, Requantify(id, q))
    ensures !Kept(o, SetQuantity(o, id, q).value)
  {
    var n, i := SetQuantity(o, id, q).value, IndexOf(o.items, id);
    assert RowOk(o.items[i]);
    assert n.items[i] == o.items[i].(quantity := q);
    assert o.status.Completed? ==> Done(o.items[i]);
    assert RowOk(n.items[i]) && o.status.Completed? ==> !Done(n.items[i]);
  }

  lemma HarmfulBreaks(o: Order, w: Write)
    requires Good(o) && Land(o, w).Some? && !Harmless(o, w)
    ensures !Kept(o, Land(o, w).value)
  {
    var n := Land(o, w).value;
    match w
    case Add(row) => assert !Done(n.items[|o.items|]);
    case Requantify(id, q) => LateQuantityBreaks(o, id, q);
    case Reprice(id, _) => RepricedBreaks(o, IndexOf(o.items, id), n.items);
    case Submit(sends, first) => LateSubmitBreaks(o, sends, first);
    case Discount(_) =>
  }

  /**
   * Exactly when a write, checked whenever and landing on a good order as it is by then, keeps the books and
   * leaves a completed order completed.
   */
  lemma WriteKeptExactly(o: Order, w: Write)
    requires Good(o) && Land(o, w).Some?
    ensures Kept(o, Land(o, w).value) <==> Harmless(o, w)
  {
    if Harmless(o, w) {
      HarmlessKeeps(o, w);
    } else {
      HarmfulBreaks(o, w);
    }
  }

  // ---------------------------------------------------------------- drift under a payment

  /** One write moves every row no further than the guards of a payment in progress allow for. */
  lemma WriteDrift(seen: Order, now: Order, w: Write)
    requires RowsOk(seen.items) && RowsOk(now.items) && Drift(seen, now)
    requires Land(now, w).Some? && !NeedsOrderRow(w)
    ensures Drift(seen, Land(now, w).value)
  {
    var n := Land(now, w).value;
    forall i | 0 <= i < |n.items| ensures CameFrom(seen.items, n.items[i]) {
      var k := Origin(now, w, i);
      assert CameFrom(seen.items, now.items[k]);
      var j :| 0 <= j < |seen.items| && RowDrift(seen.items[j], now.items[k]);
      assert RowOk(now.items[k]) && RowOk(seen.items[j]);
      DriftOn(seen.items[j], now.items[k], n.items[i]);
    }
  }

  /** What one write may do to one row. */
  predicate OneRow(was: Item, now: Item)
  {
    || now == was
    || (now.id == was.id && now.paid == was.paid && was.status.Draft?)
    || (now.id == was.id && now.paid == was.paid && now.price == was.price && now.rate == was.rate
        && now.menuItem == was.menuItem && now.quantity <= was.quantity && !now.status.Draft? && !was.status.Cancelled?)
  }

  lemma DriftOn(seen: Item, was: Item, now: Item)
    requires RowDrift(seen, was) && OneRow(was, now)
    ensures RowDrift(seen, now)
  {
  }

  /** Where an element of a sequence without its g-th came from. */
  lemma WithoutAt(items: seq<Item>, g: nat, i: nat) returns (k: nat)
    requires g < |items| && i < |items| - 1
    ensures k < |items| && Without(items, g)[i] == items[k]
  {
    k := if i < g then i else i + 1;
  }

  lemma LoweredOrigin(o: Order, w: Write, i: nat) returns (k: nat)
    requires RowsOk(o.items) && Land(o, w).Some? && w.MoveOut? && i < |Land(o, w).value.items|
    ensures k < |o.items| && OneRow(o.items[k], Land(o, w).value.items[i])
    ensures !TouchesRow(w, o.items[k]) ==> Land(o, w).value.items[i] == o.items[k]
  {
    var n, g := Land(o, w).value, IndexOf(o.items, w.id);
    if |n.items| < |o.items| {
      assert n.items == Without(o.items, g);
      k := WithoutAt(o.items, g, i);
    } else {
      k := i;
    }
  }

  lemma Origin(o: Order, w: Write, i: nat) returns (k: nat)
    requires RowsOk(o.items) && Land(o, w).Some? && !NeedsOrderRow(w) && i < |Land(o, w).value.items|
    ensures k < |o.items| && OneRow(o.items[k], Land(o, w).value.items[i])
    ensures !TouchesRow(w, o.items[k]) ==> Land(o, w).value.items[i] == o.items[k]
  {
    if w.MoveOut? {
      k := LoweredOrigin(o, w, i);
    } else {
      k := i;
    }
  }

  // ---------------------------------------------------------------- which writes land, and what they do

  /** What the writer itself brings is in order: something to take or give, and no id that is there already. */
  ghost predicate InOrder(o: Order, w: Write)
  {
    match w
    case VoidRow(_, _, _, _, q) => 0 < q
    case MoveOut(_, _, _, q) => 0 < q
    case Arrive(row) =>
      OpenOrder(o.status) && row.paid == 0 && 0 < row.quantity && !row.status.Cancelled? && !HasId(o.items, row.id)
    case Advance(id, _) => exists i :: 0 <= i < |o.items| && o.items[i].id == id && o.items[i].status.Sent?
    case Add(row) => row.status.Draft? && row.paid == 0 && 0 < row.quantity && !HasId(o.items, row.id)
    case Requantify(_, q) => 0 < q
    case Submit(sends, _) => sends != map[]
    case _ => true
  }

  lemma DraftNotReferenced(o: Order, id: nat)
    requires Good(o) && AllDraft(o.items, {id})
    ensures !Referenced(o.payments, id)
  {
    assert id in {id};
    ReferencedIsPaid(o, id);
    assert RowOk(o.items[IndexOf(o.items, id)]);
  }

  lemma DraftsNotEntered(items: seq<Item>, sends: map<nat, Sending>)
    requires DistinctIds(items) && AllDraft(items, sends.Keys)
    ensures !EnteredTwice(items, sends)
  {
    forall i | 0 <= i < |items| && items[i].id in sends ensures items[i].status.Draft? { FindAt(items, i); }
  }

  /** A write whose check still holds always lands. */
  lemma TimelyLands(o: Order, w: Write)
    requires Good(o) && RowsChecked(o.items, w) && StatusChecked(o.status, w) && InOrder(o, w)
    ensures Land(o, w).Some?
  {
    match w
    case Arrive(row) => NoIndex(o.items, row.id);
    case Add(row) => NoIndex(o.items, row.id);
    case Advance(id, _) =>
      var i :| 0 <= i < |o.items| && o.items[i].id == id && o.items[i].status.Sent?;
      FindAt(o.items, i);
    case Requantify(id, _) => assert id in {id};
    case Reprice(id, _) => assert id in {id};
    case Remove(id) =>
      assert id in {id};
      DraftNotReferenced(o, id);
    case Submit(sends, _) => DraftsNotEntered(o.items, sends);
    case _ =>
  }

  /** What is left of a row by a write, if anything: told by the write alone. */
  function RowLeft(it: Item, w: Write): Option<Item>
  {
    match w
    case VoidRow(id, _, _, stage, q) =>
      if it.id != id then Some(it)
      else if it.quantity <= q then Some(Item(id, it.menuItem, it.price, it.rate, 0, it.paid, Cancelled))
      else Some(Item(id, it.menuItem, it.price, it.rate, it.quantity - q, it.paid, Sent(stage)))
    case MoveOut(id, _, _, q) =>
      if it.id != id then Some(it)
      else if it.quantity <= q then None
      else Some(Item(id, it.menuItem, it.price, it.rate, it.quantity - q, it.paid, it.status))
    case Advance(id, stage) => Some(if it.id == id then it.(status := Sent(stage)) else it)
    case Requantify(id, q) => Some(if it.id == id then it.(quantity := q) else it)
    case Reprice(id, price) => Some(if it.id == id then it.(price := price) else it)
    case Remove(id) => if it.id == id then None else Some(it)
    case Submit(sends, _) =>
      if it.id !in sends then Some(it)
      else
        var s := sends[it.id];
        var t := if s.tariff.Some? then s.tariff.value else Tariff(it.price, it.rate);
        Some(Item(it.id, it.menuItem, t.price, t.rate, it.quantity, it.paid,
          Sent(if s.station then Submitted else Served)))
    case _ => Some(it)
  }

  /** The row a write brings. */
  function RowsBrought(w: Write): seq<Item>
  {
    match w
    case Arrive(row) => [row]
    case Add(row) => [row]
    case _ => []
  }

  function RowsLeft(items: seq<Item>, w: Write): seq<Item>
  {
    if items == [] then []
    else RowsLeft(items[..|items| - 1], w) + match RowLeft(items[|items| - 1], w) case None => [] case Some(x) => [x]
  }

  lemma {:induction false} AllLeft(items: seq<Item>, now: seq<Item>, w: Write)
    requires |now| == |items| && forall i :: 0 <= i < |items| ==> RowLeft(items[i], w) == Some(now[i])
    ensures RowsLeft(items, w) == now
  {
    if items != [] {
      AllLeft(items[..|items| - 1], now[..|now| - 1], w);
    }
  }

  lemma {:induction false} OneGone(items: seq<Item>, i: nat, w: Write)
    requires i < |items| && RowLeft(items[i], w).None?
    requires forall j :: 0 <= j < |items| && j != i ==> RowLeft(items[j], w) == Some(items[j])
    ensures RowsLeft(items, w) == Without(items, i)
  {
    var n := |items| - 1;
    if i == n {
      AllLeft(items[..n], items[..n], w);
      assert Without(items, i) == items[..n];
    } else {
      OneGone(items[..n], i, w);
      assert Without(items, i) == Without(items[..n], i) + [items[n]];
    }
  }

  lemma OneRowLands(o: Order, w: Write)
    requires RowsOk(o.items) && Land(o, w).Some? && (w.VoidRow? || w.Advance? || w.Requantify? || w.Reprice?)
    ensures Land(o, w).value.items == RowsLeft(o.items, w)
  {
    OneChanges(o.items, Land(o, w).value.items, w, w.id);
  }

  lemma MoveOutLands(o: Order, id: nat, readQuantity: nat, readPaid: nat, q: nat)
    requires RowsOk(o.items) && MoveOutWrite(o, id, readQuantity, readPaid, q).Some?
    ensures MoveOutWrite(o, id, readQuantity, readPaid, q).value.items
            == RowsLeft(o.items, MoveOut(id, readQuantity, readPaid, q))
  {
    var w := MoveOut(id, readQuantity, readPaid, q);
    var now := MoveOutWrite(o, id, readQuantity, readPaid, q).value.items;
    assert RowOk(o.items[IndexOf(o.items, id)]);
    if |now| < |o.items| {
      OneGoes(o.items, w, id);
    } else {
      OneChanges(o.items, now, w, id);
    }
  }

  lemma SubmitLands(o: Order, sends: map<nat, Sending>, first: bool)
    requires SubmitRows(o, sends, first).Some?
    ensures SubmitRows(o, sends, first).value.items == RowsLeft(o.items, Submit(sends, first))
  {
    AllLeft(o.items, SendRows(o.items, sends), Submit(sends, first));
  }

  /** A write that lands does to the rows just what it says, row by row, and brings just what it brings. */
  lemma LandsDoJustThat(o: Order, w: Write)
    requires RowsOk(o.items) && Land(o, w).Some?
    ensures Land(o, w).value.items == RowsLeft(o.items, w) + RowsBrought(w)
  {
    match w
    case Remove(id) => OneGoes(o.items, w, id);
    case MoveOut(id, rq, rp, q) => MoveOutLands(o, id, rq, rp, q);
    case Submit(sends, first) => SubmitLands(o, sends, first);
    case Arrive(_) => AllLeft(o.items, o.items, w);
    case Add(_) => AllLeft(o.items, o.items, w);
    case Discount(_) => AllLeft(o.items, o.items, w);
    case _ => OneRowLands(o, w);
  }

  lemma OneGoes(items: seq<Item>, w: Write, id: nat)
    requires DistinctIds(items) && IndexOf(items, id) < |items| && RowLeft(items[IndexOf(items, id)], w).None?
    requires forall j :: 0 <= j < |items| && items[j].id != id ==> RowLeft(items[j], w) == Some(items[j])
    ensures RowsLeft(items, w) == Without(items, IndexOf(items, id))
  {
    OneGone(items, IndexOf(items, id), w);
  }

  lemma OneChanges(items: seq<Item>, now: seq<Item>, w: Write, id: nat)
    requires DistinctIds(items) && |now| == |items| && IndexOf(items, id) < |items|
    requires var i := IndexOf(items, id); now == items[i := now[i]] && RowLeft(items[i], w) == Some(now[i])
    requires forall j :: 0 <= j < |items| && items[j].id != id ==> RowLeft(items[j], w) == Some(items[j])
    ensures RowsLeft(items, w) == now
  {
    var i := IndexOf(items, id);
    forall j | 0 <= j < |items| && j != i ensures items[j].id != id {
      assert items[i].id == id;
    }
    AllLeft(items, now, w);
  }
}
