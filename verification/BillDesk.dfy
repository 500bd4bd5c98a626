/**
 * The settlement of one order by many callers at once. A call is cut at the points where another can
 * come in between: the check before the transaction, the order lock with its re-check and locked read,
 * each row guard, the commit. The other writers are cut as well: one step sees the order's status, a
 * later one the rows, and the write lands later still, on the order as it is by then, as far as the order
 * lock and the row locks let it.
 */
module BillDesk {
  import opened Common
  import opened Sums
  import opened Money
  import opened Bill
  import opened BillStore
  import opened BillLaws
  import opened BillWrites
  import opened BillSettlement
  import opened BillClosing

  datatype Work = Split(r: PayRequest) | Whole(cash: Option<nat>)

  datatype Caller =
    | Arrived(work: Work)
    | Waiting(work: Work)
    | Active(work: Work, seen: Order, plan: Plan, done: nat)
    | Finished(work: Work, outcome: Outcome)

  /** ready are the writes whose callers have checked what they check, at some earlier moment. */
  datatype Desk = Desk(order: Order, holder: Option<nat>, callers: seq<Caller>,
                       sawUnsent: bool, sawService: bool, ready: set<Write>)

  datatype Step =
    | Call(work: Work)
    | Check(i: nat, shiftOpen: bool)
    | Acquire(i: nat)
    | Guard(i: nat)
    | Commit(i: nat, stockOk: bool)
    | Fail(i: nat)
    | Sight
    | Look(w: Write)
    | Other(w: Write)

  // ---------------------------------------------------------------- the steps

  function Put(d: Desk, i: nat, c: Caller): Desk
    requires i < |d.callers|
  {
    d.(callers := d.callers[i := c])
  }

  function Earlier(o: Order, work: Work): Option<Payment>
  {
    match work
    case Split(r) => PaymentFor(o.payments, r.key)
    case Whole(_) => None
  }

  function CheckWork(o: Order, work: Work, shiftOpen: bool): Option<BillError>
  {
    match work
    case Split(r) => Precheck(o, r, shiftOpen)
    case Whole(_) =>
      if StatusError(o.status).Some? then StatusError(o.status) else if !shiftOpen then Some(NoShift) else None
  }

  /** The whole-bill payment as a plan over the rows of the locked read. */
  function WholePlan(o: Order, cash: Option<nat>): Result<Plan, BillError>
  {
    if StatusError(o.status).Some? then Err(StatusError(o.status).value)
    else
      match WholePayment(o, cash)
      case Err(e) => Err(e)
      case Ok(p) =>
        var lines := WholeLines(o.items);
        var totals := Totals(p.subtotal, p.tax, p.discount, p.amount);
        Ok(Plan(lines, Requested(AskFor(lines), |lines|), totals, p.tendered, p.change, true))
  }

  function PlanWork(o: Order, work: Work): Result<Plan, BillError>
  {
    match work
    case Split(r) => PlanPayment(o, r)
    case Whole(cash) => WholePlan(o, cash)
  }

  function Receipt(work: Work, p: Plan): Payment
  {
    match work
    case Split(r) => SplitPayment(p, r.key)
    case Whole(_) => SplitPayment(p, 0).(key := None, split := false)
  }

  function CommitWork(o: Order, work: Work, p: Plan): Order
  {
    CommitSplit(o, p, 0).(payments := o.payments + [Receipt(work, p)])
  }

  function CheckStep(d: Desk, i: nat, shiftOpen: bool): Option<Desk>
  {
    if i >= |d.callers| || !d.callers[i].Arrived? then None
    else
      var work := d.callers[i].work;
      var earlier := Earlier(d.order, work);
      var error := CheckWork(d.order, work, shiftOpen);
      Some(Put(d, i,
        if earlier.Some? then Finished(work, Paid(earlier.value, d.order.status.Completed?))
        else if error.Some? then Finished(work, Refused(error.value))
        else Waiting(work)))
  }

  function AcquireStep(d: Desk, i: nat): Option<Desk>
  {
    if i >= |d.callers| || !d.callers[i].Waiting? || d.holder.Some? then None
    else
      var work := d.callers[i].work;
      var earlier := Earlier(d.order, work);
      var plan := PlanWork(d.order, work);
      Some(if earlier.Some? then Put(d, i, Finished(work, Paid(earlier.value, d.order.status.Completed?)))
           else if plan.Err? then Put(d, i, Finished(work, Refused(plan.error)))
           else Put(d, i, Active(work, d.order, plan.value, 0)).(holder := Some(i)))
  }

  function GuardStep(d: Desk, i: nat): Option<Desk>
  {
    if i >= |d.callers| || !d.callers[i].Active? || d.callers[i].done >= |d.callers[i].plan.lines| then None
    else
      var c := d.callers[i];
      Some(if Unchanged(d.order.items, c.plan.lines[c.done].item) then Put(d, i, c.(done := c.done + 1))
           else Put(d, i, Finished(c.work, Refused(ItemChanged))).(holder := None))
  }

  function CommitStep(d: Desk, i: nat, stockOk: bool): Option<Desk>
  {
    if i >= |d.callers| || !d.callers[i].Active? || d.callers[i].done != |d.callers[i].plan.lines| then None
    else
      var c := d.callers[i];
      Some(if stockOk then
             d.(order := CommitWork(d.order, c.work, c.plan), holder := None,
                callers := d.callers[i := Finished(c.work, Paid(Receipt(c.work, c.plan), c.plan.final))])
           else Put(d, i, Finished(c.work, Refused(StockRefused))).(holder := None))
  }

  /** The transaction is rolled back for any other reason. */
  function FailStep(d: Desk, i: nat): Option<Desk>
  {
    if i >= |d.callers| || !d.callers[i].Active? then None
    else Some(Put(d, i, Finished(d.callers[i].work, Refused(ItemChanged))).(holder := None))
  }

  /** The rows a payment in progress has guarded, and so locked until it ends. */
  predicate RowLocked(c: Caller, it: Item)
  {
    c.Active? && exists k :: 0 <= k < c.done && k < |c.plan.lines| && c.plan.lines[k].item.id == it.id
  }

  /** Another writer waits for the order row when it needs it, and for every row already guarded. */
  predicate Free(d: Desk, w: Write)
  {
    d.holder.Some? ==>
      !NeedsOrderRow(w)
      && (d.holder.value < |d.callers| ==>
            forall j :: 0 <= j < |d.order.items| ==>
              RowLocked(d.callers[d.holder.value], d.order.items[j]) ==> !TouchesRow(w, d.order.items[j]))
  }

  /** Another writer sees the order's status. */
  function SightStep(d: Desk): Desk
  {
    d.(sawUnsent := d.sawUnsent || d.order.status.Unsent?, sawService := d.sawService || d.order.status.InService?)
  }

  /** The order's status has been seen as the writer needs it, at some earlier moment. */
  predicate Sighted(d: Desk, w: Write)
  {
    w.Arrive? || w.Advance? || (d.sawUnsent && StatusChecked(Unsent, w))
    || (d.sawService && StatusChecked(InService(Submitted), w))
  }

  /** Another writer checks the rows it is about to write. */
  function LookStep(d: Desk, w: Write): Option<Desk>
  {
    if Sighted(d, w) && RowsChecked(d.order.items, w) then Some(d.(ready := d.ready + {w})) else None
  }

  function OtherStep(d: Desk, w: Write): Option<Desk>
  {
    if w !in d.ready || !Free(d, w) then None
    else match Land(d.order, w) case None => None case Some(o) => Some(d.(order := o))
  }

  function Next(d: Desk, s: Step): Option<Desk>
  {
    match s
    case Call(work) => Some(d.(callers := d.callers + [Arrived(work)]))
    case Check(i, shiftOpen) => CheckStep(d, i, shiftOpen)
    case Acquire(i) => AcquireStep(d, i)
    case Guard(i) => GuardStep(d, i)
    case Commit(i, stockOk) => CommitStep(d, i, stockOk)
    case Fail(i) => FailStep(d, i)
    case Sight => Some(SightStep(d))
    case Look(w) => LookStep(d, w)
    case Other(w) => OtherStep(d, w)
  }

  /** The rule the code does not enforce, and the request format: rows are sent and quantities positive. */
  ghost predicate TameStep(d: Desk, s: Step)
  {
    s.Acquire? && s.i < |d.callers| && d.callers[s.i].Waiting? && d.callers[s.i].work.Split? ==>
      Tame(d.order.items, d.callers[s.i].work.r)
  }

  /** Where another write lands, it does no harm. */
  ghost predicate HarmlessStep(d: Desk, s: Step) { s.Other? ==> Harmless(d.order, s.w) }

  ghost predicate Orderly(d: Desk, s: Step) { TameStep(d, s) && HarmlessStep(d, s) }

  // ---------------------------------------------------------------- the invariant

  /** The request a plan answers; a whole-bill payment asks for every billable row of its locked read. */
  function RequestOf(work: Work, p: Plan): PayRequest
  {
    match work
    case Split(r) => r
    case Whole(cash) => PayRequest(0, cash, AskFor(p.lines))
  }

  ghost predicate Working(o: Order, work: Work, seen: Order, p: Plan, done: nat)
  {
    && RowsOk(seen.items) && Drift(seen, o) && o.status.InService?
    && Planned(seen, RequestOf(work, p), p) && NoDraftLine(p) && Positive(p)
    && Earlier(o, work).None? && (work.Whole? ==> seen.payments == []) && GuardedTo(o.items, p, done)
  }

  ghost predicate GuardedTo(items: seq<Item>, p: Plan, done: nat)
  {
    done <= |p.lines| && forall k :: 0 <= k < done ==> Unchanged(items, p.lines[k].item)
  }

  ghost predicate CallerOk(d: Desk, i: nat)
    requires i < |d.callers|
  {
    match d.callers[i]
    case Arrived(_) => true
    case Waiting(_) => true
    case Active(work, seen, p, done) => d.holder == Some(i) && Working(d.order, work, seen, p, done)
    case Finished(work, out) =>
      out.Paid? ==> out.payment in d.order.payments && (work.Split? ==> out.payment.key == Some(work.r.key))
  }

  ghost predicate Inv(d: Desk)
  {
    Good(d.order) && (forall i :: 0 <= i < |d.callers| ==> CallerOk(d, i))
    && (d.holder.Some? ==> d.holder.value < |d.callers| && d.callers[d.holder.value].Active?)
  }

  // ---------------------------------------------------------------- a whole-bill payment asks for every row

  lemma AskForDistinct(items: seq<Item>)
    requires RowsOk(items)
    ensures DistinctLines(AskFor(WholeLines(items)))
  {
    WholeIncreasing(items, |items|);
    assert items[..|items|] == items;
  }

  /** The rows of the whole bill come in row order, each once. */
  lemma {:induction false} WholeIncreasing(items: seq<Item>, n: nat)
    requires DistinctIds(items) && n <= |items|
    ensures forall k :: 0 <= k < |WholeLines(items[..n])| ==> HasId(items[..n], WholeLines(items[..n])[k].item.id)
    ensures forall a, b :: 0 <= a < b < |WholeLines(items[..n])| ==>
              WholeLines(items[..n])[a].item.id != WholeLines(items[..n])[b].item.id
  {
    if n > 0 {
      assert items[..n][..n - 1] == items[..n - 1];
      WholeIncreasing(items, n - 1);
      var before, now := WholeLines(items[..n - 1]), WholeLines(items[..n]);
      assert now == before || now == before + [PayLine(items[n - 1], items[n - 1].quantity)];
      forall k | 0 <= k < |before|
        ensures HasId(items[..n], before[k].item.id) && before[k].item.id != items[n - 1].id
      {
        assert HasId(items[..n - 1], before[k].item.id);
        var i :| 0 <= i < n - 1 && items[..n - 1][i].id == before[k].item.id;
        assert items[..n][i].id == before[k].item.id;
      }
      assert items[..n][n - 1].id == items[n - 1].id;
    }
  }

  lemma WholeAnswers(items: seq<Item>)
    requires RowsOk(items) && NothingPaid(items)
    ensures LinesError(items, AskFor(WholeLines(items))).None?
    ensures PayLines(items, AskFor(WholeLines(items))) == WholeLines(items)
  {
    var lines := WholeLines(items);
    forall k | 0 <= k < |lines|
      ensures LineError(items, AskFor(lines)[k]).None? && Find(items, lines[k].item.id) == Some(lines[k].item)
    {
      WholeMembers(items, lines[k]);
      var i :| 0 <= i < |items| && items[i] == lines[k].item;
      FindAt(items, i);
    }
  }

  lemma WholeAsksAll(o: Order, cash: Option<nat>, p: Plan)
    requires RowsOk(o.items) && NothingPaid(o.items) && p.lines == WholeLines(o.items) && p.lines != []
    requires p.req == Requested(AskFor(p.lines), |p.lines|)
    ensures Asks(o, RequestOf(Whole(cash), p), p)
  {
    var lines := AskFor(p.lines);
    AskForDistinct(o.items);
    WholeAnswers(o.items);
    forall id ensures Want(p.req, id) == LineQuantity(p.lines, id) {
      RequestedQuantity(o.items, lines, |lines|, id);
      assert p.lines[..|lines|] == p.lines;
    }
  }

  lemma WholeSettles(o: Order, cash: Option<nat>, p: Plan)
    requires RowsOk(o.items) && NothingPaid(o.items) && !HasDraft(o.items) && p.lines == WholeLines(o.items)
    requires Asks(o, RequestOf(Whole(cash), p), p)
    ensures Settles(o.items, p.req)
  {
    WholeAsks(o.items);
    SettlesMeans(o.items, p.req);
    forall i | 0 <= i < |o.items|
      ensures !o.items[i].status.Draft? && Unpaid(o.items[i]) <= Want(p.req, o.items[i].id)
    {
      assert Want(p.req, o.items[i].id) == LineQuantity(p.lines, o.items[i].id);
      assert Want(WholeReq(o.items), o.items[i].id) == LineQuantity(p.lines, o.items[i].id);
    }
  }

  lemma WholePlanLines(o: Order, cash: Option<nat>)
    requires RowsOk(o.items) && WholePlan(o, cash).Ok?
    ensures var p := WholePlan(o, cash).value;
            p.lines == WholeLines(o.items) && p.lines != [] && p.req == Requested(AskFor(p.lines), |p.lines|)
            && Amounts(p) && p.final && p.totals.discount == o.discount && o.status.InService?
            && NothingPaid(o.items) && !HasDraft(o.items)
  {
    WholePays(o, cash);
    NoneAnyPaid(o.items);
  }

  lemma WholePlanned(o: Order, cash: Option<nat>)
    requires Good(o) && WholePlan(o, cash).Ok?
    ensures var p := WholePlan(o, cash).value;
            Planned(o, RequestOf(Whole(cash), p), p) && NoDraftLine(p) && Positive(p) && o.payments == []
  {
    var p := WholePlan(o, cash).value;
    WholePlanLines(o, cash);
    UnpaidMeansNoPayments(o);
    WholeIsPlanned(o, cash, p);
    forall k | 0 <= k < |p.lines| ensures Billable(p.lines[k].item) && 0 < p.lines[k].quantity {
      WholeLineSent(o.items, k);
    }
  }

  lemma WholeIsPlanned(o: Order, cash: Option<nat>, p: Plan)
    requires RowsOk(o.items) && NothingPaid(o.items) && !HasDraft(o.items) && o.payments == []
    requires p.lines == WholeLines(o.items) && p.lines != [] && p.req == Requested(AskFor(p.lines), |p.lines|)
    requires Amounts(p) && p.final && p.totals.discount == o.discount
    ensures Planned(o, RequestOf(Whole(cash), p), p)
  {
    WholeAsksAll(o, cash, p);
    WholeSettles(o, cash, p);
  }

  lemma WholeLineSent(items: seq<Item>, k: nat)
    requires RowsOk(items) && k < |WholeLines(items)|
    ensures Billable(WholeLines(items)[k].item) && 0 < WholeLines(items)[k].quantity
  {
    var l := WholeLines(items)[k];
    WholeMembers(items, l);
    var i :| 0 <= i < |items| && items[i] == l.item;
    assert RowOk(items[i]);
  }

  // ---------------------------------------------------------------- every step keeps it

  lemma WorkPlanned(o: Order, work: Work)
    requires Good(o) && PlanWork(o, work).Ok? && (work.Split? ==> Tame(o.items, work.r))
    ensures var p := PlanWork(o, work).value;
            Planned(o, RequestOf(work, p), p) && NoDraftLine(p) && Positive(p) && o.status.InService?
            && (work.Whole? ==> o.payments == [])
  {
    match work
    case Whole(cash) => WholePlanned(o, cash);
    case Split(r) =>
      PlanIsPlanned(o, r);
      NamedPlan(o, r, PlanPayment(o, r).value);
  }

  /** Nobody but the changed caller notices a step that leaves the order as it is. */
  lemma OthersStay(d: Desk, e: Desk, i: nat)
    requires Inv(d) && e.order == d.order && i < |d.callers| && |e.callers| == |d.callers|
    requires forall j :: 0 <= j < |d.callers| && j != i ==> e.callers[j] == d.callers[j]
    requires d.holder == e.holder
             || ((d.holder == None || d.holder == Some(i)) && (e.holder == None || e.holder == Some(i)))
    requires CallerOk(e, i)
    requires e.holder == Some(i) <==> e.callers[i].Active?
    ensures Inv(e)
  {
    forall j | 0 <= j < |e.callers| ensures CallerOk(e, j) {
      assert CallerOk(d, j);
    }
  }

  lemma CheckKeeps(d: Desk, i: nat, shiftOpen: bool)
    requires Inv(d) && CheckStep(d, i, shiftOpen).Some?
    ensures Inv(CheckStep(d, i, shiftOpen).value)
  {
    assert CallerOk(d, i);
    OthersStay(d, CheckStep(d, i, shiftOpen).value, i);
  }

  lemma AcquireKeeps(d: Desk, i: nat)
    requires Inv(d) && AcquireStep(d, i).Some? && Orderly(d, Acquire(i))
    ensures Inv(AcquireStep(d, i).value)
  {
    var work := d.callers[i].work;
    if Earlier(d.order, work).None? && PlanWork(d.order, work).Ok? {
      WorkPlanned(d.order, work);
      SelfDrift(d.order);
    }
    OthersStay(d, AcquireStep(d, i).value, i);
  }

  lemma OneMoreGuard(o: Order, work: Work, seen: Order, p: Plan, done: nat)
    requires Working(o, work, seen, p, done) && done < |p.lines| && Unchanged(o.items, p.lines[done].item)
    ensures Working(o, work, seen, p, done + 1)
  {
  }

  lemma GuardKeeps(d: Desk, i: nat)
    requires Inv(d) && GuardStep(d, i).Some?
    ensures Inv(GuardStep(d, i).value)
  {
    var c, e := d.callers[i], GuardStep(d, i).value;
    assert CallerOk(d, i);
    if e.callers[i].Active? {
      OneMoreGuard(d.order, c.work, c.seen, c.plan, c.done);
    }
    assert CallerOk(e, i);
    OthersStay(d, e, i);
  }

  lemma FailKeeps(d: Desk, i: nat)
    requires Inv(d) && FailStep(d, i).Some?
    ensures Inv(FailStep(d, i).value)
  {
    assert CallerOk(d, i);
    OthersStay(d, FailStep(d, i).value, i);
  }

  /** The whole-bill payment carries no key; nothing in the invariant minds. */
  lemma KeylessGood(o: Order, p: Plan, cash: Option<nat>)
    requires Good(CommitSplit(o, p, 0)) && o.payments == []
    ensures Good(CommitWork(o, Whole(cash), p))
  {
    var a, b := SplitPayment(p, 0), Receipt(Whole(cash), p);
    forall id {:trigger LedgerQuantity([b], id)} ensures LedgerQuantity([b], id) == LedgerQuantity([a], id) {
      SameLedger([], a, b, id);
    }
    assert PaymentOk(a) by { assert CommitSplit(o, p, 0).payments[0] == a; }
    assert RawTax(a) == RawTax(b);
    SumSame([a], [b], Subtotal, Subtotal);
    SumSame([a], [b], RawTax, RawTax);
    SumSame([a], [b], ShareOfPayment, ShareOfPayment);
  }

  lemma WorkGood(o: Order, work: Work, seen: Order, p: Plan)
    requires Good(o) && Working(o, work, seen, p, |p.lines|)
    ensures Good(CommitWork(o, work, p))
  {
    CommitGood(seen, o, RequestOf(work, p), p);
    match work
    case Split(r) => assert CommitWork(o, work, p) == CommitSplit(o, p, r.key);
    case Whole(cash) => KeylessGood(o, p, cash);
  }

  /** Only the holder can be at work, and whoever was paid stays paid. */
  lemma PaidKeeps(d: Desk, e: Desk, i: nat, j: nat)
    requires Inv(d) && i < |d.callers| && d.callers[i].Active? && |e.callers| == |d.callers|
    requires j < |d.callers| && j != i && e.callers[j] == d.callers[j]
    requires e.order.payments == d.order.payments + [Receipt(d.callers[i].work, d.callers[i].plan)]
    ensures CallerOk(e, j)
  {
    assert CallerOk(d, i) && CallerOk(d, j);
  }

  lemma Assemble(e: Desk)
    requires Good(e.order) && e.holder == None && forall j :: 0 <= j < |e.callers| ==> CallerOk(e, j)
    ensures Inv(e)
  {
  }

  lemma PaidCallers(d: Desk, e: Desk, i: nat)
    requires Inv(d) && i < |d.callers| && d.callers[i].Active? && e.holder == None
    requires var c := d.callers[i];
             e.callers == d.callers[i := Finished(c.work, Paid(Receipt(c.work, c.plan), c.plan.final))]
    requires e.order.payments == d.order.payments + [Receipt(d.callers[i].work, d.callers[i].plan)]
    ensures forall j :: 0 <= j < |e.callers| ==> CallerOk(e, j)
  {
    forall j | 0 <= j < |e.callers| ensures CallerOk(e, j) {
      if j != i {
        PaidKeeps(d, e, i, j);
      }
    }
  }

  lemma PaidCommitKeeps(d: Desk, i: nat)
    requires Inv(d) && CommitStep(d, i, true).Some?
    ensures Inv(CommitStep(d, i, true).value)
  {
    var e, c := CommitStep(d, i, true).value, d.callers[i];
    assert CallerOk(d, i);
    WorkGood(d.order, c.work, c.seen, c.plan);
    PaidCallers(d, e, i);
    Assemble(e);
  }

  lemma CommitKeeps(d: Desk, i: nat, stockOk: bool)
    requires Inv(d) && CommitStep(d, i, stockOk).Some?
    ensures Inv(CommitStep(d, i, stockOk).value)
  {
    if stockOk {
      PaidCommitKeeps(d, i);
    } else {
      assert CallerOk(d, i);
      OthersStay(d, CommitStep(d, i, stockOk).value, i);
    }
  }

  /** A row a write does not touch is still there afterwards, as it was. */
  lemma WithoutKeeps(items: seq<Item>, i: nat, j: nat)
    requires i < |items| && j < |items| && j != i
    ensures items[j] in Without(items, i)
  {
    assert Without(items, i)[if j < i then j else j - 1] == items[j];
  }

  lemma UntouchedStays(o: Order, w: Write, j: nat)
    requires Land(o, w).Some? && j < |o.items| && !TouchesRow(w, o.items[j])
    ensures o.items[j] in Land(o, w).value.items
  {
    var n := Land(o, w).value;
    if w.MoveOut? || w.Remove? {
      var i := IndexOf(o.items, w.id);
      assert j != i;
      WithoutKeeps(o.items, i, j);
    }
    assert |n.items| >= |o.items| ==> n.items[j] == o.items[j];
  }

  lemma StillUnchanged(o: Order, w: Write, seen: Item)
    requires RowsOk(o.items) && Harmless(o, w) && Land(o, w).Some? && Unchanged(o.items, seen)
    requires forall j :: 0 <= j < |o.items| && o.items[j].id == seen.id ==> !TouchesRow(w, o.items[j])
    ensures Unchanged(Land(o, w).value.items, seen)
  {
    var n := Land(o, w).value;
    var row := Find(o.items, seen.id).value;
    var j :| 0 <= j < |o.items| && o.items[j] == row;
    UntouchedStays(o, w, j);
    WriteRows(o, w);
    var k :| 0 <= k < |n.items| && n.items[k] == row;
    FindAt(n.items, k);
  }

  lemma LocksHold(d: Desk, w: Write, i: nat)
    requires RowsOk(d.order.items) && Harmless(d.order, w) && OtherStep(d, w).Some? && d.holder == Some(i)
             && i < |d.callers| && d.callers[i].Active?
    requires GuardedTo(d.order.items, d.callers[i].plan, d.callers[i].done)
    ensures GuardedTo(OtherStep(d, w).value.order.items, d.callers[i].plan, d.callers[i].done)
  {
    var c := d.callers[i];
    forall k | 0 <= k < c.done ensures Unchanged(Land(d.order, w).value.items, c.plan.lines[k].item) {
      forall j | 0 <= j < |d.order.items| && d.order.items[j].id == c.plan.lines[k].item.id
        ensures !TouchesRow(w, d.order.items[j])
      {
        assert RowLocked(c, d.order.items[j]);
      }
      StillUnchanged(d.order, w, c.plan.lines[k].item);
    }
  }

  lemma OtherKeeps(d: Desk, w: Write)
    requires Inv(d) && OtherStep(d, w).Some? && Orderly(d, Other(w))
    ensures Inv(OtherStep(d, w).value)
  {
    var e := OtherStep(d, w).value;
    HarmlessKeeps(d.order, w);
    WriteShape(d.order, w);
    forall i | 0 <= i < |e.callers| ensures CallerOk(e, i) {
      assert CallerOk(d, i);
      if d.callers[i].Active? {
        WriteDrift(d.callers[i].seen, d.order, w);
        LocksHold(d, w, i);
      }
    }
  }

  lemma CallKeeps(d: Desk, work: Work)
    requires Inv(d)
    ensures Inv(d.(callers := d.callers + [Arrived(work)]))
  {
    var e := d.(callers := d.callers + [Arrived(work)]);
    forall i | 0 <= i < |e.callers| ensures CallerOk(e, i) {
      assert i < |d.callers| ==> CallerOk(d, i);
    }
  }

  lemma SightKeeps(d: Desk)
    requires Inv(d)
    ensures Inv(SightStep(d))
  {
    forall i | 0 <= i < |d.callers| ensures CallerOk(SightStep(d), i) { assert CallerOk(d, i); }
  }

  lemma LookKeeps(d: Desk, w: Write)
    requires Inv(d) && LookStep(d, w).Some?
    ensures Inv(LookStep(d, w).value)
  {
    forall i | 0 <= i < |d.callers| ensures CallerOk(LookStep(d, w).value, i) { assert CallerOk(d, i); }
  }

  lemma StepKeeps(d: Desk, s: Step)
    requires Inv(d) && Next(d, s).Some? && Orderly(d, s)
    ensures Inv(Next(d, s).value)
  {
    match s
    case Call(work) => CallKeeps(d, work);
    case Check(i, shiftOpen) => CheckKeeps(d, i, shiftOpen);
    case Acquire(i) => AcquireKeeps(d, i);
    case Guard(i) => GuardKeeps(d, i);
    case Commit(i, stockOk) => CommitKeeps(d, i, stockOk);
    case Fail(i) => FailKeeps(d, i);
    case Sight => SightKeeps(d);
    case Look(w) => LookKeeps(d, w);
    case Other(w) => OtherKeeps(d, w);
  }
}
