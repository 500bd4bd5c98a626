/**
 * What holds of the desk in every run whatever, late writes and all: one payment per key, nothing paid is ever
 * taken back, and what a payment completes is settled as it completes it.
 */
module BillAlways {
  import opened Common
  import opened Sums
  import opened Bill
  import opened BillStore
  import opened BillLaws
  import opened BillWrites
  import opened BillSettlement
  import opened BillClosing
  import opened BillDesk
  import opened BillRuns

  /**
   * A caller between its locked read and its commit: the order row has been its own; and so have the rows, if
   * they were well formed when it read them, but for what the guards allow.
   */
  ghost predicate Holding(o: Order, work: Work, seen: Order, p: Plan, done: nat)
  {
    && Earlier(o, work).None? && PlanWork(seen, work) == Ok(p)
    && o.payments == seen.payments && o.discount == seen.discount && o.status == seen.status
    && (RowsOk(seen.items) ==> RowsOk(o.items) && Drift(seen, o) && GuardedTo(o.items, p, done))
  }

  ghost predicate CallerHolds(d: Desk, i: nat)
    requires i < |d.callers|
  {
    match d.callers[i]
    case Arrived(_) => true
    case Waiting(_) => true
    case Active(work, seen, p, done) => d.holder == Some(i) && Holding(d.order, work, seen, p, done)
    case Finished(work, out) =>
      out.Paid? ==> out.payment in d.order.payments && (work.Split? ==> out.payment.key == Some(work.r.key))
  }

  ghost predicate AlwaysInv(d: Desk)
  {
    KeysOk(d.order.payments) && forall i :: 0 <= i < |d.callers| ==> CallerHolds(d, i)
  }

  /** Whoever holds nothing keeps its answer when payments are only added. */
  lemma Bystander(d: Desk, e: Desk, i: nat, j: nat)
    requires AlwaysInv(d) && i < |d.callers| && j < |d.callers| && i != j && |e.callers| >= |d.callers|
    requires e.callers[j] == d.callers[j] && d.order.payments <= e.order.payments
    requires d.holder == Some(i) || d.holder == None
    ensures CallerHolds(e, j)
  {
    assert CallerHolds(d, j);
  }

  /** A step of caller i that leaves the order alone. */
  lemma CallerStep(d: Desk, e: Desk, i: nat)
    requires AlwaysInv(d) && i < |d.callers| && |e.callers| == |d.callers| && e.order == d.order && CallerHolds(e, i)
    requires forall j :: 0 <= j < |d.callers| && j != i ==> e.callers[j] == d.callers[j]
    requires e.holder == d.holder
             || ((d.holder == None || d.holder == Some(i)) && (e.holder == None || e.holder == Some(i)))
    ensures AlwaysInv(e)
  {
    forall j | 0 <= j < |e.callers| ensures CallerHolds(e, j) { assert CallerHolds(d, j); }
  }

  lemma AcquireAlways(d: Desk, i: nat)
    requires AlwaysInv(d) && AcquireStep(d, i).Some?
    ensures AlwaysInv(AcquireStep(d, i).value)
  {
    SelfDrift(d.order);
    CallerStep(d, AcquireStep(d, i).value, i);
  }

  lemma GuardAlways(d: Desk, i: nat)
    requires AlwaysInv(d) && GuardStep(d, i).Some?
    ensures AlwaysInv(GuardStep(d, i).value)
  {
    assert CallerHolds(d, i);
    CallerStep(d, GuardStep(d, i).value, i);
  }

  lemma AnyKeyOk(payments: seq<Payment>, work: Work, p: Plan)
    requires KeysOk(payments) && (work.Split? ==> PaymentFor(payments, work.r.key).None?)
    ensures KeysOk(payments + [Receipt(work, p)])
  {
    match work
    case Split(r) => CommitKeys(payments, Receipt(work, p), r.key);
    case Whole(_) =>
  }

  lemma CommitAlways(d: Desk, i: nat)
    requires AlwaysInv(d) && CommitStep(d, i, true).Some?
    ensures AlwaysInv(CommitStep(d, i, true).value)
  {
    var c, e := d.callers[i], CommitStep(d, i, true).value;
    assert CallerHolds(d, i);
    AnyKeyOk(d.order.payments, c.work, c.plan);
    forall j | 0 <= j < |e.callers| ensures CallerHolds(e, j) {
      if j != i {
        Bystander(d, e, i, j);
      }
    }
  }

  /** Under a held order row only guarded writes and the kitchen land, and these leave rows well formed. */
  lemma HoldingThrough(d: Desk, w: Write, i: nat)
    requires OtherStep(d, w).Some? && i < |d.callers| && d.callers[i].Active? && CallerHolds(d, i)
    ensures CallerHolds(OtherStep(d, w).value, i)
  {
    var c := d.callers[i];
    LandLeaves(d.order, w);
    if RowsOk(c.seen.items) {
      WriteRows(d.order, w);
      WriteDrift(c.seen, d.order, w);
      LocksHold(d, w, i);
    }
  }

  lemma OtherAlways(d: Desk, w: Write)
    requires AlwaysInv(d) && OtherStep(d, w).Some?
    ensures AlwaysInv(OtherStep(d, w).value)
  {
    var e := OtherStep(d, w).value;
    LandLeaves(d.order, w);
    forall i | 0 <= i < |e.callers| ensures CallerHolds(e, i) {
      assert CallerHolds(d, i);
      if d.callers[i].Active? {
        HoldingThrough(d, w, i);
      }
    }
  }

  /** A step that only adds a caller or a note of what has been checked. */
  lemma NoteAlways(d: Desk, s: Step)
    requires AlwaysInv(d) && Next(d, s).Some? && (s.Call? || s.Sight? || s.Look?)
    ensures AlwaysInv(Next(d, s).value)
  {
    var e := Next(d, s).value;
    forall i | 0 <= i < |e.callers| ensures CallerHolds(e, i) { assert i < |d.callers| ==> CallerHolds(d, i); }
  }

  lemma EndAlways(d: Desk, i: nat, e: Desk)
    requires AlwaysInv(d) && (FailStep(d, i) == Some(e) || CommitStep(d, i, false) == Some(e))
    ensures AlwaysInv(e)
  {
    assert CallerHolds(d, i);
    CallerStep(d, e, i);
  }

  lemma StepAlways(d: Desk, s: Step)
    requires AlwaysInv(d) && Next(d, s).Some?
    ensures AlwaysInv(Next(d, s).value)
  {
    match s
    case Check(i, _) =>
      assert CallerHolds(d, i);
      CallerStep(d, Next(d, s).value, i);
    case Acquire(i) => AcquireAlways(d, i);
    case Guard(i) => GuardAlways(d, i);
    case Commit(i, stockOk) =>
      if stockOk {
        CommitAlways(d, i);
      } else {
        EndAlways(d, i, Next(d, s).value);
      }
    case Fail(i) => EndAlways(d, i, Next(d, s).value);
    case Other(w) => OtherAlways(d, w);
    case _ => NoteAlways(d, s);
  }

  lemma {:induction false} RunAlways(d: Desk, steps: seq<Step>)
    requires AlwaysInv(d) && RunDesk(d, steps).Some?
    ensures AlwaysInv(RunDesk(d, steps).value)
    decreases |steps|
  {
    if steps != [] {
      StepAlways(d, steps[0]);
      RunAlways(Next(d, steps[0]).value, steps[1..]);
    }
  }

  // ---------------------------------------------------------------- what follows

  function KeyOf(c: Caller): Option<nat>
  {
    if c.Finished? && c.outcome.Paid? && c.work.Split? then Some(c.work.r.key) else None
  }

  lemma OnlyOne(payments: seq<Payment>, p: Payment, key: nat)
    requires KeysOk(payments) && p in payments && p.key == Some(key)
    ensures PaymentFor(payments, key) == Some(p)
  {
    var f := PaymentFor(payments, key);
    assert f.Some?;
    var i :| 0 <= i < |payments| && payments[i] == f.value;
    var j :| 0 <= j < |payments| && payments[j] == p;
    assert i == j;
  }

  /** In every run all callers that were answered as paid under one key hold the one payment made under it. */
  lemma OnePaymentPerKey(o: Order, steps: seq<Step>, i: nat, j: nat)
    requires KeysOk(o.payments) && RunDesk(OpenDesk(o), steps).Some?
    requires var d := RunDesk(OpenDesk(o), steps).value;
             i < |d.callers| && j < |d.callers| && KeyOf(d.callers[i]).Some?
             && KeyOf(d.callers[j]) == KeyOf(d.callers[i])
    ensures var d := RunDesk(OpenDesk(o), steps).value;
            d.callers[i].outcome.payment == d.callers[j].outcome.payment
            && PaymentFor(d.order.payments, d.callers[i].work.r.key) == Some(d.callers[i].outcome.payment)
  {
    RunAlways(OpenDesk(o), steps);
    var d := RunDesk(OpenDesk(o), steps).value;
    assert CallerHolds(d, i) && CallerHolds(d, j);
    OnlyOne(d.order.payments, d.callers[i].outcome.payment, d.callers[i].work.r.key);
    OnlyOne(d.order.payments, d.callers[j].outcome.payment, d.callers[i].work.r.key);
  }

  lemma StepOnlyAdds(d: Desk, s: Step)
    requires Next(d, s).Some?
    ensures d.order.payments <= Next(d, s).value.order.payments
    ensures forall i :: 0 <= i < |d.callers| && d.callers[i].Finished? ==>
              i < |Next(d, s).value.callers| && Next(d, s).value.callers[i] == d.callers[i]
  {
    if s.Other? {
      LandLeaves(d.order, s.w);
    }
  }

  /** What has been paid stays paid: no run removes or changes a payment or a caller's answer. */
  lemma {:induction false} PaidStaysPaid(d: Desk, steps: seq<Step>)
    requires RunDesk(d, steps).Some?
    ensures d.order.payments <= RunDesk(d, steps).value.order.payments
    ensures forall i :: 0 <= i < |d.callers| && d.callers[i].Finished? ==>
              i < |RunDesk(d, steps).value.callers| && RunDesk(d, steps).value.callers[i] == d.callers[i]
    decreases |steps|
  {
    if steps != [] {
      StepOnlyAdds(d, steps[0]);
      PaidStaysPaid(Next(d, steps[0]).value, steps[1..]);
    }
  }

  /**
   * Whatever was written late before, and whatever will be written later: when a split payment completes an order
   * whose rows were well formed at its locked read, every row is then cancelled or fully paid, the table is free,
   * and the shares are the discount, unless the discount had already been put below what was used of it.
   */
  lemma CompletingSettles(o: Order, steps: seq<Step>, i: nat)
    requires KeysOk(o.payments) && RunDesk(OpenDesk(o), steps).Some?
    requires var d := RunDesk(OpenDesk(o), steps).value;
             CommitStep(d, i, true).Some? && d.callers[i].plan.final && RowsOk(d.callers[i].seen.items)
             && d.callers[i].work.Split? && PositiveLines(d.callers[i].work.r)
    ensures var d := RunDesk(OpenDesk(o), steps).value;
            var e := CommitStep(d, i, true).value;
            e.order.status.Completed? && e.order.tableFree && Settled(e.order.items)
            && SharesTaken(e.order.payments)
               == if SharesTaken(d.order.payments) <= e.order.discount then e.order.discount
                  else SharesTaken(d.order.payments)
  {
    var d := RunDesk(OpenDesk(o), steps).value;
    var c := d.callers[i];
    RunAlways(OpenDesk(o), steps);
    assert CallerHolds(d, i);
    PlanIsPlanned(c.seen, c.work.r);
    SettledByPlan(c.seen, d.order, c.work.r, c.plan);
    SumAppend(d.order.payments, SplitPayment(c.plan, c.work.r.key), ShareOfPayment);
  }

  lemma SettledByPlan(seen: Order, now: Order, r: PayRequest, p: Plan)
    requires RowsOk(seen.items) && RowsOk(now.items) && Drift(seen, now) && Planned(seen, r, p) && p.final
    requires PositiveLines(r) && GuardedTo(now.items, p, |p.lines|)
    ensures Settled(PaidUp(now.items, p.req))
  {
    SettlesMeans(seen.items, p.req);
    NamedPlan(seen, r, p);
    GuardsLand(seen, now, r, p);
    AsksLines(seen, r, p);
    CommitSettles(seen, now, r, p);
  }
}
