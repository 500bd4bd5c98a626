/**
 * Whole runs of the desk: what holds after any number of steps, and what one call does when left alone.
 */
module BillRuns {
  import opened Common
  import opened Sums
  import opened Bill
  import opened BillStore
  import opened BillLaws
  import opened BillWrites
  import opened BillSettlement
  import opened BillDesk

  // ---------------------------------------------------------------- over whole runs

  function RunDesk(d: Desk, steps: seq<Step>): Option<Desk>
    decreases |steps|
  {
    if steps == [] then Some(d)
    else match Next(d, steps[0]) case None => None case Some(e) => RunDesk(e, steps[1..])
  }

  ghost predicate TameRun(d: Desk, steps: seq<Step>)
    decreases |steps|
  {
    steps == [] || (TameStep(d, steps[0]) && (Next(d, steps[0]).Some? ==> TameRun(Next(d, steps[0]).value, steps[1..])))
  }

  /** Every write of the run does no harm where it lands. */
  ghost predicate HarmlessRun(d: Desk, steps: seq<Step>)
    decreases |steps|
  {
    steps == []
    || (HarmlessStep(d, steps[0]) && (Next(d, steps[0]).Some? ==> HarmlessRun(Next(d, steps[0]).value, steps[1..])))
  }

  /** After every step of the run the books hold, and what was completed is still completed. */
  ghost predicate KeptRun(d: Desk, steps: seq<Step>)
    decreases |steps|
  {
    steps == []
    || (Next(d, steps[0]).Some? ==>
          Kept(d.order, Next(d, steps[0]).value.order) && KeptRun(Next(d, steps[0]).value, steps[1..]))
  }

  /** Everything the caller of a write had checked still holds where the write lands. */
  ghost predicate TimelyStep(d: Desk, s: Step) { s.Other? ==> Timely(d.order, s.w) }

  ghost predicate TimelyRun(d: Desk, steps: seq<Step>)
    decreases |steps|
  {
    steps == []
    || (TimelyStep(d, steps[0]) && (Next(d, steps[0]).Some? ==> TimelyRun(Next(d, steps[0]).value, steps[1..])))
  }

  function OpenDesk(o: Order): Desk { Desk(o, None, [], false, false, {}) }

  lemma {:induction false} RunKeeps(d: Desk, steps: seq<Step>)
    requires Inv(d) && TameRun(d, steps) && HarmlessRun(d, steps) && RunDesk(d, steps).Some?
    ensures Inv(RunDesk(d, steps).value)
    decreases |steps|
  {
    if steps != [] {
      StepKeeps(d, steps[0]);
      RunKeeps(Next(d, steps[0]).value, steps[1..]);
    }
  }

  /** One step keeps the books and a completed order completed exactly when it is not a harmful write. */
  lemma StepKeptExactly(d: Desk, s: Step)
    requires Inv(d) && TameStep(d, s) && Next(d, s).Some?
    ensures Kept(d.order, Next(d, s).value.order) <==> HarmlessStep(d, s)
  {
    if s.Other? {
      WriteKeptExactly(d.order, s.w);
    } else {
      StepKeeps(d, s);
      if d.order.status.Completed? {
        CompletedEndsIt(d, s);
      }
    }
  }

  lemma {:induction false} RunKeptExactly(d: Desk, steps: seq<Step>)
    requires Inv(d) && TameRun(d, steps) && RunDesk(d, steps).Some?
    ensures KeptRun(d, steps) <==> HarmlessRun(d, steps)
    decreases |steps|
  {
    if steps != [] {
      StepKeptExactly(d, steps[0]);
      if HarmlessStep(d, steps[0]) {
        StepKeeps(d, steps[0]);
        RunKeptExactly(Next(d, steps[0]).value, steps[1..]);
      }
    }
  }

  /**
   * Exactly which runs keep the books. Over any number of callers, keys and interleavings, the books hold after
   * every step and a completed order stays completed, if and only if every write of the other writers, checked
   * whenever, does no harm on the order it lands on. The books: the ledger agrees with the paid quantities, which
   * never exceed the quantities, and with the rows' prices; the stock taken is what was paid; the payments'
   * amounts add up; the discount shares never exceed the discount; no key is charged twice; and a completed order
   * is fully settled with its discount used exactly.
   */
  lemma BooksHoldExactly(o: Order, steps: seq<Step>)
    requires Good(o) && TameRun(OpenDesk(o), steps) && RunDesk(OpenDesk(o), steps).Some?
    ensures KeptRun(OpenDesk(o), steps) <==> HarmlessRun(OpenDesk(o), steps)
  {
    RunKeptExactly(OpenDesk(o), steps);
  }

  lemma {:induction false} TimelyRunIsHarmless(d: Desk, steps: seq<Step>)
    requires Inv(d) && TameRun(d, steps) && TimelyRun(d, steps) && RunDesk(d, steps).Some?
    ensures HarmlessRun(d, steps)
    decreases |steps|
  {
    if steps != [] {
      if steps[0].Other? {
        TimelyIsHarmless(d.order, steps[0].w);
      }
      StepKeeps(d, steps[0]);
      TimelyRunIsHarmless(Next(d, steps[0]).value, steps[1..]);
    }
  }

  /**
   * In particular the books hold in every run in which no write lands after what its caller had checked has
   * changed: none checked before a completion or a sending lands after it.
   */
  lemma DeskKeepsTheBooks(o: Order, steps: seq<Step>)
    requires Good(o) && TameRun(OpenDesk(o), steps) && TimelyRun(OpenDesk(o), steps)
             && RunDesk(OpenDesk(o), steps).Some?
    ensures KeptRun(OpenDesk(o), steps) && Good(RunDesk(OpenDesk(o), steps).value.order)
  {
    TimelyRunIsHarmless(OpenDesk(o), steps);
    RunKeptExactly(OpenDesk(o), steps);
    RunKeeps(OpenDesk(o), steps);
  }

  lemma NobodyAtWork(d: Desk, i: nat)
    requires Inv(d) && d.order.status.Completed? && i < |d.callers|
    ensures !d.callers[i].Active?
  {
    assert CallerOk(d, i);
  }

  /** After completion nothing is charged any more; just a late first submission takes the order back. */
  lemma CompletedEndsIt(d: Desk, s: Step)
    requires Inv(d) && Next(d, s).Some? && d.order.status.Completed?
    ensures Next(d, s).value.order.payments == d.order.payments
    ensures Next(d, s).value.order.status.Completed? <==> !(s.Other? && s.w.Submit? && s.w.first)
  {
    match s
    case Commit(i, _) => NobodyAtWork(d, i);
    case Other(w) => LandLeaves(d.order, w);
    case _ => QuietStep(d, s);
  }

  /** A step that neither commits nor is another's write leaves the order alone. */
  lemma QuietStep(d: Desk, s: Step)
    requires Next(d, s).Some? && !s.Commit? && !s.Other?
    ensures Next(d, s).value.order == d.order
  {
  }

  /**
   * A payment completes the order and frees the table exactly when, in its locked read, no row was a draft
   * and every row that is not cancelled became fully paid; and what it then completes is settled as it is
   * at the commit, whatever was voided or moved in between.
   */
  lemma CommitClosesExactly(d: Desk, i: nat)
    requires Inv(d) && CommitStep(d, i, true).Some?
    ensures var c, e := d.callers[i], CommitStep(d, i, true).value;
            (e.order.status.Completed? <==> Settled(PaidUp(c.seen.items, c.plan.req)))
            && (e.order.status.Completed? ==> e.order.tableFree && Settled(e.order.items))
            && (!e.order.status.Completed? ==> e.order.tableFree == d.order.tableFree)
  {
    var c := d.callers[i];
    assert CallerOk(d, i);
    ClosesExactly(c.seen, RequestOf(c.work, c.plan), c.plan);
    CommitKeeps(d, i, true);
  }

  // ---------------------------------------------------------------- a call nobody interrupts

  function Guards(i: nat, n: nat): (r: seq<Step>)
    ensures |r| == n
  {
    seq(n, _ => Guard(i))
  }

  lemma {:induction false} GuardsAlone(d: Desk, i: nat, n: nat)
    requires i < |d.callers| && d.callers[i].Active? && d.callers[i].done + n == |d.callers[i].plan.lines|
    requires forall k :: 0 <= k < |d.callers[i].plan.lines| ==>
               Unchanged(d.order.items, d.callers[i].plan.lines[k].item)
    ensures RunDesk(d, Guards(i, n)) == Some(Put(d, i, d.callers[i].(done := |d.callers[i].plan.lines|)))
    decreases n
  {
    if n == 0 {
      assert Put(d, i, d.callers[i]) == d;
    } else {
      var c := d.callers[i];
      var e := GuardStep(d, i).value;
      assert e == Put(d, i, c.(done := c.done + 1));
      GuardsAlone(e, i, n - 1);
      var all := c.(done := |c.plan.lines|);
      assert d.callers[i := c.(done := c.done + 1)][i := all] == d.callers[i := all];
      assert Guards(i, n)[0] == Guard(i);
      assert Guards(i, n)[1..] == Guards(i, n - 1);
    }
  }

  lemma {:induction false} RunThen(d: Desk, a: seq<Step>, b: seq<Step>)
    requires RunDesk(d, a).Some?
    ensures RunDesk(d, a + b) == RunDesk(RunDesk(d, a).value, b)
    decreases |a|
  {
    if a == [] {
      assert a + b == b;
    } else {
      assert (a + b)[1..] == a[1..] + b;
      RunThen(Next(d, a[0]).value, a[1..], b);
    }
  }

  lemma RunOne(d: Desk, s: Step)
    ensures RunDesk(d, [s]) == Next(d, s)
  {
    assert [s][1..] == [];
    if Next(d, s).Some? {
      assert RunDesk(Next(d, s).value, []) == Next(d, s);
    }
  }

  /** The desk after a caller's work is done. */
  function Answered(d: Desk, i: nat, work: Work, o: Order, out: Outcome): Desk
    requires i < |d.callers|
  {
    d.(order := o, holder := None, callers := d.callers[i := Finished(work, out)])
  }

  lemma TransactionAlone(d: Desk, i: nat, r: PayRequest, stockOk: bool) returns (steps: seq<Step>)
    requires Good(d.order) && d.holder == None && i < |d.callers| && d.callers[i] == Waiting(Split(r))
    requires PaymentFor(d.order.payments, r.key).None?
    ensures RunDesk(d, steps)
            == Some(Answered(d, i, Split(r), PayLocked(d.order, r, stockOk).0, PayLocked(d.order, r, stockOk).1))
  {
    var acquire := [Acquire(i)];
    RunOne(d, Acquire(i));
    if PlanPayment(d.order, r).Err? {
      return acquire;
    }
    var e := AcquireStep(d, i).value;
    var p := PlanPayment(d.order, r).value;
    PlanIsPlanned(d.order, r);
    forall k | 0 <= k < |p.lines| ensures Unchanged(d.order.items, p.lines[k].item) { SelfGuarded(d.order, r, p, k); }
    GuardsAlone(e, i, |p.lines|);
    steps := CommitAlone(d, e, i, r, p, stockOk);
    RunThen(d, acquire, steps);
    steps := acquire + steps;
  }

  lemma CommitAlone(d: Desk, e: Desk, i: nat, r: PayRequest, p: Plan, stockOk: bool) returns (steps: seq<Step>)
    requires i < |d.callers| && e == Put(d, i, Active(Split(r), d.order, p, 0)).(holder := Some(i))
    requires RunDesk(e, Guards(i, |p.lines|)) == Some(Put(e, i, e.callers[i].(done := |p.lines|)))
    ensures RunDesk(e, steps)
            == Some(if stockOk then Answered(d, i, Split(r), CommitSplit(d.order, p, r.key),
              Paid(SplitPayment(p, r.key), p.final))
                    else Answered(d, i, Split(r), d.order, Refused(StockRefused)))
  {
    var f := RunDesk(e, Guards(i, |p.lines|)).value;
    RunOne(f, Commit(i, stockOk));
    RunThen(e, Guards(i, |p.lines|), [Commit(i, stockOk)]);
    var out := if stockOk then Paid(SplitPayment(p, r.key), p.final) else Refused(StockRefused);
    assert f.callers[i := Finished(Split(r), out)] == d.callers[i := Finished(Split(r), out)];
    assert CommitWork(d.order, Split(r), p) == CommitSplit(d.order, p, r.key);
    steps := Guards(i, |p.lines|) + [Commit(i, stockOk)];
  }

  /** Left alone, the steps of one split payment come to what the sequential operation does. */
  lemma AloneAsSequential(d: Desk, i: nat, r: PayRequest, shiftOpen: bool, stockOk: bool) returns (steps: seq<Step>)
    requires Good(d.order) && d.holder == None && i < |d.callers| && d.callers[i] == Arrived(Split(r))
    ensures RunDesk(d, steps)
            == Some(Answered(d, i, Split(r), PaySplit(d.order, r, shiftOpen, stockOk).0,
                             PaySplit(d.order, r, shiftOpen, stockOk).1))
  {
    var check := [Check(i, shiftOpen)];
    RunOne(d, Check(i, shiftOpen));
    var e := CheckStep(d, i, shiftOpen).value;
    if e.callers[i].Finished? {
      return check;
    }
    var rest := TransactionAlone(e, i, r, stockOk);
    RunThen(d, check, rest);
    var out := PayLocked(d.order, r, stockOk).1;
    assert e.callers[i := Finished(Split(r), out)] == d.callers[i := Finished(Split(r), out)];
    steps := check + rest;
  }

  // ---------------------------------------------------------------- the whole bill, left alone

  lemma WholeWants(o: Order, cash: Option<nat>)
    requires Good(o) && WholePlan(o, cash).Ok?
    ensures PaidUp(o.items, WholePlan(o, cash).value.req) == SettleAll(o.items)
  {
    var p := WholePlan(o, cash).value;
    WholePlanLines(o, cash);
    WholeAsksAll(o, cash, p);
    WholeAsks(o.items);
    forall i | 0 <= i < |o.items| ensures PaidUp(o.items, p.req)[i] == SettleAll(o.items)[i] {
      assert Want(p.req, o.items[i].id) == LineQuantity(p.lines, o.items[i].id);
      assert Want(WholeReq(o.items), o.items[i].id) == LineQuantity(p.lines, o.items[i].id);
    }
  }

  /** The whole-bill payment as a plan commits to what the sequential operation does. */
  lemma WholeCommits(o: Order, cash: Option<nat>)
    requires Good(o) && WholePlan(o, cash).Ok?
    ensures WholePayment(o, cash).Ok? && StatusError(o.status).None?
    ensures Receipt(Whole(cash), WholePlan(o, cash).value) == WholePayment(o, cash).value
    ensures CommitWork(o, Whole(cash), WholePlan(o, cash).value) == CommitWhole(o, WholePayment(o, cash).value)
  {
    WholeWants(o, cash);
    WholePays(o, cash);
  }

  lemma WholeGuards(o: Order, cash: Option<nat>)
    requires Good(o) && WholePlan(o, cash).Ok?
    ensures var p := WholePlan(o, cash).value;
            forall k :: 0 <= k < |p.lines| ==> Unchanged(o.items, p.lines[k].item)
  {
    var p := WholePlan(o, cash).value;
    WholePlanned(o, cash);
    forall k | 0 <= k < |p.lines| ensures Unchanged(o.items, p.lines[k].item) {
      SelfGuarded(o, RequestOf(Whole(cash), p), p, k);
    }
  }

  lemma WholeEnd(d: Desk, e: Desk, i: nat, cash: Option<nat>, p: Plan, stockOk: bool) returns (steps: seq<Step>)
    requires i < |d.callers| && e == Put(d, i, Active(Whole(cash), d.order, p, 0)).(holder := Some(i))
    requires RunDesk(e, Guards(i, |p.lines|)) == Some(Put(e, i, e.callers[i].(done := |p.lines|)))
    ensures RunDesk(e, steps)
            == Some(if stockOk then Answered(d, i, Whole(cash), CommitWork(d.order, Whole(cash), p),
                                             Paid(Receipt(Whole(cash), p), p.final))
                    else Answered(d, i, Whole(cash), d.order, Refused(StockRefused)))
  {
    var f := RunDesk(e, Guards(i, |p.lines|)).value;
    RunOne(f, Commit(i, stockOk));
    RunThen(e, Guards(i, |p.lines|), [Commit(i, stockOk)]);
    var out := if stockOk then Paid(Receipt(Whole(cash), p), p.final) else Refused(StockRefused);
    assert f.callers[i := Finished(Whole(cash), out)] == d.callers[i := Finished(Whole(cash), out)];
    steps := Guards(i, |p.lines|) + [Commit(i, stockOk)];
  }

  /** The answer of a whole-bill payment once a shift is known to be open. */
  function WholeLocked(o: Order, cash: Option<nat>, stockOk: bool): (Order, Outcome)
  {
    PayWhole(o, cash, true, stockOk)
  }

  lemma WholeTransaction(d: Desk, i: nat, cash: Option<nat>, stockOk: bool) returns (steps: seq<Step>)
    requires Good(d.order) && d.holder == None && i < |d.callers| && d.callers[i] == Waiting(Whole(cash))
    ensures RunDesk(d, steps)
            == Some(Answered(d, i, Whole(cash), WholeLocked(d.order, cash, stockOk).0,
                             WholeLocked(d.order, cash, stockOk).1))
  {
    var acquire := [Acquire(i)];
    RunOne(d, Acquire(i));
    if WholePlan(d.order, cash).Err? {
      return acquire;
    }
    var e := AcquireStep(d, i).value;
    var p := WholePlan(d.order, cash).value;
    WholeCommits(d.order, cash);
    WholeGuards(d.order, cash);
    GuardsAlone(e, i, |p.lines|);
    steps := WholeEnd(d, e, i, cash, p, stockOk);
    RunThen(d, acquire, steps);
    steps := acquire + steps;
  }

  /** Left alone, the steps of a whole-bill payment come to what the sequential operation does. */
  lemma WholeAloneAsSequential(d: Desk, i: nat, cash: Option<nat>, shiftOpen: bool, stockOk: bool)
    returns (steps: seq<Step>)
    requires Good(d.order) && d.holder == None && i < |d.callers| && d.callers[i] == Arrived(Whole(cash))
    ensures RunDesk(d, steps)
            == Some(Answered(d, i, Whole(cash), PayWhole(d.order, cash, shiftOpen, stockOk).0,
                             PayWhole(d.order, cash, shiftOpen, stockOk).1))
  {
    var check := [Check(i, shiftOpen)];
    RunOne(d, Check(i, shiftOpen));
    var e := CheckStep(d, i, shiftOpen).value;
    if e.callers[i].Finished? {
      return check;
    }
    var rest := WholeTransaction(e, i, cash, stockOk);
    RunThen(d, check, rest);
    var out := WholeLocked(d.order, cash, stockOk).1;
    assert e.callers[i := Finished(Whole(cash), out)] == d.callers[i := Finished(Whole(cash), out)];
    steps := check + rest;
  }
}
