/**
 * When a payment can come out negative. It cannot while the discount that is left fits what is unpaid; here is
 * exactly which steps of the desk keep that so, whoever comes in between.
 */
module BillCover {
  import opened Common
  import opened Sums
  import opened Bill
  import opened BillStore
  import opened BillLaws
  import opened BillWrites
  import opened BillSettlement
  import opened BillEdges
  import opened BillDesk
  import opened BillRuns

  // ---------------------------------------------------------------- a payment that commits

  /** A row's unpaid and paid value together. */
  function DueOrPaid(it: Item): nat { Due(it) + PaidPart(ByPrice)(it) }

  lemma PaidOffDue(it: Item, want: nat)
    requires RowOk(it) && (want > 0 ==> Billable(it) && it.paid + want <= it.quantity)
    ensures DueOrPaid(it.(paid := it.paid + want)) == DueOrPaid(it)
  {
    if Billable(it) {
      Spread(it.price, it.paid + want, it.quantity - it.paid - want);
      Spread(it.price, it.paid, it.quantity - it.paid);
    }
  }

  /** What a payment takes off the due is what it charges. */
  lemma DueFalls(items: seq<Item>, lines: seq<PayLine>, req: map<nat, nat>)
    requires RowsOk(items) && Lands(items, lines) && AsksByLine(req, lines) && MapsLines(req, lines)
    ensures DueTotal(items) == DueTotal(PaidUp(items, req)) + Sum(lines, LinePart(ByPrice))
  {
    var after := PaidUp(items, req);
    forall i | 0 <= i < |items| ensures DueOrPaid(after[i]) == DueOrPaid(items[i]) {
      AskedWithin(items, lines, req, i);
      PaidOffDue(items[i], Want(req, items[i].id));
    }
    SumSame(items, after, DueOrPaid, DueOrPaid);
    SumPointwise(items, items, Due, PaidPart(ByPrice), DueOrPaid);
    SumPointwise(after, after, Due, PaidPart(ByPrice), DueOrPaid);
    CommitWeighs(items, lines, req, ByPrice);
  }

  /** What a payment, as planned, leaves unpaid over the discount it leaves. */
  function Margin(o: Order, p: Plan): int { DueTotal(PaidUp(o.items, p.req)) - (Rest(o) - p.totals.discount) }

  /** What is voided or moved away between the locked read and the commit comes off the margin. */
  lemma MarginMoves(seen: Order, now: Order, r: PayRequest, p: Plan)
    requires Committing(seen, now, r, p)
    ensures Margin(now, p) == Margin(seen, p) - (DueTotal(seen.items) - DueTotal(now.items))
  {
    GuardsLand(seen, now, r, p);
    AsksLines(seen, r, p);
    DueFalls(now.items, p.lines, p.req);
    AskedBalance(seen, r, p);
    DueAfter(seen.items, p.req);
  }

  /** A payment leaves the discount covered when it leaves a margin. */
  lemma CoveredByMargin(o: Order, n: Order, p: Plan, q: Payment)
    requires SharesTaken(o.payments) + p.totals.discount <= o.discount && q.discount == p.totals.discount
    requires n.items == PaidUp(o.items, p.req) && n.discount == o.discount && n.payments == o.payments + [q]
    ensures Covered(n) <==> 0 <= Margin(o, p)
  {
    SumAppend(o.payments, q, ShareOfPayment);
  }

  /**
   * A commit leaves the discount covered exactly when what was voided or moved away since the locked read fits
   * the margin the payment was planned with.
   */
  lemma CommitCoverExactly(seen: Order, now: Order, r: PayRequest, p: Plan, n: Order, q: Payment)
    requires Committing(seen, now, r, p) && q.discount == p.totals.discount
    requires n.items == PaidUp(now.items, p.req) && n.discount == now.discount && n.payments == now.payments + [q]
    ensures Covered(n) <==> DueTotal(seen.items) - DueTotal(now.items) <= Margin(seen, p)
  {
    MarginMoves(seen, now, r, p);
    ShareConserved(seen, r, p);
    CoveredByMargin(now, n, p, q);
  }

  // ---------------------------------------------------------------- the other writes

  /** The row a write lowers is one whose rest is due. */
  predicate Lowers(o: Order, w: Write)
  {
    w.VoidRow? || (w.MoveOut? && IndexOf(o.items, w.id) < |o.items| && Billable(o.items[IndexOf(o.items, w.id)]))
  }

  /** What a write takes off the due, or adds to the discount, fits what is due over the discount left. */
  predicate WriteFits(o: Order, w: Write)
  {
    if w.Discount? then w.amount <= SharesTaken(o.payments) + DueTotal(o.items)
    else if Lowers(o, w) && IndexOf(o.items, w.id) < |o.items|
    then Rest(o) + o.items[IndexOf(o.items, w.id)].price * w.q <= DueTotal(o.items)
    else true
  }

  lemma MovedDue(it: Item, q: nat)
    requires RowOk(it) && Billable(it) && it.paid + q <= it.quantity
    ensures Due(it) == Due(it.(quantity := it.quantity - q)) + it.price * q
  {
    Spread(it.price, it.quantity - q - it.paid, q);
  }

  lemma MoveOutCover(o: Order, id: nat, readQuantity: nat, readPaid: nat, q: nat)
    requires RowsOk(o.items) && MoveOutWrite(o, id, readQuantity, readPaid, q).Some? && Covered(o)
    ensures Covered(MoveOutWrite(o, id, readQuantity, readPaid, q).value)
            <==> WriteFits(o, MoveOut(id, readQuantity, readPaid, q))
  {
    var i := IndexOf(o.items, id);
    var it := o.items[i];
    assert RowOk(it);
    if Billable(it) {
      MovedDue(it, q);
    }
    if it.paid == 0 && q == it.quantity {
      SumWithout(o.items, i, Due);
    } else {
      DueUpdate(o.items, i, it.(quantity := it.quantity - q));
    }
  }

  /** Writes that take nothing off the due. */
  lemma RestKept(o: Order, w: Write)
    requires RowsOk(o.items) && Land(o, w).Some? && Timely(o, w) && !w.VoidRow? && !w.MoveOut? && !w.Discount?
    ensures DueTotal(o.items) <= DueTotal(Land(o, w).value.items)
  {
    match w
    case Arrive(row) => SumAppend(o.items, row, Due);
    case Add(row) => SumAppend(o.items, row, Due);
    case Submit(sends, _) => SentDue(o.items, sends);
    case Advance(id, _) => SameDue(o.items, IndexOf(o.items, id), Land(o, w).value.items);
    case _ => DraftEdited(o, w);
  }

  /** An unsent row that is changed or removed was not due before, and is not due now. */
  lemma DraftEdited(o: Order, w: Write)
    requires Land(o, w).Some? && RowsChecked(o.items, w) && (w.Requantify? || w.Reprice? || w.Remove?)
    ensures DueTotal(Land(o, w).value.items) == DueTotal(o.items)
  {
    var i, now := IndexOf(o.items, w.id), Land(o, w).value.items;
    assert w.id in {w.id};
    assert o.items[i].status.Draft?;
    match w
    case Remove(_) => SumWithout(o.items, i, Due);
    case Requantify(_, _) => SameDue(o.items, i, now);
    case Reprice(_, _) => SameDue(o.items, i, now);
  }

  lemma SameDue(items: seq<Item>, i: nat, now: seq<Item>)
    requires i < |items| && |now| == |items| && now == items[i := now[i]] && Due(now[i]) == Due(items[i])
    ensures DueTotal(now) == DueTotal(items)
  {
    DueUpdate(items, i, now[i]);
  }

  lemma SentDue(items: seq<Item>, sends: map<nat, Sending>)
    requires RowsOk(items) && AllDraft(items, sends.Keys)
    ensures DueTotal(items) <= DueTotal(SendRows(items, sends))
  {
    forall i | 0 <= i < |items| ensures Due(items[i]) <= Due(SendRow(items[i], sends)) {
      if items[i].id in sends {
        FindAt(items, i);
      }
    }
    SumLeast(items, SendRows(items, sends), Due, Due);
  }

  /** A timely write leaves the discount covered exactly when what it takes fits. */
  lemma WriteCoverExactly(o: Order, w: Write)
    requires RowsOk(o.items) && Land(o, w).Some? && Timely(o, w) && Covered(o)
    ensures Covered(Land(o, w).value) <==> WriteFits(o, w)
  {
    match w
    case VoidRow(id, rq, rp, rs, q) => VoidKeepsCover(o, id, q, rq, rp, rs);
    case MoveOut(id, rq, rp, q) => MoveOutCover(o, id, rq, rp, q);
    case Discount(_) =>
    case _ =>
      RestKept(o, w);
      LandLeaves(o, w);
  }

  // ---------------------------------------------------------------- over whole runs

  /** What has been voided or moved away since a caller's locked read fits the margin of its plan. */
  predicate MarginHolds(o: Order, c: Caller)
    requires c.Active?
  {
    DueTotal(c.seen.items) - DueTotal(o.items) <= Margin(c.seen, c.plan)
  }

  /** Another's write fits what is due; a payment's margin is not eaten up between its locked read and its commit. */
  predicate FitStep(d: Desk, s: Step)
  {
    match s
    case Other(w) => WriteFits(d.order, w)
    case Commit(i, stockOk) =>
      stockOk && i < |d.callers| && d.callers[i].Active? ==> MarginHolds(d.order, d.callers[i])
    case _ => true
  }

  predicate FitRun(d: Desk, steps: seq<Step>)
    decreases |steps|
  {
    steps == [] || (FitStep(d, steps[0]) && (Next(d, steps[0]).Some? ==> FitRun(Next(d, steps[0]).value, steps[1..])))
  }

  /** After every step the discount that is left fits what is unpaid. */
  predicate CoveredRun(d: Desk, steps: seq<Step>)
    decreases |steps|
  {
    steps == []
    || (Next(d, steps[0]).Some? ==>
          Covered(Next(d, steps[0]).value.order) && CoveredRun(Next(d, steps[0]).value, steps[1..]))
  }

  lemma WorkCoverExactly(o: Order, work: Work, seen: Order, p: Plan)
    requires Good(o) && Working(o, work, seen, p, |p.lines|)
    ensures Covered(CommitWork(o, work, p)) <==> DueTotal(seen.items) - DueTotal(o.items) <= Margin(seen, p)
  {
    var n := CommitWork(o, work, p);
    assert PaymentFor(o.payments, RequestOf(work, p).key).None? by { NoneUnderKey(o, work, seen); }
    CommitCoverExactly(seen, o, RequestOf(work, p), p, n, Receipt(work, p));
  }

  lemma NoneUnderKey(o: Order, work: Work, seen: Order)
    requires Drift(seen, o) && Earlier(o, work).None? && (work.Whole? ==> seen.payments == [])
    ensures PaymentFor(o.payments, if work.Split? then work.r.key else 0).None?
  {
  }

  lemma CommitLeaves(d: Desk, i: nat)
    requires CommitStep(d, i, true).Some?
    ensures i < |d.callers| && d.callers[i].Active? && d.callers[i].done == |d.callers[i].plan.lines|
    ensures CommitStep(d, i, true).value.order == CommitWork(d.order, d.callers[i].work, d.callers[i].plan)
  {
  }

  lemma CommitStepCover(d: Desk, i: nat)
    requires Inv(d) && i < |d.callers| && d.callers[i].Active? && d.callers[i].done == |d.callers[i].plan.lines|
    ensures Covered(CommitWork(d.order, d.callers[i].work, d.callers[i].plan)) <==> MarginHolds(d.order, d.callers[i])
  {
    var c := d.callers[i];
    assert CallerOk(d, i);
    WorkCoverExactly(d.order, c.work, c.seen, c.plan);
  }

  lemma StepCoverExactly(d: Desk, s: Step)
    requires Inv(d) && Next(d, s).Some? && TimelyStep(d, s) && Covered(d.order)
    ensures Covered(Next(d, s).value.order) <==> FitStep(d, s)
  {
    match s
    case Other(w) => WriteCoverExactly(d.order, w);
    case Commit(i, stockOk) =>
      if stockOk {
        CommitLeaves(d, i);
        CommitStepCover(d, i);
      }
    case _ => QuietStep(d, s);
  }

  lemma TimelyStepKeeps(d: Desk, s: Step)
    requires Inv(d) && Next(d, s).Some? && TameStep(d, s) && TimelyStep(d, s)
    ensures Inv(Next(d, s).value)
  {
    if s.Other? {
      TimelyIsHarmless(d.order, s.w);
    }
    StepKeeps(d, s);
  }

  lemma {:induction false} RunCoverExactly(d: Desk, steps: seq<Step>)
    requires Inv(d) && Covered(d.order) && TameRun(d, steps) && TimelyRun(d, steps) && RunDesk(d, steps).Some?
    ensures CoveredRun(d, steps) <==> FitRun(d, steps)
    decreases |steps|
  {
    if steps != [] {
      StepCoverExactly(d, steps[0]);
      TimelyStepKeeps(d, steps[0]);
      if FitStep(d, steps[0]) {
        RunCoverExactly(Next(d, steps[0]).value, steps[1..]);
      }
    }
  }

  ghost predicate NoneNegative(d: Desk)
  {
    forall i :: 0 <= i < |d.callers| && d.callers[i].Finished? ==> d.callers[i].outcome != Refused(NegativeTotal)
  }

  lemma CheckNotNegative(d: Desk, i: nat, shiftOpen: bool)
    requires CheckStep(d, i, shiftOpen).Some? && NoneNegative(d)
    ensures NoneNegative(CheckStep(d, i, shiftOpen).value)
  {
    if d.callers[i].work.Split? {
      CollectRefusal(d.callers[i].work.r.lines, map[]);
    }
  }

  lemma AcquireNotNegative(d: Desk, i: nat)
    requires Good(d.order) && AcquireStep(d, i).Some? && TameStep(d, Acquire(i)) && Covered(d.order) && NoneNegative(d)
    ensures NoneNegative(AcquireStep(d, i).value)
  {
    var work := d.callers[i].work;
    if work.Split? {
      NeverNegative(d.order, work.r);
    }
    assert PlanWork(d.order, work) != Err(NegativeTotal);
  }

  lemma EndNotNegative(d: Desk, s: Step)
    requires Next(d, s).Some? && (s.Guard? || s.Commit? || s.Fail?) && NoneNegative(d)
    ensures NoneNegative(Next(d, s).value)
  {
  }

  /** On a covered order no call is refused as negative. */
  lemma StepNotNegative(d: Desk, s: Step)
    requires Good(d.order) && Next(d, s).Some? && TameStep(d, s) && Covered(d.order) && NoneNegative(d)
    ensures NoneNegative(Next(d, s).value)
  {
    match s
    case Check(i, shiftOpen) => CheckNotNegative(d, i, shiftOpen);
    case Acquire(i) => AcquireNotNegative(d, i);
    case Guard(_) => EndNotNegative(d, s);
    case Commit(_, _) => EndNotNegative(d, s);
    case Fail(_) => EndNotNegative(d, s);
    case _ =>
  }

  lemma {:induction false} RunNotNegative(d: Desk, steps: seq<Step>)
    requires Inv(d) && Covered(d.order) && TameRun(d, steps) && TimelyRun(d, steps) && RunDesk(d, steps).Some?
    requires CoveredRun(d, steps) && NoneNegative(d)
    ensures NoneNegative(RunDesk(d, steps).value)
    decreases |steps|
  {
    if steps != [] {
      StepNotNegative(d, steps[0]);
      TimelyStepKeeps(d, steps[0]);
      RunNotNegative(Next(d, steps[0]).value, steps[1..]);
    }
  }

  /**
   * Rounding never bites, at the desk: from a good order whose discount fits what is unpaid it goes on fitting
   * after every step, with any callers and other writers in between, if and only if every void, transfer and
   * discount fits what is due where it lands, and no payment's margin is voided or moved away between its locked
   * read and its commit; and while it fits no payment is ever refused because its amount came out negative.
   */
  lemma CoverHoldsExactly(o: Order, steps: seq<Step>)
    requires Good(o) && Covered(o) && TameRun(OpenDesk(o), steps) && TimelyRun(OpenDesk(o), steps)
    requires RunDesk(OpenDesk(o), steps).Some?
    ensures CoveredRun(OpenDesk(o), steps) <==> FitRun(OpenDesk(o), steps)
    ensures FitRun(OpenDesk(o), steps) ==> NoneNegative(RunDesk(OpenDesk(o), steps).value)
  {
    RunCoverExactly(OpenDesk(o), steps);
    if FitRun(OpenDesk(o), steps) {
      RunNotNegative(OpenDesk(o), steps);
    }
  }
}
