/**
 * Whole runs of the print protocol: at most one print, write-ahead, honest reports, and a run that meets
 * the bound.
 */
module PrintRuns {
  import opened Common
  import opened PrintServer
  import opened PrintAgent
  import opened PrintProtocol

  const NOTHING: World := World(NEW_JOB, [], {}, false, Log(map[], {}, [], map[]))

  /** The world after the steps, if each of them was possible. */
  function Run(steps: seq<Step>): Option<World>
  {
    if steps == [] then Some(NOTHING)
    else
      match Run(steps[..|steps| - 1])
      case None => None
      case Some(w) => Next(w, steps[|steps| - 1])
  }

  lemma {:induction false} RunKeeps(steps: seq<Step>)
    requires Run(steps).Some?
    ensures Inv(Run(steps).value)
  {
    if steps != [] {
      RunKeeps(steps[..|steps| - 1]);
      StepKeeps(Run(steps[..|steps| - 1]).value, steps[|steps| - 1]);
    }
  }

  /**
   * At most one print: whatever is cut off, lost, late or repeated, a job is put on paper at most once,
   * and only under an attempt the server has permitted.
   */
  lemma AtMostOnePrint(steps: seq<Step>)
    requires Run(steps).Some?
    ensures |Run(steps).value.log.paper| <= 1
    ensures forall a :: a in Run(steps).value.log.paper ==> a in Run(steps).value.log.granted
  {
    RunKeeps(steps);
  }

  /** Write-ahead: an agent that has put an attempt on paper has it on disk, unless it was acknowledged and pruned. */
  lemma WriteAhead(steps: seq<Step>, i: nat, a: nat)
    requires Run(steps).Some?
    requires var w := Run(steps).value;
             i < |w.clients| && w.clients[i].kind.Agent? && a in w.log.paper && Owned(w.log, i, a)
             && w.clients[i].row.Some?
    ensures var row := Run(steps).value.clients[i].row.value;
            row.attempt == a && (row.state.PrintInvoked? || row.state.ResultKnown? || row.state.Acked?)
  {
    RunKeeps(steps);
    var w := Run(steps).value;
    var k :| 0 <= k < |w.log.paper| && w.log.paper[k] == a;
    OwnPaper(w, i, k);
  }

  /**
   * Honest reports: every result ever sent for one attempt is the same; "failed before submission" is never
   * sent for an attempt that was put on paper, and success never for one that was not.
   */
  lemma HonestReports(steps: seq<Step>, m: Msg, n: Msg)
    requires Run(steps).Some? && m in Run(steps).value.sent && n in Run(steps).value.sent
    requires m.ResultMsg? && n.ResultMsg? && m.a == n.a
    ensures m.out == n.out && Honest(Run(steps).value.log, m.a, m.out)
  {
    RunKeeps(steps);
  }

  /**
   * The server's verdict is as honest: a job it calls printed, unless an operator said so, has been put on
   * paper exactly once, under the attempt it shows; a job it calls failed has not been put on paper at all.
   */
  lemma HonestVerdict(steps: seq<Step>)
    requires Run(steps).Some?
    ensures var w := Run(steps).value;
            w.job.status.Printed? && !w.job.confirmed ==> w.job.attempt.Some? && w.log.paper == [w.job.attempt.value]
    ensures var w := Run(steps).value;
            w.job.status.Failed? || w.job.status.Pending? || w.job.status.Suppressed? ==> w.log.paper == []
  {
    RunKeeps(steps);
    var w := Run(steps).value;
    assert w.log.paper != [] ==> Holds(w.job, w.log.paper[0]);
  }

  /**
   * A result that arrives again, however late and from whichever copy, is accepted and changes nothing: an attempt
   * has one story, so the server never sees two.
   */
  lemma RepeatedResult(steps: seq<Step>, m: Msg, n: Msg)
    requires Run(steps).Some? && Next(Run(steps).value, LateResult(m)).Some?
    requires n in Run(steps).value.sent && n.ResultMsg? && n.a == m.a && n.who == m.who
    ensures var v := Next(Run(steps).value, LateResult(m)).value; Next(v, LateResult(n)) == Some(v)
  {
    HonestReports(steps, m, n);
    FinishTwice(Run(steps).value.job, m.who, m.a, m.out, n.out);
  }

  /**
   * A permission is given at most once per attempt, in every run: only for the attempt the job is with, to the one
   * who claimed it, within the lease, and never after it has been given before, however late the request is.
   */
  lemma PermittedOnce(steps: seq<Step>, m: Msg, inLease: bool)
    requires Run(steps).Some? && m in Run(steps).value.sent && m.StartMsg?
    ensures var w := Run(steps).value;
            Next(w, LateStart(m, inLease)).Some?
            <==> inLease && w.job.status.Printing? && w.job.attempt == Some(m.a) && w.job.holder == Some(m.who)
                 && m.a !in w.log.granted
    ensures Next(Run(steps).value, LateStart(m, inLease)).Some? ==>
              m.a in Next(Run(steps).value, LateStart(m, inLease)).value.log.granted
  {
    RunKeeps(steps);
  }

  /**
   * Exactly which result the server takes, in every run: one from whoever holds the attempt the job is with, while
   * the job is printing or unknown and has none yet, or the same again; a job that was settled or suppressed takes
   * no other. What it then shows is what the result says.
   */
  lemma ResultTakenExactly(steps: seq<Step>, m: Msg)
    requires Run(steps).Some? && m in Run(steps).value.sent && m.ResultMsg?
    ensures var w := Run(steps).value;
            Next(w, LateResult(m)).Some?
            <==> w.job.attempt == Some(m.a) && w.job.holder == Some(m.who)
                 && (if w.job.outcome.Some? then w.job.outcome.value == m.out
                     else
                       (w.job.status.Printing? || w.job.status.Unknown?)
                       && (m.out.FailedBefore? || m.a in w.log.granted))
    ensures Next(Run(steps).value, LateResult(m)).Some? && Run(steps).value.job.outcome.None? ==>
              var j := Next(Run(steps).value, LateResult(m)).value.job;
              j.outcome == Some(m.out)
              && j.status == match m.out
                             case FailedBefore => Failed
                             case SubmissionUnknown => Unknown
                             case _ => Printed
  {
    RunKeeps(steps);
  }

  lemma StepHeld(w: World, s: Step)
    requires Next(w, s).Some? && (w.job.status.Printing? ==> w.job.attempt.Some?)
    ensures Next(w, s).value.job.status.Printing? ==> Next(w, s).value.job.attempt.Some?
  {
  }

  /** A job that is printing is with some attempt. */
  lemma {:induction false} PrintingIsHeld(steps: seq<Step>)
    requires Run(steps).Some?
    ensures Run(steps).value.job.status.Printing? ==> Run(steps).value.job.attempt.Some?
  {
    if steps != [] {
      PrintingIsHeld(steps[..|steps| - 1]);
      StepHeld(Run(steps[..|steps| - 1]).value, steps[|steps| - 1]);
    }
  }

  /** The attempt the job is with has been permitted. */
  predicate Permitted(w: World) { w.job.attempt.Some? && w.job.attempt.value in w.log.granted }

  /** What the server may do of its own accord. */
  predicate MayKeep(w: World, u: Upkeep)
  {
    match u
    case Sweep => w.job.status.Printing? && !Permitted(w)
    case SweepLate => w.job.status.Printing? && Permitted(w)
    case Offer(_) => w.job.status.Failed? && w.job.outcome == Some(FailedBefore)
    case Hush => w.job.automatic && (w.job.status.Pending? || (w.job.status.Printing? && !Permitted(w)))
    case Settle => w.seenUnknown
  }

  /** What the job then is. */
  function KeptAs(u: Upkeep): Status
  {
    match u
    case Sweep => Pending
    case SweepLate => Unknown
    case Offer(_) => Pending
    case Hush => Suppressed
    case Settle => Printed
  }

  lemma KeepMeans(w: World, u: Upkeep)
    requires w.job.status.Printing? ==> w.job.attempt.Some? && (w.job.started <==> Permitted(w))
    ensures Next(w, Server(u)).Some? <==> MayKeep(w, u)
    ensures Next(w, Server(u)).Some? ==> Next(w, Server(u)).value.job.status == KeptAs(u)
  {
  }

  /**
   * Exactly what the server may do of its own accord, in every run: sweep back a claim nobody has permitted, give a
   * permitted one up as unknown, offer again what failed before submission, keep back what nobody was permitted to
   * print, and settle what an operator has seen as unknown.
   */
  lemma UpkeepExactly(steps: seq<Step>, u: Upkeep)
    requires Run(steps).Some?
    ensures Next(Run(steps).value, Server(u)).Some? <==> MayKeep(Run(steps).value, u)
    ensures Next(Run(steps).value, Server(u)).Some? ==>
              Next(Run(steps).value, Server(u)).value.job.status == KeptAs(u)
  {
    RunKeeps(steps);
    PrintingIsHeld(steps);
    if Run(steps).value.job.attempt.Some? {
      StartedMeans(Run(steps).value);
    }
    KeepMeans(Run(steps).value, u);
  }

  lemma StartedMeans(w: World)
    requires LogOk(w.log, w.job) && w.job.attempt.Some?
    ensures w.job.started <==> Permitted(w)
  {
  }

  /** Whatever puts the job on offer again finds nothing on paper, and an attempt unstarted or known to have failed. */
  lemma OfferedOnlyUnprinted(steps: seq<Step>, u: Upkeep)
    requires Run(steps).Some? && Next(Run(steps).value, Server(u)).Some?
    requires Next(Run(steps).value, Server(u)).value.job.status.Pending?
    ensures Run(steps).value.log.paper == []
    ensures var j := Run(steps).value.job;
            (j.status.Printing? && !j.started) || (j.status.Failed? && j.outcome == Some(FailedBefore))
  {
    RunKeeps(steps);
    var w := Run(steps).value;
    OfferedAgain(w.job, u);
    assert w.log.paper != [] ==> Holds(w.job, w.log.paper[0]);
  }

  /** One agent at its first attempt: where it is, its row, and what has happened. */
  function FirstAttempt(who: nat, started: bool, pc: Pc, state: RowState, paper: seq<nat>): World
  {
    World(Job(Printing, true, Some(0), Some(who), started, None, false, 1),
          [Client(Agent, who, pc, Some(Row(0, state, None, None)))], {StartMsg(who, 0)}, false,
          Log(map[0 := 0], if started then {0} else {}, paper, map[]))
  }

  lemma OneMore(steps: seq<Step>, w: World, s: Step, v: World) returns (more: seq<Step>)
    requires Run(steps) == Some(w) && Next(w, s) == Some(v)
    ensures Run(more) == Some(v)
  {
    more := steps + [s];
    assert more[..|steps|] == steps;
  }

  lemma Sole(c: Client)
    ensures forall d: Client :: [d][0 := c] == [c]
    ensures [] + [c] == [c]
  {
  }

  /** The world after a first claim, whose answer the agent has heard. */
  function FirstClaim(who: nat, pc: Pc, row: Option<Row>): World
  {
    World(Claim(NEW_JOB, who).value, [Client(Agent, who, pc, row)], {}, false, Log(map[0 := 0], {}, [], map[]))
  }

  lemma UntilClaimed(who: nat) returns (steps: seq<Step>)
    ensures Run(steps) == Some(FirstClaim(who, Claimed(0), None))
  {
    var c0 := Client(Agent, who, Idle, None);
    Sole(c0);
    Sole(Client(Agent, who, Claimed(0), None));
    var w := World(NEW_JOB, [c0], {}, false, Log(map[], {}, [], map[]));
    steps := OneMore([], NOTHING, Join(Agent, who), w);
    assert map[][0 := 0] == map[0 := 0];
    steps := OneMore(steps, w, Poll(0, true), FirstClaim(who, Claimed(0), None));
  }

  lemma UntilWritten(who: nat) returns (steps: seq<Step>)
    ensures Run(steps) == Some(FirstClaim(who, Asking(0), Some(RowReceived(0))))
  {
    steps := UntilClaimed(who);
    var v := FirstClaim(who, Asking(0), Some(RowReceived(0)));
    Sole(v.clients[0]);
    steps := OneMore(steps, FirstClaim(who, Claimed(0), None), WriteReceived(0), v);
  }

  lemma AskedNext(who: nat)
    ensures Next(FirstClaim(who, Asking(0), Some(RowReceived(0))), AskStart(0))
            == Some(FirstAttempt(who, false, Asking(0), Received, []))
  {
    assert {} + {StartMsg(who, 0)} == {StartMsg(who, 0)};
  }

  lemma UntilAsked(who: nat) returns (steps: seq<Step>)
    ensures Run(steps) == Some(FirstAttempt(who, false, Asking(0), Received, []))
  {
    steps := UntilWritten(who);
    AskedNext(who);
    steps := OneMore(steps, FirstClaim(who, Asking(0), Some(RowReceived(0))), AskStart(0),
                     FirstAttempt(who, false, Asking(0), Received, []));
  }

  lemma FirstMove(who: nat, steps: seq<Step>, started: bool, pc: Pc, state: RowState, paper: seq<nat>, s: Step, pc2: Pc,
                  state2: RowState)
    returns (more: seq<Step>)
    requires Run(steps) == Some(FirstAttempt(who, started, pc, state, paper))
    requires s.WriteStarted? || s.WriteInvoked? || s.CutOff?
    requires Index(s) == Some(0)
    requires Local(Client(Agent, who, pc, Some(Row(0, state, None, None))), s)
             == Some(Client(Agent, who, pc2, Some(Row(0, state2, None, None))))
    ensures Run(more) == Some(FirstAttempt(who, started, pc2, state2, paper))
  {
    var w, v := FirstAttempt(who, started, pc, state, paper), FirstAttempt(who, started, pc2, state2, paper);
    Sole(v.clients[0]);
    more := OneMore(steps, w, s, v);
  }

  lemma UntilAllowed(who: nat) returns (steps: seq<Step>)
    ensures Run(steps) == Some(FirstAttempt(who, true, Allowed(0), Received, []))
  {
    steps := UntilAsked(who);
    var asked := FirstAttempt(who, false, Asking(0), Received, []);
    var allowed := FirstAttempt(who, true, Allowed(0), Received, []);
    Sole(allowed.clients[0]);
    assert {} + {0} == {0};
    steps := OneMore(steps, asked, HearStart(0, true), allowed);
  }

  lemma UntilInvoked(who: nat) returns (steps: seq<Step>)
    ensures Run(steps) == Some(FirstAttempt(who, true, Invoked(0), PrintInvoked, []))
  {
    steps := UntilAllowed(who);
    steps := FirstMove(who, steps, true, Allowed(0), Received, [], WriteStarted(0), Cleared(0), SubmissionStarted);
    steps := FirstMove(who, steps, true, Cleared(0), SubmissionStarted, [], WriteInvoked(0), Invoked(0), PrintInvoked);
  }

  lemma SubmittedNext(who: nat)
    ensures SubmitStep(FirstAttempt(who, true, Invoked(0), PrintInvoked, []), 0)
            == Some(FirstAttempt(who, true, Submitted(0), PrintInvoked, [0]))
  {
    var v := FirstAttempt(who, true, Submitted(0), PrintInvoked, [0]);
    Sole(v.clients[0]);
    assert [] + [0] == [0];
  }

  lemma UntilSubmitted(who: nat) returns (steps: seq<Step>)
    ensures Run(steps) == Some(FirstAttempt(who, true, Submitted(0), PrintInvoked, [0]))
  {
    steps := UntilInvoked(who);
    SubmittedNext(who);
    var w := FirstAttempt(who, true, Invoked(0), PrintInvoked, []);
    assert Next(w, Submit(0)) == SubmitStep(w, 0);
    steps := OneMore(steps, w, Submit(0), FirstAttempt(who, true, Submitted(0), PrintInvoked, [0]));
  }

  /**
   * The bound is met: an agent cut off right after submitting leaves one print and a row that says so.
   */
  lemma CutOffAfterPrint(who: nat) returns (steps: seq<Step>)
    ensures Run(steps) == Some(FirstAttempt(who, true, Idle, PrintInvoked, [0]))
  {
    steps := UntilSubmitted(who);
    steps := FirstMove(who, steps, true, Submitted(0), PrintInvoked, [0], CutOff(0), Idle, PrintInvoked);
  }
}
