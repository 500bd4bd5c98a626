/**
 * The protocol gets somewhere: from every reachable world in which a job is on offer, an idle agent that is not
 * interrupted handles it to its verdict; what failed, was never started or stays unknown can be taken further.
 */
module PrintProgress {
  import opened Common
  import opened PrintServer
  import opened PrintAgent
  import opened PrintProtocol
  import opened PrintRuns
  import opened PrintRunner

  /** The job is with client i, an agent at this point of attempt a. */
  ghost predicate With(w: World, i: nat, a: nat, pc: Pc, started: bool)
  {
    && i < |w.clients| && w.clients[i].kind.Agent? && w.clients[i].pc == pc && w.clients[i].row.Some?
    && w.clients[i].row.value.attempt == a
    && w.job.status.Printing? && w.job.attempt == Some(a) && w.job.holder == Some(w.clients[i].who)
    && w.job.started == started && w.job.outcome.None?
  }

  lemma Onward(steps: seq<Step>, s: Step) returns (more: seq<Step>)
    requires Run(steps).Some? && Next(Run(steps).value, s).Some?
    ensures more == steps + [s] && Run(more) == Next(Run(steps).value, s)
  {
    more := OneMore(steps, Run(steps).value, s, Next(Run(steps).value, s).value);
    more := steps + [s];
    assert more[..|steps|] == steps;
  }

  /** Offered, taken and written down. */
  lemma Taken(steps: seq<Step>, i: nat) returns (more: seq<Step>)
    requires Run(steps).Some? && Offerable(Run(steps).value, i)
    ensures steps <= more && Run(more).Some?
    ensures var w, v := Run(steps).value, Run(more).value;
            With(v, i, w.job.minted, Asking(w.job.minted), false) && v.log.paper == w.log.paper
  {
    more := Onward(steps, Poll(i, true));
    var next := Onward(more, WriteReceived(i));
    more := next;
  }

  lemma AskedFor(w: World, i: nat, a: nat) returns (v: World)
    requires With(w, i, a, Asking(a), false)
    ensures Next(w, AskStart(i)) == Some(v) && With(v, i, a, Asking(a), false)
    ensures StartMsg(w.clients[i].who, a) in v.sent && v.log.paper == w.log.paper && v.job == w.job
  {
    v := Next(w, AskStart(i)).value;
  }

  lemma Heard(w: World, i: nat, a: nat) returns (v: World)
    requires With(w, i, a, Asking(a), false) && StartMsg(w.clients[i].who, a) in w.sent
    ensures Next(w, HearStart(i, true)) == Some(v) && With(v, i, a, Allowed(a), true)
    ensures v.log.paper == w.log.paper && v.job == w.job.(started := true)
  {
    v := Next(w, HearStart(i, true)).value;
  }

  lemma Noted(w: World, i: nat, a: nat) returns (v: World)
    requires With(w, i, a, Allowed(a), true)
    ensures Next(w, WriteStarted(i)) == Some(v) && With(v, i, a, Cleared(a), true)
    ensures v.log.paper == w.log.paper && v.job == w.job
  {
    v := Next(w, WriteStarted(i)).value;
  }

  lemma Entering(w: World, i: nat, a: nat) returns (v: World)
    requires With(w, i, a, Cleared(a), true)
    ensures Next(w, WriteInvoked(i)) == Some(v) && With(v, i, a, Invoked(a), true)
    ensures v.log.paper == w.log.paper && v.job == w.job
  {
    v := Next(w, WriteInvoked(i)).value;
  }

  /** Asked for and permitted, written down, and the printer about to be called. */
  lemma Permitted(steps: seq<Step>, i: nat, a: nat) returns (more: seq<Step>)
    requires Run(steps).Some? && With(Run(steps).value, i, a, Asking(a), false)
    ensures steps <= more && Run(more).Some?
    ensures With(Run(more).value, i, a, Invoked(a), true) && Run(more).value.log.paper == Run(steps).value.log.paper
    ensures Run(more).value.job == Run(steps).value.job.(started := true)
  {
    var w1 := AskedFor(Run(steps).value, i, a);
    var asked := Onward(steps, AskStart(i));
    var w2 := Heard(w1, i, a);
    var heard := Onward(asked, HearStart(i, true));
    var w3 := Noted(w2, i, a);
    var written := Onward(heard, WriteStarted(i));
    var w4 := Entering(w3, i, a);
    more := Onward(written, WriteInvoked(i));
  }

  lemma NotEntered(w: World, i: nat, a: nat) returns (v: World)
    requires With(w, i, a, Invoked(a), true)
    ensures Next(w, FailEarly(i, false)) == Some(v) && With(v, i, a, Ended(a, FailedBefore), true)
    ensures v.log.paper == w.log.paper && v.job == w.job
  {
    v := Next(w, FailEarly(i, false)).value;
  }

  lemma OnPaper(w: World, i: nat, a: nat) returns (v: World)
    requires With(w, i, a, Invoked(a), true)
    ensures Next(w, Submit(i)) == Some(v) && With(v, i, a, Submitted(a), true)
    ensures v.log.paper == w.log.paper + [a] && v.job == w.job
  {
    v := Next(w, Submit(i)).value;
  }

  lemma CameBack(w: World, i: nat, a: nat, threw: bool) returns (v: World)
    requires With(w, i, a, Submitted(a), true)
    ensures Next(w, Return(i, threw)) == Some(v)
    ensures With(v, i, a, Ended(a, if threw then SubmissionUnknown else SubmittedToSpooler), true)
    ensures v.log.paper == w.log.paper && v.job == w.job
  {
    v := Next(w, Return(i, threw)).value;
  }

  /** The printer is called, or not, and comes back or throws. */
  lemma Called(steps: seq<Step>, i: nat, a: nat, end: PrintEnd) returns (more: seq<Step>)
    requires Run(steps).Some? && With(Run(steps).value, i, a, Invoked(a), true)
    ensures steps <= more && Run(more).Some? && With(Run(more).value, i, a, Ended(a, OutcomeOf(end)), true)
    ensures Run(more).value.log.paper == Run(steps).value.log.paper + if end.NotCalled? then [] else [a]
    ensures Run(more).value.job == Run(steps).value.job
  {
    if end.NotCalled? {
      var w := NotEntered(Run(steps).value, i, a);
      more := Onward(steps, FailEarly(i, false));
    } else {
      var w1 := OnPaper(Run(steps).value, i, a);
      var printed := Onward(steps, Submit(i));
      var w2 := CameBack(w1, i, a, end.Threw?);
      more := Onward(printed, Return(i, end.Threw?));
    }
  }

  /** The outcome is written and on its way, and the job still waits for it. */
  ghost predicate Awaited(w: World, i: nat, a: nat, out: Report)
  {
    With(w, i, a, Telling(a, out), true) && ResultMsg(w.clients[i].who, a, out) in w.sent
  }

  lemma Recorded(w: World, i: nat, a: nat, out: Report) returns (v: World)
    requires With(w, i, a, Ended(a, out), true)
    ensures Next(w, WriteResult(i)) == Some(v) && With(v, i, a, Telling(a, out), true)
    ensures v.job == w.job && v.log.paper == w.log.paper
  {
    v := Next(w, WriteResult(i)).value;
  }

  lemma OnItsWay(w: World, i: nat, a: nat, out: Report) returns (v: World)
    requires With(w, i, a, Telling(a, out), true)
    ensures Next(w, TellResult(i)) == Some(v) && Awaited(v, i, a, out)
    ensures v.job == w.job && v.log.paper == w.log.paper
  {
    v := Next(w, TellResult(i)).value;
  }

  lemma Told(steps: seq<Step>, i: nat, a: nat, out: Report) returns (more: seq<Step>)
    requires Run(steps).Some? && With(Run(steps).value, i, a, Ended(a, out), true)
    ensures steps <= more && Run(more).Some? && Awaited(Run(more).value, i, a, out)
    ensures Run(more).value.job == Run(steps).value.job && Run(more).value.log.paper == Run(steps).value.log.paper
  {
    var w1 := Recorded(Run(steps).value, i, a, out);
    var recorded := Onward(steps, WriteResult(i));
    var w2 := OnItsWay(w1, i, a, out);
    more := Onward(recorded, TellResult(i));
  }

  /** What the server makes of the job once it has taken this result. */
  function Judged(j: Job, out: Report): Job { j.(status := StatusAfter(out), outcome := Some(out)) }

  lemma TakenByServer(w: World, i: nat, a: nat, out: Report) returns (v: World)
    requires Awaited(w, i, a, out)
    ensures Next(w, HearResult(i)) == Some(v) && v.job == Judged(w.job, out) && v.log.paper == w.log.paper
    ensures |v.clients| == |w.clients| && v.clients[i] == w.clients[i].(pc := PrintProtocol.Told(a))
  {
    v := Next(w, HearResult(i)).value;
  }

  /** The result is taken by the server, and acknowledged. */
  lemma Reported(steps: seq<Step>, i: nat, a: nat, out: Report) returns (more: seq<Step>)
    requires Run(steps).Some? && Awaited(Run(steps).value, i, a, out)
    ensures steps <= more && Run(more).Some? && Acknowledged(Run(more).value, i)
    ensures Run(more).value.job == Judged(Run(steps).value.job, out)
    ensures Run(more).value.log.paper == Run(steps).value.log.paper
  {
    var w := TakenByServer(Run(steps).value, i, a, out);
    more := Onward(steps, HearResult(i));
    var acked := Onward(more, WriteAcked(i, 0));
    more := acked;
  }

  /** The agent has nothing left to do about the job. */
  ghost predicate Acknowledged(w: World, i: nat)
  {
    i < |w.clients| && w.clients[i].pc.Idle? && w.clients[i].row.Some? && w.clients[i].row.value.state.Acked?
  }

  /** An agent that can take the job. */
  ghost predicate Offerable(w: World, i: nat)
  {
    i < |w.clients| && w.clients[i].kind.Agent? && w.clients[i].pc.Idle? && w.job.status.Pending? && w.job.automatic
  }

  /**
   * From every reachable world with the job on offer, an idle agent can handle it to its verdict: printed when the
   * printer returns, unknown when it throws, failed when it was never called. The attempt is on paper exactly in
   * the first two, and the agent's row ends acknowledged.
   */
  lemma HandledToItsVerdict(steps: seq<Step>, i: nat, end: PrintEnd) returns (more: seq<Step>)
    requires Run(steps).Some? && Offerable(Run(steps).value, i)
    ensures steps <= more && Run(more).Some? && Acknowledged(Run(more).value, i)
    ensures var a, v := Run(steps).value.job.minted, Run(more).value;
            v.job.attempt == Some(a) && v.log.paper == (if end.NotCalled? then [] else [a])
            && v.job.status == match end case Returned => Printed case Threw => Unknown case NotCalled => Failed
    ensures end.NotCalled? ==> Run(more).value.job.outcome == Some(FailedBefore)
  {
    var a := Run(steps).value.job.minted;
    HonestVerdict(steps);
    var taken := Taken(steps, i);
    var permitted := Permitted(taken, i, a);
    var called := Called(permitted, i, a, end);
    var told := Told(called, i, a, OutcomeOf(end));
    more := Reported(told, i, a, OutcomeOf(end));
    JudgedIs(Run(told).value.job, end);
  }

  lemma JudgedIs(j: Job, end: PrintEnd)
    ensures Judged(j, OutcomeOf(end)).status
            == match end case Returned => Printed case Threw => Unknown case NotCalled => Failed
  {
  }

  /** A job that failed before submission can be put on offer again. */
  lemma FailedIsOfferedAgain(steps: seq<Step>, automatic: bool) returns (more: seq<Step>)
    requires Run(steps).Some? && Run(steps).value.job.status.Failed?
             && Run(steps).value.job.outcome == Some(FailedBefore)
    ensures steps <= more && Run(more).Some? && Run(more).value.job.status.Pending? && Run(more).value.log.paper == []
    ensures Run(more).value.job.automatic == (Run(steps).value.job.automatic && automatic)
  {
    more := Onward(steps, Server(Offer(automatic)));
    HonestVerdict(more);
  }

  /** A claim that was never started is swept back onto the offer. */
  lemma UnstartedIsSweptBack(steps: seq<Step>) returns (more: seq<Step>)
    requires Run(steps).Some?
    requires var j := Run(steps).value.job; j.status.Printing? && j.attempt.Some? && !j.started
    ensures steps <= more && Run(more).Some? && Run(more).value.job.status.Pending? && Run(more).value.log.paper == []
  {
    more := Onward(steps, Server(Sweep));
    HonestVerdict(more);
  }

  /** A submission nobody reports becomes unknown, and once an operator has seen that, the operator's word stands. */
  lemma SilenceIsSettled(steps: seq<Step>) returns (more: seq<Step>)
    requires Run(steps).Some? && Run(steps).value.job.status.Printing? && Run(steps).value.job.started
    ensures steps <= more && Run(more).Some?
    ensures Run(more).value.job.status.Printed? && Run(more).value.job.confirmed
    ensures Run(more).value.log.paper == Run(steps).value.log.paper
  {
    more := Onward(steps, Server(SweepLate));
    var seen := Onward(more, SeeUnknown);
    more := Onward(seen, Server(Settle));
  }

  // ---------------------------------------------------------------- after a restart

  /** An agent that has stopped at this row, while the server still waits for the attempt. */
  ghost predicate Left(w: World, i: nat, state: RowState)
  {
    && i < |w.clients| && w.clients[i].row.Some? && w.clients[i].row.value.state == state
    && With(w, i, w.clients[i].row.value.attempt, Idle, !state.Received?)
  }

  /** Where a restart takes the row up. */
  function Resumed(row: Row): Pc
  {
    match row.state
    case Received => AskingAgain(row.attempt)
    case ResultKnown => if row.result.Some? then Telling(row.attempt, row.result.value) else Idle
    case Acked => Idle
    case _ => Ended(row.attempt, SubmissionUnknown)
  }

  lemma Restarted(steps: seq<Step>, i: nat, state: RowState) returns (more: seq<Step>)
    requires Run(steps).Some? && Left(Run(steps).value, i, state) && !state.Acked?
    ensures steps <= more && Run(more).Some?
    ensures var row := Run(steps).value.clients[i].row.value;
            With(Run(more).value, i, row.attempt, Resumed(row), !state.Received?)
            && Run(more).value.clients[i].row == Some(row) && (state.ResultKnown? ==> row.result.Some?)
    ensures Run(more).value.log.paper == Run(steps).value.log.paper
  {
    PrintRuns.RunKeeps(steps);
    assert ClientOk(Run(steps).value.log, Run(steps).value.job, i, Run(steps).value.clients[i]);
    more := Onward(steps, Reconcile(i));
  }

  lemma AskedAgain(w: World, i: nat, a: nat) returns (v: World)
    requires With(w, i, a, AskingAgain(a), false)
    ensures Next(w, AskStart(i)) == Some(v) && With(v, i, a, AskingAgain(a), false)
    ensures StartMsg(w.clients[i].who, a) in v.sent && v.log.paper == w.log.paper
  {
    v := Next(w, AskStart(i)).value;
  }

  lemma HeardAgain(w: World, i: nat, a: nat) returns (v: World)
    requires With(w, i, a, AskingAgain(a), false) && StartMsg(w.clients[i].who, a) in w.sent
    ensures Next(w, HearStart(i, true)) == Some(v) && With(v, i, a, AllowedAgain(a), true)
    ensures v.log.paper == w.log.paper
  {
    v := Next(w, HearStart(i, true)).value;
  }

  lemma NotedAgain(w: World, i: nat, a: nat) returns (v: World)
    requires With(w, i, a, AllowedAgain(a), true)
    ensures Next(w, WriteStarted(i)) == Some(v) && With(v, i, a, Ended(a, SubmissionUnknown), true)
    ensures v.log.paper == w.log.paper
  {
    v := Next(w, WriteStarted(i)).value;
  }

  lemma PermittedAgain(steps: seq<Step>, i: nat, a: nat) returns (more: seq<Step>)
    requires Run(steps).Some? && With(Run(steps).value, i, a, AskingAgain(a), false)
    ensures steps <= more && Run(more).Some? && With(Run(more).value, i, a, Ended(a, SubmissionUnknown), true)
    ensures Run(more).value.log.paper == Run(steps).value.log.paper
  {
    var w1 := AskedAgain(Run(steps).value, i, a);
    var asked := Onward(steps, AskStart(i));
    var w2 := HeardAgain(w1, i, a);
    var heard := Onward(asked, HearStart(i, true));
    var w3 := NotedAgain(w2, i, a);
    more := Onward(heard, WriteStarted(i));
  }

  lemma ToldAgain(steps: seq<Step>, i: nat, a: nat, out: Report) returns (more: seq<Step>)
    requires Run(steps).Some? && With(Run(steps).value, i, a, Telling(a, out), true)
    ensures steps <= more && Run(more).Some? && Awaited(Run(more).value, i, a, out)
    ensures Run(more).value.log.paper == Run(steps).value.log.paper
  {
    var w := OnItsWay(Run(steps).value, i, a, out);
    more := Onward(steps, TellResult(i));
  }

  /** What a restart reports: the result on disk, or, short of one, that it does not know. */
  function ReportOf(row: Row): Report
  {
    if row.state.ResultKnown? && row.result.Some? then row.result.value else SubmissionUnknown
  }

  /** From where a restart takes the row up, to the result on its way. */
  lemma ResumedTells(steps: seq<Step>, i: nat, row: Row) returns (more: seq<Step>)
    requires Run(steps).Some? && With(Run(steps).value, i, row.attempt, Resumed(row), !row.state.Received?)
    requires !row.state.Acked? && (row.state.ResultKnown? ==> row.result.Some?)
    ensures steps <= more && Run(more).Some? && Awaited(Run(more).value, i, row.attempt, ReportOf(row))
    ensures Run(more).value.log.paper == Run(steps).value.log.paper
  {
    match row.state {
      case Received =>
        var ended := PermittedAgain(steps, i, row.attempt);
        more := Told(ended, i, row.attempt, SubmissionUnknown);
      case ResultKnown => more := ToldAgain(steps, i, row.attempt, row.result.value);
      case _ => more := Told(steps, i, row.attempt, SubmissionUnknown);
    }
  }

  /**
   * A restart brings every unacknowledged row to its end: wherever the agent was cut off, while the server still
   * waits for the attempt, it prints nothing more and reports the result on disk, or else that it does not know;
   * the server takes that, and the row is acknowledged.
   */
  lemma RestartReports(steps: seq<Step>, i: nat, state: RowState) returns (more: seq<Step>)
    requires Run(steps).Some? && Left(Run(steps).value, i, state) && !state.Acked?
    ensures steps <= more && Run(more).Some? && Acknowledged(Run(more).value, i)
    ensures Run(more).value.log.paper == Run(steps).value.log.paper
    ensures var row := Run(steps).value.clients[i].row.value;
            Run(more).value.job.outcome == if state.ResultKnown? then row.result else Some(SubmissionUnknown)
  {
    var row := Run(steps).value.clients[i].row.value;
    var restarted := Restarted(steps, i, state);
    var told := ResumedTells(restarted, i, row);
    more := Reported(told, i, row.attempt, ReportOf(row));
  }
}
