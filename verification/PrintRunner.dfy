/**
 * The agent's handling of one job as it is written: durable writes, requests and the print in sequence.
 * Every effect is recorded as an event, and the events are shown to be a path of the client in the protocol.
 */
module PrintRunner {
  import opened Common
  import opened PrintServer
  import opened PrintAgent
  import opened PrintProtocol

  /** What a client does or hears, seen from the client alone. */
  datatype Event =
    | Offered(a: nat)
    | Own(s: Step)
    | StartHeard(granted: bool)
    | PrintCalled
    | ResultWritten
    | ResultHeard(taken: bool)

  function Follow(c: Client, e: Event): Option<Client>
  {
    match e
    case Offered(a) => if c.pc.Idle? then Some(c.(pc := if c.kind.Agent? then Claimed(a) else Asking(a))) else None
    case Own(s) => Local(c, s)
    case StartHeard(granted) =>
      if !(c.pc.Asking? || c.pc.AskingAgain?) then None
      else if granted then Some(c.(pc := if c.pc.Asking? then Allowed(c.pc.a) else AllowedAgain(c.pc.a)))
      else Some(c.(pc := if c.kind.Agent? then Refused(c.pc.a) else Idle))
    case PrintCalled =>
      if c.pc.Invoked? || (c.kind.Browser? && c.pc.Allowed?) then Some(c.(pc := Submitted(c.pc.a))) else None
    case ResultWritten =>
      if !c.pc.Ended? then None
      else
        var row := if c.kind.Agent? then MarkResult(c.row, c.pc.out) else c.row;
        Some(c.(pc := Telling(c.pc.a, c.pc.out), row := row))
    case ResultHeard(taken) =>
      if c.pc.Telling? then Some(c.(pc := if taken && c.kind.Agent? then Told(c.pc.a) else Idle)) else None
  }

  function FollowAll(c: Client, es: seq<Event>): Option<Client>
  {
    if es == [] then Some(c)
    else
      match FollowAll(c, es[..|es| - 1])
      case None => None
      case Some(d) => Follow(d, es[|es| - 1])
  }

  /** The step of the protocol behind an event, given what the server makes of the request. */
  function StepOf(i: nat, e: Event, inLease: bool): Step
  {
    match e
    case Offered(_) => Poll(i, true)
    case Own(s) => if Index(s).Some? then s.(i := i) else s
    case StartHeard(_) => HearStart(i, inLease)
    case PrintCalled => Submit(i)
    case ResultWritten => WriteResult(i)
    case ResultHeard(_) => HearResult(i)
  }

  /** What the server answers in this world, if the event waits for an answer. */
  predicate Answers(w: World, i: nat, e: Event, inLease: bool)
    requires i < |w.clients|
  {
    var c := w.clients[i];
    match e
    case Offered(a) => w.job.status.Pending? && a == w.job.minted && (c.kind.Agent? ==> w.job.automatic)
    case Own(_) => true
    case StartHeard(granted) =>
      (c.pc.Asking? || c.pc.AskingAgain?) && StartMsg(c.who, c.pc.a) in w.sent
      && granted == Start(w.job, c.who, c.pc.a, inLease).Some?
    case PrintCalled => true
    case ResultWritten => true
    case ResultHeard(taken) =>
      c.pc.Telling? && ResultMsg(c.who, c.pc.a, c.pc.out) in w.sent
      && taken == Finish(w.job, c.who, c.pc.a, c.pc.out).Some?
  }

  /** Following an event is taking the step of the protocol: nothing else happens to this client. */
  lemma EventIsStep(w: World, i: nat, e: Event, inLease: bool)
    requires i < |w.clients| && Follow(w.clients[i], e).Some? && Answers(w, i, e, inLease)
    ensures Next(w, StepOf(i, e, inLease)).Some?
    ensures Next(w, StepOf(i, e, inLease)).value.clients == w.clients[i := Follow(w.clients[i], e).value]
    ensures Next(w, StepOf(i, e, inLease)).value.log.paper
            == if e.PrintCalled? then w.log.paper + [w.clients[i].pc.a] else w.log.paper
  {
  }

  datatype Heard = Yes | No | Lost

  datatype PrintEnd = NotCalled | Returned | Threw

  function OutcomeOf(end: PrintEnd): Report
  {
    match end
    case NotCalled => FailedBefore
    case Returned => SubmittedToSpooler
    case Threw => SubmissionUnknown
  }

  class AgentRunner {
    const job: nat
    const who: nat
    const db: AgentDatabase
    ghost var client: Client
    ghost var events: seq<Event>

    constructor (job: nat, who: nat, db: AgentDatabase)
      requires db.At(job).None?
      ensures this.job == job && this.who == who && this.db == db && Valid() && client.pc.Idle?
    {
      this.job := job;
      this.who := who;
      this.db := db;
      client := Client(Agent, who, Idle, None);
      events := [];
    }

    /** What the agent has done so far is a path of one client of the protocol, whose row is the one on disk. */
    ghost predicate Valid()
      reads this, db
    {
      && FollowAll(Client(Agent, who, Idle, None), events) == Some(client)
      && client.kind.Agent? && db.At(job) == client.row
    }

    ghost method Note(e: Event)
      requires FollowAll(Client(Agent, who, Idle, None), events) == Some(client) && Follow(client, e).Some?
      modifies this
      ensures client == Follow(old(client), e).value
      ensures Calls(events) == Calls(old(events)) + if e.PrintCalled? then 1 else 0
      ensures FollowAll(Client(Agent, who, Idle, None), events) == Some(client)
    {
      assert (events + [e])[..|events|] == events;
      client := Follow(client, e).value;
      events := events + [e];
    }

    /** ReportOutcome: first the durable result, then the request, then the acknowledgement. */
    method ReportOutcome(out: Report, answer: Heard, now: int)
      requires Valid() && client.pc.Ended? && client.pc.out == out
      modifies this, db
      ensures Valid() && client.pc.Idle?
      ensures client.row == ReportedRow(old(client.row), out, answer, now)
      ensures Calls(events) == old(Calls(events))
    {
      db.RecordResultKnown(job, out);
      Note(ResultWritten);
      Tell(answer, now);
    }

    /** The request with the recorded result, and the acknowledgement if the server takes it. */
    method Tell(answer: Heard, now: int)
      requires Valid() && client.pc.Telling?
      modifies this, db
      ensures Valid() && client.pc.Idle?
      ensures client.row == if answer.Yes? then MarkAcked(old(client.row), now) else old(client.row)
      ensures Calls(events) == old(Calls(events))
    {
      if answer.Yes? {
        Note(ResultHeard(true));
        db.RecordAcked(job, now);
        Note(Own(WriteAcked(0, now)));
      } else if answer.No? {
        Note(ResultHeard(false));
      } else {
        Note(Own(CutOff(0)));
      }
    }

    /** The request for permission: written down when granted, given up when refused, left as it is when lost. */
    method AskPermission(start: Heard, now: int) returns (go: bool)
      requires Valid() && (client.pc.Asking? || client.pc.AskingAgain?)
      modifies this, db
      ensures Valid() && go == start.Yes? && Calls(events) == old(Calls(events))
      ensures !go ==> client.pc.Idle?
      ensures go ==> client.pc == if old(client.pc.Asking?) then Cleared(old(client.pc.a))
                                  else Ended(old(client.pc.a), SubmissionUnknown)
      ensures client.row == match start
                            case Lost => old(client.row)
                            case No => MarkAcked(old(client.row), now)
                            case Yes => MarkStarted(old(client.row))
    {
      go := false;
      match start
      case Lost => Note(Own(CutOff(0)));
      case No =>
        Note(StartHeard(false));
        db.RecordAcked(job, now);
        Note(Own(WriteAcked(0, now)));
      case Yes =>
        Note(StartHeard(true));
        db.RecordSubmissionStarted(job);
        Note(Own(WriteStarted(0)));
        go := true;
    }

    /** ProcessReceivedJob, from the request for permission to the reported outcome. */
    method ProcessReceivedJob(start: Heard, clear: bool, end: PrintEnd, answer: Heard, now: int) returns (called: bool)
      requires Valid() && client.pc.Asking?
      modifies this, db
      ensures Valid() && client.pc.Idle?
      ensures called <==> start.Yes? && clear && !end.NotCalled?
      ensures Calls(events) == old(Calls(events)) + if called then 1 else 0
      ensures client.row == match start
                            case Lost => old(client.row)
                            case No => MarkAcked(old(client.row), now)
                            case Yes =>
                              var row := MarkStarted(old(client.row));
                              if clear then ReportedRow(MarkInvoked(row), OutcomeOf(end), answer, now)
                              else ReportedRow(row, FailedBefore, answer, now)
    {
      called := false;
      var go := AskPermission(start, now);
      if !go {
        return;
      }
      if !clear {
        Note(Own(Decline(0)));
        ReportOutcome(FailedBefore, answer, now);
        return;
      }
      db.RecordPrintInvoked(job);
      Note(Own(WriteInvoked(0)));
      called := Print(end);
      ReportOutcome(OutcomeOf(end), answer, now);
    }

    /** WindowsPrinter.Print as the agent sees it: submitted or not, returned or thrown. */
    method Print(end: PrintEnd) returns (called: bool)
      requires Valid() && client.pc.Invoked?
      modifies this
      ensures Valid() && client.pc.Ended? && client.pc.out == OutcomeOf(end) && client.row == old(client.row)
      ensures called <==> !end.NotCalled?
      ensures Calls(events) == old(Calls(events)) + if called then 1 else 0
    {
      called := !end.NotCalled?;
      if called {
        Note(PrintCalled);
        Note(Own(Return(0, end.Threw?)));
      } else {
        Note(Own(FailEarly(0, false)));
      }
    }

    /** HandleJob: the offer is written down before anything else. */
    method HandleJob(a: nat, start: Heard, clear: bool, end: PrintEnd, answer: Heard, now: int) returns (called: bool)
      requires Valid() && client.pc.Idle?
      modifies this, db
      ensures Valid() && client.pc.Idle?
      ensures called <==> start.Yes? && clear && !end.NotCalled?
      ensures Calls(events) == old(Calls(events)) + if called then 1 else 0
      ensures client.row.Some? && client.row.value.attempt == a
      ensures client.row.value.state.Acked? <==> start.No? || (start.Yes? && answer.Yes?)
    {
      Note(Offered(a));
      db.RecordReceived(job, a);
      Note(Own(WriteReceived(0)));
      called := ProcessReceivedJob(start, clear, end, answer, now);
    }

    /** ReconcileOnStartup for this job's row: never a print, and never a second story. */
    method ReconcileRow(start: Heard, answer: Heard, now: int)
      requires Valid() && client.pc.Idle? && client.row.Some? && !client.row.value.state.Acked?
      requires client.row.value.state.ResultKnown? ==> client.row.value.result.Some?
      modifies this, db
      ensures Valid() && client.pc.Idle?
      ensures Calls(events) == old(Calls(events))
      ensures client.row.Some? && client.row.value.attempt == old(client.row.value.attempt)
      ensures client.row == Reconciled(old(client.row), start, answer, now)
    {
      var row := db.At(job).value;
      Note(Own(Reconcile(0)));
      match row.state
      case Received =>
        var go := AskPermission(start, now);
        if go {
          ReportOutcome(SubmissionUnknown, answer, now);
        }
      case SubmissionStarted => ReportOutcome(SubmissionUnknown, answer, now);
      case PrintInvoked => ReportOutcome(SubmissionUnknown, answer, now);
      case ResultKnown => Tell(answer, now);
    }
  }

  /** How often the events put something on paper. */
  ghost function Calls(es: seq<Event>): nat
  {
    if es == [] then 0 else Calls(es[..|es| - 1]) + if es[|es| - 1].PrintCalled? then 1 else 0
  }

  function ReportedRow(row: Option<Row>, out: Report, answer: Heard, now: int): Option<Row>
  {
    if answer.Yes? then MarkAcked(MarkResult(row, out), now) else MarkResult(row, out)
  }

  function Reconciled(row: Option<Row>, start: Heard, answer: Heard, now: int): Option<Row>
    requires row.Some?
  {
    match row.value.state
    case Received =>
      if start.Lost? then row
      else if start.No? then MarkAcked(row, now)
      else ReportedRow(MarkStarted(row), SubmissionUnknown, answer, now)
    case ResultKnown => if answer.Yes? then MarkAcked(row, now) else row
    case Acked => row
    case _ => ReportedRow(row, SubmissionUnknown, answer, now)
  }
}
