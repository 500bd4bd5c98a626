/**
 * One print job among any number of agents and browsers. A step is one statement with an effect: a
 * durable write, a request, its processing by the server (answered, or so late that nobody hears it),
 * the physical print. A client may be cut off between any two steps; an agent then finds its row again.
 */
module PrintProtocol {
  import opened Common
  import opened PrintServer
  import opened PrintAgent

  datatype Kind = Agent | Browser

  datatype Pc =
    | Idle
    | Claimed(a: nat)              // the claim has been answered, nothing is written yet
    | Asking(a: nat)               // asking for permission to submit
    | AskingAgain(a: nat)          // the same after a restart
    | Refused(a: nat)
    | Allowed(a: nat)              // permission has been heard, nothing is written yet
    | AllowedAgain(a: nat)
    | Cleared(a: nat)              // the permission is on disk
    | Invoked(a: nat)              // inside Print, before the document is submitted
    | Submitted(a: nat)            // the document has been submitted
    | Ended(a: nat, out: Report)   // the outcome is known in memory only
    | Telling(a: nat, out: Report)
    | Told(a: nat)

  datatype Client = Client(kind: Kind, who: nat, pc: Pc, row: Option<Row>)

  datatype Msg = StartMsg(who: nat, a: nat) | ResultMsg(who: nat, a: nat, out: Report)

  /** What has happened so far: whose attempt is whose, which were permitted, submitted, reported. */
  datatype Log = Log(owner: map<nat, nat>, granted: set<nat>, paper: seq<nat>, reported: map<nat, Report>)

  datatype World = World(job: Job, clients: seq<Client>, sent: set<Msg>, seenUnknown: bool, log: Log)

  datatype Step =
    | Join(kind: Kind, who: nat)
    | Poll(i: nat, heard: bool)
    | WriteReceived(i: nat)
    | AskStart(i: nat)
    | HearStart(i: nat, inLease: bool)
    | LateStart(m: Msg, inLease: bool)
    | WriteStarted(i: nat)
    | Decline(i: nat)
    | WriteInvoked(i: nat)
    | FailEarly(i: nat, named: bool)
    | Submit(i: nat)
    | Return(i: nat, threw: bool)
    | WriteResult(i: nat)
    | TellResult(i: nat)
    | HearResult(i: nat)
    | LateResult(m: Msg)
    | WriteAcked(i: nat, now: int)
    | CutOff(i: nat)
    | Reconcile(i: nat)
    | Prune(i: nat, cutoff: int)
    | Server(u: Upkeep)
    | SeeUnknown

  // ---------------------------------------------------------------- one client's own moves

  function Mine(w: World, i: nat, c: Client): World
    requires i < |w.clients|
  {
    w.(clients := w.clients[i := c])
  }

  /** The moves that change nothing but the client and, for a result, what has been reported. */
  function Local(c: Client, s: Step): Option<Client>
  {
    match s
    case WriteReceived(_) =>
      if c.pc.Claimed? then Some(c.(pc := Asking(c.pc.a), row := Some(RowReceived(c.pc.a)))) else None
    case WriteStarted(_) =>
      if c.kind.Agent? && c.pc.Allowed? then Some(c.(pc := Cleared(c.pc.a), row := MarkStarted(c.row)))
      else if c.pc.AllowedAgain? then Some(c.(pc := Ended(c.pc.a, SubmissionUnknown), row := MarkStarted(c.row)))
      else None
    case Decline(_) => if c.pc.Cleared? then Some(c.(pc := Ended(c.pc.a, FailedBefore))) else None
    case WriteInvoked(_) =>
      if c.pc.Cleared? then Some(c.(pc := Invoked(c.pc.a), row := MarkInvoked(c.row))) else None
    case FailEarly(_, named) =>
      if c.pc.Invoked? then Some(c.(pc := Ended(c.pc.a, FailedBefore)))
      else if c.kind.Browser? && c.pc.Allowed? then
        Some(c.(pc := Ended(c.pc.a, if named then FailedBefore else SubmissionUnknown)))
      else None
    case Return(_, threw) =>
      if c.pc.Submitted? then
        Some(c.(pc := Ended(c.pc.a, if threw then SubmissionUnknown
                                    else if c.kind.Agent? then SubmittedToSpooler else TransportCompleted)))
      else None
    case WriteAcked(_, now) =>
      if c.kind.Agent? && (c.pc.Told? || c.pc.Refused?) then Some(c.(pc := Idle, row := MarkAcked(c.row, now)))
      else None
    case CutOff(_) => Some(c.(pc := Idle))
    case Reconcile(_) =>
      if c.kind.Agent? && c.pc.Idle? && c.row.Some? then
        match c.row.value.state
        case Received => Some(c.(pc := AskingAgain(c.row.value.attempt)))
        case SubmissionStarted => Some(c.(pc := Ended(c.row.value.attempt, SubmissionUnknown)))
        case PrintInvoked => Some(c.(pc := Ended(c.row.value.attempt, SubmissionUnknown)))
        case ResultKnown =>
          if c.row.value.result.None? then None
          else Some(c.(pc := Telling(c.row.value.attempt, c.row.value.result.value)))
        case Acked => None
      else None
    case Prune(_, cutoff) =>
      if c.kind.Agent? && c.pc.Idle? && c.row.Some? && Prunable(c.row.value, cutoff) then Some(c.(row := None))
      else None
    case _ => None
  }

  function Index(s: Step): Option<nat>
  {
    match s
    case Join(_, _) => None
    case LateStart(_, _) => None
    case LateResult(_) => None
    case Server(_) => None
    case SeeUnknown => None
    case _ => Some(s.i)
  }

  // ---------------------------------------------------------------- the moves that reach further

  function PollStep(w: World, i: nat, heard: bool): Option<World>
    requires i < |w.clients|
  {
    var c := w.clients[i];
    if !c.pc.Idle? || (c.kind.Agent? && !w.job.automatic) then None
    else
      match Claim(w.job, c.who)
      case None => None
      case Some(j) =>
        var a := w.job.minted;
        if heard then
          Some(World(j, w.clients[i := c.(pc := if c.kind.Agent? then Claimed(a) else Asking(a))],
                     w.sent, w.seenUnknown, w.log.(owner := w.log.owner[a := i])))
        else Some(w.(job := j))
  }

  function Grant(w: World, j: Job, a: nat): World { w.(job := j, log := w.log.(granted := w.log.granted + {a})) }

  /** The server works off a start request; its answer goes to whoever is still listening. */
  function ServeStart(w: World, m: Msg, inLease: bool): Option<World>
    requires m.StartMsg?
  {
    match Start(w.job, m.who, m.a, inLease)
    case None => None
    case Some(j) => Some(Grant(w, j, m.a))
  }

  function HearStartStep(w: World, i: nat, inLease: bool): Option<World>
    requires i < |w.clients|
  {
    var c := w.clients[i];
    if !(c.pc.Asking? || c.pc.AskingAgain?) || StartMsg(c.who, c.pc.a) !in w.sent then None
    else
      match ServeStart(w, StartMsg(c.who, c.pc.a), inLease)
      case Some(v) => Some(Mine(v, i, c.(pc := if c.pc.Asking? then Allowed(c.pc.a) else AllowedAgain(c.pc.a))))
      case None => Some(Mine(w, i, c.(pc := if c.kind.Agent? then Refused(c.pc.a) else Idle)))
  }

  function SubmitStep(w: World, i: nat): Option<World>
    requires i < |w.clients|
  {
    var c := w.clients[i];
    if c.pc.Invoked? || (c.kind.Browser? && c.pc.Allowed?) then
      Some(Mine(w, i, c.(pc := Submitted(c.pc.a))).(log := w.log.(paper := w.log.paper + [c.pc.a])))
    else None
  }

  /** The outcome is written down, then told: an agent writes its row, a browser only remembers. */
  function WriteResultStep(w: World, i: nat): Option<World>
    requires i < |w.clients|
  {
    var c := w.clients[i];
    if !c.pc.Ended? then None
    else
      var row := if c.kind.Agent? then MarkResult(c.row, c.pc.out) else c.row;
      Some(Mine(w, i, c.(pc := Telling(c.pc.a, c.pc.out), row := row))
             .(log := w.log.(reported := w.log.reported[c.pc.a := c.pc.out])))
  }

  function HearResultStep(w: World, i: nat): Option<World>
    requires i < |w.clients|
  {
    var c := w.clients[i];
    if !c.pc.Telling? || ResultMsg(c.who, c.pc.a, c.pc.out) !in w.sent then None
    else
      match Finish(w.job, c.who, c.pc.a, c.pc.out)
      case Some(j) => Some(Mine(w, i, c.(pc := if c.kind.Agent? then Told(c.pc.a) else Idle)).(job := j))
      case None => Some(Mine(w, i, c.(pc := Idle)))
  }

  function ServerStep(w: World, u: Upkeep): Option<World>
  {
    if u.Settle? && !w.seenUnknown then None
    else match Keep(w.job, u) case None => None case Some(j) => Some(w.(job := j))
  }

  function Next(w: World, s: Step): Option<World>
  {
    if Index(s).Some? && Index(s).value >= |w.clients| then None
    else
      match s
      case Join(kind, who) => Some(w.(clients := w.clients + [Client(kind, who, Idle, None)]))
      case Poll(i, heard) => PollStep(w, i, heard)
      case AskStart(i) =>
        if w.clients[i].pc.Asking? || w.clients[i].pc.AskingAgain?
        then Some(w.(sent := w.sent + {StartMsg(w.clients[i].who, w.clients[i].pc.a)})) else None
      case HearStart(i, inLease) => HearStartStep(w, i, inLease)
      case LateStart(m, inLease) => if m in w.sent && m.StartMsg? then ServeStart(w, m, inLease) else None
      case Submit(i) => SubmitStep(w, i)
      case WriteResult(i) => WriteResultStep(w, i)
      case TellResult(i) =>
        if w.clients[i].pc.Telling?
        then Some(w.(sent := w.sent + {ResultMsg(w.clients[i].who, w.clients[i].pc.a, w.clients[i].pc.out)})) else None
      case HearResult(i) => HearResultStep(w, i)
      case LateResult(m) =>
        if m in w.sent && m.ResultMsg? then
          match Finish(w.job, m.who, m.a, m.out) case None => None case Some(j) => Some(w.(job := j))
        else None
      case Server(u) => ServerStep(w, u)
      case SeeUnknown => if w.job.status.Unknown? then Some(w.(seenUnknown := true)) else None
      case _ =>
        match Local(w.clients[s.i], s) case None => None case Some(c) => Some(Mine(w, s.i, c))
  }

  // ---------------------------------------------------------------- the invariant

  /** This client may still put the attempt on paper. */
  predicate MayPrint(c: Client)
  {
    c.pc.Allowed? || c.pc.Cleared? || c.pc.Invoked?
  }

  ghost predicate Clean(log: Log, a: nat) { a !in log.paper && a !in log.reported }

  ghost predicate Owned(log: Log, i: nat, a: nat) { a in log.owner && log.owner[a] == i }

  /** An outcome that may be told for an attempt. */
  ghost predicate Honest(log: Log, a: nat, out: Report)
  {
    && (out.FailedBefore? ==> a !in log.paper)
    && (out.SubmittedToSpooler? || out.TransportCompleted? ==> a in log.paper)
  }

  /** What the row of an agent says about what has happened. */
  ghost predicate RowOk(log: Log, i: nat, row: Row)
  {
    Owned(log, i, row.attempt)
    && match row.state
       case Received => Clean(log, row.attempt)
       case SubmissionStarted => Clean(log, row.attempt)
       case PrintInvoked => row.attempt !in log.reported
       case ResultKnown => row.attempt in log.reported && row.result == Some(log.reported[row.attempt])
       case Acked => true
  }

  ghost predicate RowIs(c: Client, a: nat, states: set<RowState>)
  {
    c.kind.Agent? ==> c.row.Some? && c.row.value.attempt == a && c.row.value.state in states
  }

  ghost predicate PcOk(log: Log, i: nat, c: Client)
  {
    match c.pc
    case Idle => true
    case Claimed(a) => c.kind.Agent? && Owned(log, i, a) && Clean(log, a) && (c.row.Some? ==> c.row.value.attempt != a)
    case Asking(a) => Owned(log, i, a) && Clean(log, a) && RowIs(c, a, {Received})
    case AskingAgain(a) => c.kind.Agent? && Owned(log, i, a) && Clean(log, a) && RowIs(c, a, {Received})
    case Refused(a) => Owned(log, i, a) && RowIs(c, a, {Received})
    case Allowed(a) => Owned(log, i, a) && Clean(log, a) && RowIs(c, a, {Received})
    case AllowedAgain(a) => c.kind.Agent? && Owned(log, i, a) && Clean(log, a) && RowIs(c, a, {Received})
    case Cleared(a) => c.kind.Agent? && Owned(log, i, a) && Clean(log, a) && RowIs(c, a, {SubmissionStarted})
    case Invoked(a) => c.kind.Agent? && Owned(log, i, a) && Clean(log, a) && RowIs(c, a, {PrintInvoked})
    case Submitted(a) => Owned(log, i, a) && a in log.paper && a !in log.reported && RowIs(c, a, {PrintInvoked})
    case Ended(a, out) =>
      Owned(log, i, a) && a !in log.reported && Honest(log, a, out) && RowIs(c, a, {SubmissionStarted, PrintInvoked})
    case Telling(a, out) =>
      Owned(log, i, a) && a in log.reported && log.reported[a] == out && RowIs(c, a, {ResultKnown})
    case Told(a) => Owned(log, i, a) && RowIs(c, a, {ResultKnown})
  }

  ghost predicate ClientOk(log: Log, job: Job, i: nat, c: Client)
  {
    && PcOk(log, i, c)
    && (c.row.Some? ==> c.kind.Agent? && RowOk(log, i, c.row.value))
    && (MayPrint(c) ==> Holds(job, c.pc.a))
  }

  ghost predicate LogOk(log: Log, job: Job)
  {
    && (forall a :: a in log.owner ==> a < job.minted)
    && (forall a :: a in log.granted ==> a < job.minted)
    && (forall a :: a in log.granted && job.attempt == Some(a) ==> job.started)
    && (forall k :: 0 <= k < |log.paper| ==>
          Holds(job, log.paper[k]) && log.paper[k] in log.owner && log.paper[k] in log.granted)
    && |log.paper| <= 1
    && (forall a :: a in log.reported ==> a in log.owner && Honest(log, a, log.reported[a]))
    && (job.started && job.attempt.Some? ==> job.attempt.value in log.granted)
    && VerdictOk(log, job)
  }

  /** The result the server shows is the one reported for its attempt, except where an operator has decided. */
  ghost predicate VerdictOk(log: Log, job: Job)
  {
    && (job.status.Printing? ==> job.outcome.None?)
    && (job.outcome.Some? && !job.confirmed ==>
          job.attempt.Some? && job.attempt.value in log.reported
          && log.reported[job.attempt.value] == job.outcome.value)
    && (job.status.Printed? && !job.confirmed ==>
          job.outcome == Some(SubmittedToSpooler) || job.outcome == Some(TransportCompleted))
  }

  ghost predicate SentOk(log: Log, job: Job, sent: set<Msg>)
  {
    forall m :: m in sent ==> m.a < job.minted && (m.ResultMsg? ==> m.a in log.reported && log.reported[m.a] == m.out)
  }

  /** Write-ahead: whoever put an attempt on paper has a durable row that says so, or has been acknowledged. */
  ghost predicate WrittenAhead(log: Log, clients: seq<Client>)
  {
    forall k :: 0 <= k < |log.paper| && log.paper[k] in log.owner && log.owner[log.paper[k]] < |clients| ==>
      RowTells(clients[log.owner[log.paper[k]]], log.paper[k])
  }

  ghost predicate RowTells(c: Client, a: nat)
  {
    && !c.pc.Claimed?
    && (c.kind.Agent? && c.row.Some? ==>
          c.row.value.attempt == a
          && (c.row.value.state.PrintInvoked? || c.row.value.state.ResultKnown? || c.row.value.state.Acked?))
  }

  ghost predicate Inv(w: World)
  {
    && LogOk(w.log, w.job) && SentOk(w.log, w.job, w.sent) && WrittenAhead(w.log, w.clients)
    && (forall a :: a in w.log.owner ==> w.log.owner[a] < |w.clients|)
    && forall i :: 0 <= i < |w.clients| ==> ClientOk(w.log, w.job, i, w.clients[i])
  }

  // ---------------------------------------------------------------- what a step leaves alone

  /** Everything but the attempts of client i is on record as before. */
  ghost predicate Apart(log: Log, later: Log, i: nat)
  {
    && (forall a :: a in log.owner ==> a in later.owner && later.owner[a] == log.owner[a])
    && (forall a :: a in log.owner && log.owner[a] != i ==>
          (a in later.paper <==> a in log.paper) && (a in later.reported <==> a in log.reported)
          && (a in log.reported ==> later.reported[a] == log.reported[a]))
  }

  lemma OtherClient(log: Log, job: Job, later: Log, next: Job, i: nat, j: nat, c: Client)
    requires ClientOk(log, job, j, c) && i != j && Apart(log, later, i)
    requires MayPrint(c) ==> Holds(next, c.pc.a)
    ensures ClientOk(later, next, j, c)
  {
  }

  /** The server's side moves: nobody who may print, or has printed, loses the job. */
  ghost predicate Carries(w: World, j: Job)
  {
    && w.job.minted <= j.minted
    && (forall k :: 0 <= k < |w.log.paper| ==> Holds(j, w.log.paper[k]))
    && (forall i :: 0 <= i < |w.clients| && MayPrint(w.clients[i]) ==> Holds(j, w.clients[i].pc.a))
    && (j.attempt.Some? ==> (j.started <==> j.attempt.value in w.log.granted))
    && VerdictOk(w.log, j)
  }

  lemma JobMoves(w: World, j: Job)
    requires Inv(w) && Carries(w, j)
    ensures Inv(w.(job := j))
  {
    forall i | 0 <= i < |w.clients| ensures ClientOk(w.log, j, i, w.clients[i]) {
      assert ClientOk(w.log, w.job, i, w.clients[i]);
    }
  }

  lemma UpkeepCarries(w: World, u: Upkeep)
    requires Inv(w) && Keep(w.job, u).Some?
    ensures Carries(w, Keep(w.job, u).value)
  {
    forall i | 0 <= i < |w.clients| && MayPrint(w.clients[i]) ensures Holds(Keep(w.job, u).value, w.clients[i].pc.a) {
      assert ClientOk(w.log, w.job, i, w.clients[i]);
      KeepHolds(w.job, u, w.clients[i].pc.a);
    }
    forall k | 0 <= k < |w.log.paper| ensures Holds(Keep(w.job, u).value, w.log.paper[k]) {
      KeepHolds(w.job, u, w.log.paper[k]);
    }
  }

  /** When a result comes in that the server takes, nobody can be about to print. */
  lemma ReportedIsOver(w: World, m: Msg, i: nat)
    requires Inv(w) && m in w.sent && m.ResultMsg? && w.job.attempt == Some(m.a) && i < |w.clients|
    ensures !MayPrint(w.clients[i])
  {
    assert ClientOk(w.log, w.job, i, w.clients[i]);
  }

  lemma FinishCarries(w: World, m: Msg)
    requires Inv(w) && m in w.sent && m.ResultMsg? && Finish(w.job, m.who, m.a, m.out).Some?
    ensures Carries(w, Finish(w.job, m.who, m.a, m.out).value)
  {
    var j := Finish(w.job, m.who, m.a, m.out).value;
    forall i | 0 <= i < |w.clients| ensures !MayPrint(w.clients[i]) { ReportedIsOver(w, m, i); }
    forall k | 0 <= k < |w.log.paper| ensures Holds(j, w.log.paper[k]) {
      FinishHolds(w.job, m.who, m.a, m.out, w.log.paper[k]);
    }
  }

  /** A step of one client that leaves the server alone and the log apart. */
  lemma ClientMoves(w: World, i: nat, c: Client, later: Log)
    requires Inv(w) && i < |w.clients| && Apart(w.log, later, i) && ClientOk(later, w.job, i, c)
    requires LogOk(later, w.job) && later.owner == w.log.owner
    requires SentOk(later, w.job, w.sent)
    requires forall k :: 0 <= k < |later.paper| && later.owner[later.paper[k]] == i ==> RowTells(c, later.paper[k])
    ensures Inv(Mine(w, i, c).(log := later))
  {
    var v := Mine(w, i, c).(log := later);
    forall j | 0 <= j < |v.clients| ensures ClientOk(v.log, v.job, j, v.clients[j]) {
      if j != i {
        OtherClient(w.log, w.job, later, w.job, i, j, w.clients[j]);
      }
    }
    forall k | 0 <= k < |later.paper| && later.owner[later.paper[k]] < |v.clients|
      ensures RowTells(v.clients[later.owner[later.paper[k]]], later.paper[k])
    {
      var o := later.owner[later.paper[k]];
      if o != i {
        assert later.paper[k] in w.log.paper;
        var h :| 0 <= h < |w.log.paper| && w.log.paper[h] == later.paper[k];
        assert RowTells(w.clients[o], w.log.paper[h]);
      }
    }
  }

  // ---------------------------------------------------------------- every step keeps it

  lemma OwnPaper(w: World, i: nat, k: nat)
    requires Inv(w) && i < |w.clients| && k < |w.log.paper| && Owned(w.log, i, w.log.paper[k])
    ensures RowTells(w.clients[i], w.log.paper[k])
  {
  }

  lemma LocalOk(log: Log, job: Job, i: nat, c: Client, s: Step)
    requires ClientOk(log, job, i, c) && Local(c, s).Some?
    ensures ClientOk(log, job, i, Local(c, s).value)
    ensures forall a :: RowTells(c, a) ==> RowTells(Local(c, s).value, a)
  {
  }

  lemma LocalKeeps(w: World, i: nat, s: Step)
    requires Inv(w) && i < |w.clients| && Local(w.clients[i], s).Some?
    ensures Inv(Mine(w, i, Local(w.clients[i], s).value))
  {
    var c := Local(w.clients[i], s).value;
    assert ClientOk(w.log, w.job, i, w.clients[i]);
    LocalOk(w.log, w.job, i, w.clients[i], s);
    forall k | 0 <= k < |w.log.paper| && w.log.owner[w.log.paper[k]] == i ensures RowTells(c, w.log.paper[k]) {
      OwnPaper(w, i, k);
    }
    ClientMoves(w, i, c, w.log);
    assert Mine(w, i, c).(log := w.log) == Mine(w, i, c);
  }

  lemma SubmitKeeps(w: World, i: nat)
    requires Inv(w) && i < |w.clients| && SubmitStep(w, i).Some?
    ensures Inv(SubmitStep(w, i).value)
  {
    var c := w.clients[i];
    assert ClientOk(w.log, w.job, i, c);
    assert w.log.paper != [] ==> Holds(w.job, w.log.paper[0]);
    ClientMoves(w, i, c.(pc := Submitted(c.pc.a)), w.log.(paper := w.log.paper + [c.pc.a]));
  }

  lemma WriteResultKeeps(w: World, i: nat)
    requires Inv(w) && i < |w.clients| && WriteResultStep(w, i).Some?
    ensures Inv(WriteResultStep(w, i).value)
  {
    var c := w.clients[i];
    assert ClientOk(w.log, w.job, i, c);
    var d := c.(pc := Telling(c.pc.a, c.pc.out), row := if c.kind.Agent? then MarkResult(c.row, c.pc.out) else c.row);
    forall k | 0 <= k < |w.log.paper| && w.log.owner[w.log.paper[k]] == i ensures RowTells(d, w.log.paper[k]) {
      OwnPaper(w, i, k);
    }
    ClientMoves(w, i, d, w.log.(reported := w.log.reported[c.pc.a := c.pc.out]));
  }

  /** A claim finds the job pending, so nothing has been printed and nobody may print. */
  lemma PendingIsCold(w: World)
    requires Inv(w) && w.job.status.Pending?
    ensures w.log.paper == [] && forall i :: 0 <= i < |w.clients| ==> !MayPrint(w.clients[i])
  {
    forall i | 0 <= i < |w.clients| ensures !MayPrint(w.clients[i]) {
      assert ClientOk(w.log, w.job, i, w.clients[i]);
    }
    assert w.log.paper != [] ==> Holds(w.job, w.log.paper[0]);
  }

  lemma PollKeeps(w: World, i: nat, heard: bool)
    requires Inv(w) && i < |w.clients| && PollStep(w, i, heard).Some?
    ensures Inv(PollStep(w, i, heard).value)
  {
    var c, j, a := w.clients[i], Claim(w.job, w.clients[i].who).value, w.job.minted;
    PendingIsCold(w);
    JobMoves(w, j);
    var v := w.(job := j);
    if heard {
      assert ClientOk(v.log, j, i, c);
      ClientMovesTo(v, i, c.(pc := if c.kind.Agent? then Claimed(a) else Asking(a)), a);
    }
  }

  lemma ClientMovesTo(v: World, i: nat, c: Client, a: nat)
    requires Inv(v) && i < |v.clients| && a < v.job.minted && a !in v.log.owner && v.log.paper == [] && Clean(v.log, a)
    requires c == v.clients[i].(pc := if c.kind.Agent? then Claimed(a) else Asking(a))
    ensures Inv(Mine(v, i, c).(log := v.log.(owner := v.log.owner[a := i])))
  {
    var later := v.log.(owner := v.log.owner[a := i]);
    var u := Mine(v, i, c).(log := later);
    forall j | 0 <= j < |u.clients| ensures ClientOk(later, v.job, j, u.clients[j]) {
      assert ClientOk(v.log, v.job, j, v.clients[j]);
      if j != i {
        OtherClient(v.log, v.job, later, v.job, i, j, v.clients[j]);
      }
    }
  }

  /** The server takes a start request: the attempt is unsubmitted, and now permitted. */
  lemma ServeStartKeeps(w: World, m: Msg, inLease: bool)
    requires Inv(w) && m in w.sent && m.StartMsg? && ServeStart(w, m, inLease).Some?
    ensures Inv(ServeStart(w, m, inLease).value)
  {
    var j := Start(w.job, m.who, m.a, inLease).value;
    var later := w.log.(granted := w.log.granted + {m.a});
    assert w.log.paper != [] ==> Holds(w.job, w.log.paper[0]);
    forall i | 0 <= i < |w.clients| ensures ClientOk(later, j, i, w.clients[i]) {
      assert ClientOk(w.log, w.job, i, w.clients[i]);
    }
  }

  lemma HearStartKeeps(w: World, i: nat, inLease: bool)
    requires Inv(w) && i < |w.clients| && HearStartStep(w, i, inLease).Some?
    ensures Inv(HearStartStep(w, i, inLease).value)
  {
    var c := w.clients[i];
    var m := StartMsg(c.who, c.pc.a);
    assert ClientOk(w.log, w.job, i, c);
    match ServeStart(w, m, inLease)
    case Some(v) =>
      ServeStartKeeps(w, m, inLease);
      Quiet(v, i, c.(pc := if c.pc.Asking? then Allowed(c.pc.a) else AllowedAgain(c.pc.a)));
    case None =>
      Quiet(w, i, c.(pc := if c.kind.Agent? then Refused(c.pc.a) else Idle));
  }

  /** A client moves on without anything being recorded. */
  lemma Quiet(w: World, i: nat, c: Client)
    requires Inv(w) && i < |w.clients| && ClientOk(w.log, w.job, i, c)
    requires c == w.clients[i].(pc := c.pc) && !c.pc.Claimed?
    ensures Inv(Mine(w, i, c))
  {
    forall k | 0 <= k < |w.log.paper| && w.log.owner[w.log.paper[k]] == i ensures RowTells(c, w.log.paper[k]) {
      OwnPaper(w, i, k);
    }
    ClientMoves(w, i, c, w.log);
    assert Mine(w, i, c).(log := w.log) == Mine(w, i, c);
  }

  lemma HearResultKeeps(w: World, i: nat)
    requires Inv(w) && i < |w.clients| && HearResultStep(w, i).Some?
    ensures Inv(HearResultStep(w, i).value)
  {
    var c := w.clients[i];
    var m := ResultMsg(c.who, c.pc.a, c.pc.out);
    assert ClientOk(w.log, w.job, i, c);
    match Finish(w.job, c.who, c.pc.a, c.pc.out)
    case Some(j) =>
      FinishCarries(w, m);
      JobMoves(w, j);
      var d := c.(pc := if c.kind.Agent? then Told(c.pc.a) else Idle);
      Quiet(w.(job := j), i, d);
      assert Mine(w.(job := j), i, d) == Mine(w, i, d).(job := j);
    case None => Quiet(w, i, c.(pc := Idle));
  }

  lemma AskKeeps(w: World, i: nat)
    requires Inv(w) && i < |w.clients| && (w.clients[i].pc.Asking? || w.clients[i].pc.AskingAgain?)
    ensures Inv(w.(sent := w.sent + {StartMsg(w.clients[i].who, w.clients[i].pc.a)}))
  {
    assert ClientOk(w.log, w.job, i, w.clients[i]);
    assert w.clients[i].pc.a < w.job.minted;
  }

  lemma TellKeeps(w: World, i: nat)
    requires Inv(w) && i < |w.clients| && w.clients[i].pc.Telling?
    ensures Inv(w.(sent := w.sent + {ResultMsg(w.clients[i].who, w.clients[i].pc.a, w.clients[i].pc.out)}))
  {
    assert ClientOk(w.log, w.job, i, w.clients[i]);
    assert w.clients[i].pc.a < w.job.minted;
  }

  lemma JoinKeeps(w: World, kind: Kind, who: nat)
    requires Inv(w)
    ensures Inv(w.(clients := w.clients + [Client(kind, who, Idle, None)]))
  {
    var v := w.(clients := w.clients + [Client(kind, who, Idle, None)]);
    forall i | 0 <= i < |v.clients| ensures ClientOk(v.log, v.job, i, v.clients[i]) {
      assert i < |w.clients| ==> ClientOk(w.log, w.job, i, w.clients[i]);
    }
  }

  lemma StepKeeps(w: World, s: Step)
    requires Inv(w) && Next(w, s).Some?
    ensures Inv(Next(w, s).value)
  {
    match s
    case Join(kind, who) => JoinKeeps(w, kind, who);
    case Poll(i, heard) => PollKeeps(w, i, heard);
    case AskStart(i) => AskKeeps(w, i);
    case HearStart(i, inLease) => HearStartKeeps(w, i, inLease);
    case LateStart(m, inLease) => ServeStartKeeps(w, m, inLease);
    case Submit(i) => SubmitKeeps(w, i);
    case WriteResult(i) => WriteResultKeeps(w, i);
    case TellResult(i) => TellKeeps(w, i);
    case HearResult(i) => HearResultKeeps(w, i);
    case LateResult(m) =>
      FinishCarries(w, m);
      JobMoves(w, Finish(w.job, m.who, m.a, m.out).value);
    case Server(u) =>
      UpkeepCarries(w, u);
      JobMoves(w, Keep(w.job, u).value);
    case SeeUnknown =>
    case _ => LocalKeeps(w, s.i, s);
  }
}
