/**
 * One optimistic line of the waiter's cart against the server: the add is sent, its answer may be lost,
 * the quantity is chased until the latest intent has settled, and a removal is verified.
 */
module CartCreation {
  import opened Common

  // ---------------------------------------------------------------- the server

  /** Rows of an order, and the durable receipts of adds: which mutation made which row. */
  datatype Server = Server(rows: map<nat, nat>, receipts: map<nat, nat>, next: nat)

  datatype Added = Item(id: nat, quantity: nat) | AlreadyRemoved

  /** addItem past its checks: a known mutation is answered from its receipt, a new one makes one row. */
  function AddItem(s: Server, mutation: nat): (Server, Added)
  {
    if mutation in s.receipts then
      var id := s.receipts[mutation];
      (s, if id in s.rows then Item(id, s.rows[id]) else AlreadyRemoved)
    else
      (Server(s.rows[s.next := 1], s.receipts[mutation := s.next], s.next + 1), Item(s.next, 1))
  }

  ghost predicate ServerOk(s: Server)
  {
    && (forall id :: id in s.rows ==> id < s.next && 0 < s.rows[id])
    && (forall m :: m in s.receipts ==> s.receipts[m] < s.next)
    && (forall m, n :: m in s.receipts && n in s.receipts && m != n ==> s.receipts[m] != s.receipts[n])
  }

  /** What the server knows of one mutation: whether it was ever committed, and its row's quantity. */
  datatype Side = Side(committed: bool, row: Option<nat>)

  function SideOf(s: Server, mutation: nat): Side
  {
    if mutation !in s.receipts then Side(false, None)
    else Side(true, if s.receipts[mutation] in s.rows then Some(s.rows[s.receipts[mutation]]) else None)
  }

  /** An add as one mutation sees it. */
  function AddSide(side: Side): Side { if side.committed then side else Side(true, Some(1)) }

  /** An add repeated any number of times makes one row, and touches no other mutation's. */
  lemma AddOnce(s: Server, mutation: nat, other: nat)
    requires ServerOk(s)
    ensures ServerOk(AddItem(s, mutation).0)
    ensures SideOf(AddItem(s, mutation).0, mutation) == AddSide(SideOf(s, mutation))
    ensures other != mutation ==> SideOf(AddItem(s, mutation).0, other) == SideOf(s, other)
    ensures AddItem(AddItem(s, mutation).0, mutation).0 == AddItem(s, mutation).0
    ensures AddItem(s, mutation).1.Item? <==> !(SideOf(s, mutation).committed && SideOf(s, mutation).row.None?)
  {
  }

  function AddAll(s: Server, mutations: seq<nat>): Server
  {
    if mutations == [] then s else AddItem(AddAll(s, mutations[..|mutations| - 1]), mutations[|mutations| - 1]).0
  }

  /**
   * However often and in whatever order adds are repeated, every mutation that was sent and not known before has
   * made one row of quantity one, and every other mutation's row is as it was: to each mutation the server is its
   * own side, whatever the others do.
   */
  lemma {:induction false} AddsMakeOneRowEach(s: Server, mutations: seq<nat>, m: nat)
    requires ServerOk(s)
    ensures ServerOk(AddAll(s, mutations))
    ensures SideOf(AddAll(s, mutations), m) == if m in mutations then AddSide(SideOf(s, m)) else SideOf(s, m)
  {
    if mutations != [] {
      var n := |mutations| - 1;
      AddsMakeOneRowEach(s, mutations[..n], m);
      AddOnce(AddAll(s, mutations[..n]), mutations[n], m);
      assert mutations == mutations[..n] + [mutations[n]];
    }
  }

  // ---------------------------------------------------------------- the line

  datatype End = Confirmed(quantity: nat) | Removed | RolledBack

  datatype Phase =
    | Queued
    | Posting(attempt: nat)
    | Patching(sent: nat)
    | Deleting
    | Verifying
    | Stalled
    | Settled(end: End)

  /** known is the quantity on the last full item the server has returned; shown the line on the screen. */
  datatype Line = Line(intent: nat, known: Option<nat>, shown: Option<nat>, phase: Phase)

  datatype World = World(line: Line, side: Side)

  const START: World := World(Line(1, None, Some(1), Queued), Side(false, None))

  /** The fate of a request: answered, refused by the server, or lost, with or without effect. */
  datatype Reply = Answer(complete: bool) | Refusal | Lost(processed: bool)

  datatype Step =
    | Begin
    | PostReply(r: Reply)
    | PatchReply(r: Reply)
    | DeleteReply(r: Reply)
    | VerifyReply(r: Reply)
    | Change(quantity: nat)
    | Retry

  const MAX_QUANTITY: nat := 50

  /** The loop that chases the latest intent, up to its next request. */
  function Chase(l: Line, serverQuantity: nat): Line
  {
    if serverQuantity == l.intent then l.(phase := Settled(Confirmed(serverQuantity)), shown := Some(serverQuantity))
    else if l.intent == 0 then l.(phase := Deleting)
    else l.(phase := Patching(l.intent))
  }

  function AfterLostPost(l: Line): Line
  {
    if l.phase.Posting? && l.phase.attempt == 0 then l.(phase := Posting(1)) else l.(phase := Stalled)
  }

  function Post(w: World, r: Reply): Option<World>
  {
    var side := AddSide(w.side);
    match r
    case Answer(complete) =>
      if side.row.None? then None
      else if complete then Some(World(Chase(w.line.(known := side.row), side.row.value), side))
      else Some(World(AfterLostPost(w.line), side))
    case Refusal => Some(w.(line := w.line.(phase := Settled(RolledBack), shown := None)))
    case Lost(processed) => Some(World(AfterLostPost(w.line), if processed then side else w.side))
  }

  function Patch(w: World, r: Reply): Option<World>
    requires w.line.phase.Patching?
  {
    var sent := w.line.phase.sent;
    var side := w.side.(row := if w.side.row.Some? then Some(sent) else None);
    match r
    case Answer(complete) =>
      if w.side.row.None? then None
      else Some(World(Chase(if complete then w.line.(known := Some(sent)) else w.line, sent), side))
    case Refusal => Some(w.(line := w.line.(phase := Stalled)))
    case Lost(processed) => Some(World(w.line.(phase := Stalled), if processed then side else w.side))
  }

  function Delete(w: World, r: Reply): Option<World>
  {
    match r
    case Answer(_) =>
      if w.side.row.None? then None
      else Some(World(w.line.(phase := Settled(Removed)), w.side.(row := None)))
    case Refusal => Some(w.(line := w.line.(phase := Verifying)))
    case Lost(processed) => Some(World(w.line.(phase := Verifying), if processed then w.side.(row := None) else w.side))
  }

  function Verify(w: World, r: Reply): World
  {
    if r.Answer? && w.side.row.None? then w.(line := w.line.(phase := Settled(Removed)))
    else w.(line := w.line.(phase := Stalled))
  }

  /** changePending: the line on the screen follows the intent; a line that is gone cannot be changed. */
  function ChangeTo(l: Line, quantity: nat): Option<Line>
  {
    if l.phase.Settled? || l.shown.None? then None
    else if quantity > MAX_QUANTITY then Some(l)
    else Some(l.(intent := quantity, shown := if quantity == 0 then None else Some(quantity)))
  }

  function Next(w: World, s: Step): Option<World>
  {
    match s
    case Begin =>
      if !w.line.phase.Queued? then None
      else if w.line.known.None? then Some(w.(line := w.line.(phase := Posting(0))))
      else Some(w.(line := Chase(w.line, w.line.known.value)))
    case PostReply(r) => if w.line.phase.Posting? then Post(w, r) else None
    case PatchReply(r) => if w.line.phase.Patching? then Patch(w, r) else None
    case DeleteReply(r) => if w.line.phase.Deleting? then Delete(w, r) else None
    case VerifyReply(r) => if w.line.phase.Verifying? then Some(Verify(w, r)) else None
    case Change(quantity) => (match ChangeTo(w.line, quantity) case None => None case Some(l) => Some(w.(line := l)))
    case Retry => if w.line.phase.Stalled? then Some(w.(line := w.line.(phase := Queued))) else None
  }

  // ---------------------------------------------------------------- what always holds

  ghost predicate Inv(w: World)
  {
    && (w.side.row.Some? ==> w.side.committed && 0 < w.side.row.value)
    && (w.line.known.Some? ==> w.side.committed && 0 < w.line.known.value)
    && (w.side.committed && w.side.row.None? ==> w.line.known.Some? && w.line.intent == 0)
    && (!w.line.phase.Settled? ==> w.line.shown == if w.line.intent == 0 then None else Some(w.line.intent))
    && match w.line.phase
       case Queued => true
       case Posting(attempt) => w.line.known.None? && attempt <= 1
       case Patching(sent) => 0 < sent && w.line.known.Some? && w.side.row.Some?
       case Deleting => w.line.intent == 0 && w.line.known.Some?
       case Verifying => w.line.intent == 0 && w.line.known.Some?
       case Stalled => true
       case Settled(Confirmed(q)) => q == w.line.intent && w.line.shown == Some(q) && 0 < q && w.side.row.Some?
       case Settled(Removed) => w.line.intent == 0 && w.line.shown.None? && w.side.committed && w.side.row.None?
       case Settled(RolledBack) => w.line.known.None? && w.line.shown.None?
  }

  /** The answers of the server, as against the client's own steps. */
  lemma ReplyKeeps(w: World, s: Step)
    requires Inv(w) && Next(w, s).Some? && (s.DeleteReply? || s.VerifyReply?)
    ensures Inv(Next(w, s).value)
  {
  }

  lemma PostKeeps(w: World, r: Reply)
    requires Inv(w) && Next(w, PostReply(r)).Some?
    ensures Inv(Next(w, PostReply(r)).value)
  {
  }

  lemma PatchKeeps(w: World, r: Reply)
    requires Inv(w) && Next(w, PatchReply(r)).Some?
    ensures Inv(Next(w, PatchReply(r)).value)
  {
  }

  lemma OwnKeeps(w: World, s: Step)
    requires Inv(w) && Next(w, s).Some? && (s.Begin? || s.Change? || s.Retry?)
    ensures Inv(Next(w, s).value)
  {
  }

  lemma StepKeeps(w: World, s: Step)
    requires Inv(w) && Next(w, s).Some?
    ensures Inv(Next(w, s).value)
  {
    match s
    case PostReply(r) => PostKeeps(w, r);
    case PatchReply(r) => PatchKeeps(w, r);
    case DeleteReply(_) => ReplyKeeps(w, s);
    case VerifyReply(_) => ReplyKeeps(w, s);
    case _ => OwnKeeps(w, s);
  }

  function Run(steps: seq<Step>): Option<World>
  {
    if steps == [] then Some(START)
    else match Run(steps[..|steps| - 1]) case None => None case Some(w) => Next(w, steps[|steps| - 1])
  }

  lemma {:induction false} RunKeeps(steps: seq<Step>)
    requires Run(steps).Some?
    ensures Inv(Run(steps).value)
  {
    if steps != [] {
      RunKeeps(steps[..|steps| - 1]);
      StepKeeps(Run(steps[..|steps| - 1]).value, steps[|steps| - 1]);
    }
  }

  /** While the line is unsettled the screen shows exactly the intent, and nothing when the intent is zero. */
  lemma ShowsTheIntent(steps: seq<Step>)
    requires Run(steps).Some? && !Run(steps).value.line.phase.Settled?
    ensures var l := Run(steps).value.line; l.shown == if l.intent == 0 then None else Some(l.intent)
  {
    RunKeeps(steps);
  }

  // ---------------------------------------------------------------- convergence

  /** The last complete answer still describes the row. */
  predicate UpToDate(w: World) { w.line.known.Some? && w.side.row.Some? ==> w.line.known == w.side.row }

  /** A quantity change that takes effect on the server, whether or not its answer arrives. */
  predicate TakesEffect(s: Step) { s.PatchReply? && (s.r.Answer? || s.r == Lost(true)) }

  /**
   * A gap in what the client knows: the last quantity change that took effect was not completely answered, and it
   * had asked for another quantity than the client knew then.
   */
  ghost predicate Gap(steps: seq<Step>, j: nat)
  {
    && j < |steps| && TakesEffect(steps[j]) && steps[j].r != Answer(true) && Asked(Run(steps[..j]))
    && forall k :: j < k < |steps| ==> !TakesEffect(steps[k])
  }

  /** The quantity change on its way asks for another quantity than the client last knew completely. */
  predicate Asked(w: Option<World>)
  {
    w.Some? && w.value.line.phase.Patching? && w.value.line.known != Some(w.value.line.phase.sent)
  }

  lemma GapOneMore(steps: seq<Step>, j: nat)
    requires j < |steps| - 1
    ensures Gap(steps, j) <==> Gap(steps[..|steps| - 1], j) && !TakesEffect(steps[|steps| - 1])
  {
    var n := |steps| - 1;
    assert steps[..n][..j] == steps[..j];
    if Gap(steps[..n], j) && !TakesEffect(steps[n]) {
      forall k | j < k < |steps| ensures !TakesEffect(steps[k]) { assert k < n ==> steps[..n][k] == steps[k]; }
    }
    if Gap(steps, j) {
      forall k | j < k < n ensures !TakesEffect(steps[..n][k]) { assert steps[..n][k] == steps[k]; }
    }
  }

  /** One step more opens a gap, closes every gap, or leaves them as they are. */
  lemma GapsOneMore(steps: seq<Step>)
    requires steps != []
    ensures var n := |steps| - 1;
            (exists j: nat :: Gap(steps, j))
            <==> if TakesEffect(steps[n]) then steps[n].r != Answer(true) && Asked(Run(steps[..n]))
                 else exists j: nat :: Gap(steps[..n], j)
  {
    var n := |steps| - 1;
    if j: nat :| Gap(steps, j) && j < n {
      GapOneMore(steps, j);
    }
    if TakesEffect(steps[n]) && steps[n].r != Answer(true) && Asked(Run(steps[..n])) {
      assert Gap(steps, n);
    }
    if j: nat :| Gap(steps[..n], j) && !TakesEffect(steps[n]) {
      GapOneMore(steps, j);
    }
  }

  /** Before the client knows any quantity it has changed none. */
  lemma {:induction false} KnownFirst(steps: seq<Step>)
    requires Run(steps).Some? && Run(steps).value.line.known.None?
    ensures forall j :: 0 <= j < |steps| ==> !steps[j].PatchReply?
  {
    if steps != [] {
      var n := |steps| - 1;
      RunKeeps(steps[..n]);
      KnownFirst(steps[..n]);
      forall j | 0 <= j < |steps| ensures !steps[j].PatchReply? { assert j < n ==> steps[..n][j] == steps[j]; }
    }
  }

  /** While its row stands, what the client knows is out of date exactly if there is a gap. */
  lemma {:induction false} StaleExactly(steps: seq<Step>)
    requires Run(steps).Some? && Run(steps).value.side.row.Some?
    ensures UpToDate(Run(steps).value) <==> !exists j: nat :: Gap(steps, j)
  {
    if steps != [] {
      var n := |steps| - 1;
      var w := Run(steps[..n]).value;
      RunKeeps(steps[..n]);
      GapsOneMore(steps);
      if w.side.row.Some? {
        StaleExactly(steps[..n]);
        StaleOneMore(w, steps[n]);
      } else {
        KnownFirst(steps[..n]);
      }
    }
  }

  /** A change that takes effect leaves the client out of date as its own gap has it; nothing else moves either side. */
  lemma StaleOneMore(w: World, s: Step)
    requires Inv(w) && Next(w, s).Some? && w.side.row.Some? && Next(w, s).value.side.row.Some?
    ensures UpToDate(Next(w, s).value)
            <==> if TakesEffect(s) then s.r == Answer(true) || !Asked(Some(w)) else UpToDate(w)
  {
  }

  /** How each end comes about, one step before it. */
  lemma SettlingStep(w: World, s: Step)
    requires Inv(w) && Next(w, s).Some? && !w.line.phase.Settled? && Next(w, s).value.line.phase.Settled?
    ensures var v := Next(w, s).value;
            match v.line.phase.end
            case Confirmed(q) =>
              q == v.line.intent && (TakesEffect(s) || w.line.known.None? || (s.Begin? && w.line.known == Some(q)))
              && (!s.Begin? ==> v.side.row == Some(q)) && (s.Begin? ==> v.side == w.side && w.line.known == Some(q))
            case Removed => v.line.intent == 0 && v.side.row == None
            case RolledBack => v.line.shown == None && (v.side.row == None <==> !w.side.committed)
  {
  }

  /** A settled line takes no further steps. */
  lemma SettledIsFinal(w: World, s: Step)
    requires Next(w, s).Some?
    ensures !w.line.phase.Settled?
  {
  }

  /** The line was resumed on what the client knew while there was a gap. */
  ghost predicate SettledOnGap(steps: seq<Step>) { exists j: nat :: j < |steps| - 1 && Gap(steps, j) }

  /**
   * Convergence, exactly. Whatever is lost, refused, changed and retried, a line that settles as confirmed shows
   * the latest intended quantity, and the server's one row has that quantity unless the last quantity change
   * before the settling step that took effect was not completely answered, had asked for another quantity than
   * the client knew then, and no later one took effect. A line that settles as removed leaves no row.
   */
  lemma ConvergesExactly(steps: seq<Step>)
    requires Run(steps).Some? && Run(steps).value.line.phase.Settled?
    ensures var w := Run(steps).value;
            match w.line.phase.end
            case Confirmed(q) =>
              w.line.intent == q && w.line.shown == Some(q) && (w.side.row == Some(q) <==> !SettledOnGap(steps))
            case Removed => w.line.intent == 0 && w.line.shown == None && w.side.row == None
            case RolledBack => w.line.shown == None
  {
    var n := |steps| - 1;
    var w := Run(steps[..n]).value;
    RunKeeps(steps[..n]);
    RunKeeps(steps);
    SettledIsFinal(w, steps[n]);
    SettlingStep(w, steps[n]);
    if Run(steps).value.line.phase.end.Confirmed? {
      ConfirmedOnGap(steps, w);
    }
  }

  lemma ConfirmedOnGap(steps: seq<Step>, w: World)
    requires steps != [] && Run(steps).Some? && Run(steps[..|steps| - 1]) == Some(w) && Inv(w) && Inv(Run(steps).value)
    requires !w.line.phase.Settled? && Run(steps).value.line.phase.Settled?
             && Run(steps).value.line.phase.end.Confirmed?
    ensures Run(steps).value.side.row == Some(Run(steps).value.line.phase.end.quantity) <==> !SettledOnGap(steps)
  {
    var n := |steps| - 1;
    SettlingStep(w, steps[n]);
    if j: nat :| j < n && Gap(steps, j) {
      GapOneMore(steps, j);
    }
    if w.line.known.None? {
      KnownFirst(steps[..n]);
      forall j: nat | j < n ensures !Gap(steps, j) { assert steps[..n][j] == steps[j]; }
    } else if steps[n].Begin? {
      StaleExactly(steps[..n]);
      if j: nat :| Gap(steps[..n], j) {
        GapOneMore(steps, j);
      }
    }
  }

  /**
   * In particular, where every quantity change that takes effect is completely answered, the server is left with
   * one row of the latest intended quantity, or with none if the line was removed.
   */
  lemma Converges(steps: seq<Step>)
    requires Run(steps).Some? && Run(steps).value.line.phase.Settled?
    requires forall k :: 0 <= k < |steps| && TakesEffect(steps[k]) ==> steps[k].r == Answer(true)
    ensures var w := Run(steps).value;
            !w.line.phase.end.RolledBack? ==> w.side.row == if w.line.intent == 0 then None else Some(w.line.intent)
  {
    RunKeeps(steps);
    ConvergesExactly(steps);
  }

  /**
   * A refused add is taken off the screen; the server has no row for it exactly when no earlier attempt got
   * through.
   */
  lemma {:induction false} RollbackIsClean(steps: seq<Step>)
    requires Run(steps).Some? && Run(steps).value.line.phase == Settled(RolledBack)
    ensures Run(steps).value.line.shown == None
    ensures Run(steps).value.side.row == None <==> forall k :: 0 <= k < |steps| ==> !Reaches(steps[k])
  {
    RunKeeps(steps);
    CommittedBy(steps);
  }

  /** An add that takes effect on the server, whether or not its answer arrives. */
  predicate Reaches(s: Step) { s.PostReply? && (s.r.Answer? || s.r == Lost(true)) }

  lemma {:induction false} CommittedBy(steps: seq<Step>)
    requires Run(steps).Some?
    ensures Run(steps).value.side.committed <==> exists k :: 0 <= k < |steps| && Reaches(steps[k])
  {
    if steps != [] {
      var n := |steps| - 1;
      CommittedBy(steps[..n]);
      if Reaches(steps[n]) {
        assert Run(steps).value.side.committed;
      } else {
        forall k | 0 <= k < |steps| && Reaches(steps[k]) ensures k < n && Reaches(steps[..n][k]) {}
        if k :| 0 <= k < n && Reaches(steps[..n][k]) {
          assert Reaches(steps[k]);
        }
      }
    }
  }

  lemma OneMore(steps: seq<Step>, s: Step)
    requires Run(steps).Some?
    ensures Run(steps + [s]) == Next(Run(steps).value, s)
  {
    assert (steps + [s])[..|steps|] == steps;
  }

  /**
   * Without that assumption the line need not converge: the change to 2 takes effect but its answer is lost, the
   * waiter goes back to 1 and retries, and the line settles at 1 while the server keeps 2.
   */
  lemma LostAnswerRun() returns (steps: seq<Step>)
    ensures Run(steps) == Some(World(Line(1, Some(1), Some(1), Settled(Confirmed(1))), Side(true, Some(2))))
  {
    steps := [];
    OneMore(steps, Change(2));
    steps := steps + [Change(2)];
    OneMore(steps, Begin);
    steps := steps + [Begin];
    OneMore(steps, PostReply(Answer(true)));
    steps := steps + [PostReply(Answer(true))];
    OneMore(steps, PatchReply(Lost(true)));
    steps := steps + [PatchReply(Lost(true))];
    OneMore(steps, Change(1));
    steps := steps + [Change(1)];
    OneMore(steps, Retry);
    steps := steps + [Retry];
    OneMore(steps, Begin);
    steps := steps + [Begin];
  }

  /** A refusal after a lost but committed attempt takes the line off the screen and leaves its row behind. */
  lemma OrphanRun() returns (steps: seq<Step>)
    ensures Run(steps) == Some(World(Line(1, None, None, Settled(RolledBack)), Side(true, Some(1))))
  {
    steps := [];
    OneMore(steps, Begin);
    steps := steps + [Begin];
    OneMore(steps, PostReply(Lost(true)));
    steps := steps + [PostReply(Lost(true))];
    OneMore(steps, PostReply(Refusal));
    steps := steps + [PostReply(Refusal)];
  }

  // ---------------------------------------------------------------- it can always settle

  /** From a request on its way, one complete answer after the other settles the line. */
  lemma AnswersSettle(steps: seq<Step>) returns (more: seq<Step>)
    requires Run(steps).Some? && (Run(steps).value.line.phase.Patching? || Run(steps).value.line.phase.Deleting?)
    ensures steps <= more && Run(more).Some? && Run(more).value.line.phase.Settled?
    ensures Run(more).value.line.intent == Run(steps).value.line.intent && !Run(more).value.line.phase.end.RolledBack?
  {
    RunKeeps(steps);
    var w := Run(steps).value;
    more := steps;
    if w.line.phase.Patching? {
      OneMore(steps, PatchReply(Answer(true)));
      more := steps + [PatchReply(Answer(true))];
      if Run(more).value.line.phase.Patching? {
        OneMore(more, PatchReply(Answer(true)));
        more := more + [PatchReply(Answer(true))];
      } else if Run(more).value.line.phase.Deleting? {
        var last := DeleteSettles(more);
        more := last;
      }
    } else {
      more := DeleteSettles(steps);
    }
  }

  lemma DeleteSettles(steps: seq<Step>) returns (more: seq<Step>)
    requires Run(steps).Some? && Run(steps).value.line.phase.Deleting?
    ensures steps <= more && Run(more).Some? && Run(more).value.line.phase == Settled(Removed)
    ensures Run(more).value.line.intent == Run(steps).value.line.intent
  {
    more := steps;
    if Run(steps).value.side.row.Some? {
      OneMore(steps, DeleteReply(Answer(true)));
      more := steps + [DeleteReply(Answer(true))];
    } else {
      OneMore(steps, DeleteReply(Refusal));
      more := steps + [DeleteReply(Refusal)];
      OneMore(more, VerifyReply(Answer(true)));
      more := more + [VerifyReply(Answer(true))];
    }
  }

  lemma PostingSettles(steps: seq<Step>) returns (more: seq<Step>)
    requires Run(steps).Some? && Run(steps).value.line.phase.Posting?
    ensures steps <= more && Run(more).Some? && Run(more).value.line.phase.Settled?
    ensures Run(more).value.line.intent == Run(steps).value.line.intent && !Run(more).value.line.phase.end.RolledBack?
  {
    RunKeeps(steps);
    OneMore(steps, PostReply(Answer(true)));
    more := steps + [PostReply(Answer(true))];
    if !Run(more).value.line.phase.Settled? {
      var last := AnswersSettle(more);
      more := last;
    }
  }

  lemma QueuedSettles(steps: seq<Step>) returns (more: seq<Step>)
    requires Run(steps).Some? && Run(steps).value.line.phase.Queued?
    ensures steps <= more && Run(more).Some? && Run(more).value.line.phase.Settled?
    ensures Run(more).value.line.intent == Run(steps).value.line.intent && !Run(more).value.line.phase.end.RolledBack?
  {
    OneMore(steps, Begin);
    more := steps + [Begin];
    if Run(more).value.line.phase.Posting? {
      var last := PostingSettles(more);
      more := last;
    } else if !Run(more).value.line.phase.Settled? {
      var last := AnswersSettle(more);
      more := last;
    }
  }

  /**
   * No line is ever stuck: whatever has been lost, refused and changed so far, once the server answers and the
   * waiter retries, the line settles with its latest intent, as confirmed or as removed.
   */
  lemma CanAlwaysSettle(steps: seq<Step>) returns (more: seq<Step>)
    requires Run(steps).Some? && !Run(steps).value.line.phase.Settled?
    ensures steps <= more && Run(more).Some? && Run(more).value.line.phase.Settled?
    ensures var l := Run(more).value.line;
            l.intent == Run(steps).value.line.intent
            && (l.phase.end == Confirmed(l.intent) || (l.phase.end == Removed && l.intent == 0))
  {
    RunKeeps(steps);
    var w := Run(steps).value;
    match w.line.phase {
      case Queued => more := QueuedSettles(steps);
      case Posting(_) => more := PostingSettles(steps);
      case Patching(_) => more := AnswersSettle(steps);
      case Deleting => more := AnswersSettle(steps);
      case Verifying => more := VerifyingSettles(steps);
      case Stalled => more := StalledSettles(steps);
    }
    RunKeeps(more);
    EndMeans(Run(more).value);
  }

  lemma EndMeans(w: World)
    requires Inv(w) && w.line.phase.Settled? && !w.line.phase.end.RolledBack?
    ensures w.line.phase.end == Confirmed(w.line.intent) || (w.line.phase.end == Removed && w.line.intent == 0)
  {
    match w.line.phase.end
    case Confirmed(q) =>
    case Removed =>
  }

  lemma StalledSettles(steps: seq<Step>) returns (more: seq<Step>)
    requires Run(steps).Some? && Run(steps).value.line.phase.Stalled?
    ensures steps <= more && Run(more).Some? && Run(more).value.line.phase.Settled?
    ensures Run(more).value.line.intent == Run(steps).value.line.intent && !Run(more).value.line.phase.end.RolledBack?
  {
    OneMore(steps, Retry);
    more := steps + [Retry];
    var last := QueuedSettles(more);
    more := last;
  }

  lemma VerifyingSettles(steps: seq<Step>) returns (more: seq<Step>)
    requires Run(steps).Some? && Run(steps).value.line.phase.Verifying?
    ensures steps <= more && Run(more).Some? && Run(more).value.line.phase.Settled?
    ensures Run(more).value.line.intent == Run(steps).value.line.intent && !Run(more).value.line.phase.end.RolledBack?
  {
    OneMore(steps, VerifyReply(Answer(true)));
    more := steps + [VerifyReply(Answer(true))];
    if !Run(more).value.line.phase.Settled? {
      var last := StalledSettles(more);
      more := last;
    }
  }

  // ---------------------------------------------------------------- what a failure leads to

  /** A request whose answer was not heard in full. */
  predicate Unheard(r: Reply) { r.Lost? || r == Answer(false) }

  /**
   * What each failure leads to, in every run. An add whose answer was not heard is sent once more and then left to
   * be retried; a refused add is rolled back; a quantity change that fails is left to be retried; a removal that
   * fails is verified, and counts as done exactly if the server, asked again, no longer has the row.
   */
  lemma FailuresLeadOn(steps: seq<Step>, s: Step)
    requires Run(steps).Some? && Next(Run(steps).value, s).Some?
    ensures var w, v := Run(steps).value, Next(Run(steps).value, s).value;
            (s.PostReply? && Unheard(s.r) ==>
               v.line.phase == if w.line.phase == Posting(0) then Posting(1) else Stalled)
            && (s.PostReply? && s.r.Refusal? ==> v.line.phase == Settled(RolledBack))
            && (s.PatchReply? && !s.r.Answer? ==> v.line.phase == Stalled)
            && (s.DeleteReply? && !s.r.Answer? ==> v.line.phase == Verifying)
            && (s.VerifyReply? ==>
                  v.line.phase == if s.r.Answer? && w.side.row.None? then Settled(Removed) else Stalled)
  {
    RunKeeps(steps);
  }

  /** A change from nought to fifty becomes the intent and shows; anything above is ignored. */
  lemma ChangesWithinBounds(steps: seq<Step>, quantity: nat)
    requires Run(steps).Some? && Next(Run(steps).value, Change(quantity)).Some?
    ensures var l, n := Run(steps).value.line, Next(Run(steps).value, Change(quantity)).value.line;
            if quantity <= 50 then n.intent == quantity && n.phase == l.phase && n.known == l.known
            else n == l
    ensures Next(Run(steps).value, Change(quantity)).value.side == Run(steps).value.side
  {
    RunKeeps(steps);
  }
}
