/**
 * One client's own account of a job put among everything else that goes on: each run of the protocol is a
 * sequence of that client's events, its requests, and the steps of others; so what the agent does as it is
 * written prints at most once.
 */
module PrintTogether {
  import opened Common
  import opened PrintServer
  import opened PrintAgent
  import opened PrintProtocol
  import opened PrintRuns
  import opened PrintRunner

  /** Something happens to the client, its request goes out, or something happens elsewhere. */
  datatype Deed = Mine(e: Event, inLease: bool) | Send | Elsewhere(s: Step)

  /** The client does not notice: another acts, or its own claim goes unanswered. */
  predicate Unnoticed(i: nat, s: Step) { Index(s) != Some(i) || (s.Poll? && !s.heard) }

  function Happens(w: World, i: nat, d: Deed): Option<World>
  {
    if i >= |w.clients| then None
    else
      match d
      case Mine(e, inLease) =>
        if Follow(w.clients[i], e).Some? && Answers(w, i, e, inLease) then Next(w, StepOf(i, e, inLease)) else None
      case Send => Next(w, if w.clients[i].pc.Telling? then TellResult(i) else AskStart(i))
      case Elsewhere(s) => if Unnoticed(i, s) then Next(w, s) else None
  }

  function HappenAll(w: World, i: nat, deeds: seq<Deed>): Option<World>
  {
    if deeds == [] then Some(w)
    else
      match HappenAll(w, i, deeds[..|deeds| - 1])
      case None => None
      case Some(v) => Happens(v, i, deeds[|deeds| - 1])
  }

  /** What the client notices of it all. */
  function EventsOf(deeds: seq<Deed>): seq<Event>
  {
    if deeds == [] then []
    else EventsOf(deeds[..|deeds| - 1]) + match deeds[|deeds| - 1] case Mine(e, _) => [e] case _ => []
  }

  lemma HeardIsDeed(w: World, i: nat, s: Step) returns (d: Deed)
    requires i < |w.clients| && Next(w, s).Some? && Index(s) == Some(i) && (s.HearStart? || s.HearResult?)
    ensures Happens(w, i, d) == Next(w, s)
  {
    var c := w.clients[i];
    match s
    case HearStart(_, inLease) => d := Mine(StartHeard(Start(w.job, c.who, c.pc.a, inLease).Some?), inLease);
    case HearResult(_) => d := Mine(ResultHeard(Finish(w.job, c.who, c.pc.a, c.pc.out).Some?), false);
  }

  /** Every step of the protocol is a deed of this kind, whichever client is watched. */
  lemma StepIsDeed(w: World, i: nat, s: Step) returns (d: Deed)
    requires i < |w.clients| && Next(w, s).Some?
    ensures Happens(w, i, d) == Next(w, s)
  {
    if Unnoticed(i, s) {
      return Elsewhere(s);
    }
    match s
    case Poll(_, _) => d := Mine(Offered(w.job.minted), false);
    case AskStart(_) => d := Send;
    case TellResult(_) => d := Send;
    case HearStart(_, _) => d := HeardIsDeed(w, i, s);
    case HearResult(_) => d := HeardIsDeed(w, i, s);
    case Submit(_) => d := Mine(PrintCalled, false);
    case WriteResult(_) => d := Mine(ResultWritten, false);
    case _ => d := Mine(Own(s), false);
  }

  /** A deed moves the watched client by its event, or not at all, and prints no less than the event says. */
  lemma DeedFollows(w: World, i: nat, d: Deed)
    requires Happens(w, i, d).Some?
    ensures var v := Happens(w, i, d).value;
            i < |v.clients|
            && Some(v.clients[i]) == (if d.Mine? then Follow(w.clients[i], d.e) else Some(w.clients[i]))
            && |v.log.paper| >= |w.log.paper| + if d.Mine? && d.e.PrintCalled? then 1 else 0
  {
    if d.Mine? {
      EventIsStep(w, i, d.e, d.inLease);
    }
  }

  lemma Last<T>(xs: seq<T>, x: T)
    ensures (xs + [x])[..|xs|] == xs && (xs + [x])[|xs|] == x
  {
  }

  lemma OneMoreEvent(c: Client, es: seq<Event>, e: Event)
    requires FollowAll(c, es).Some?
    ensures FollowAll(c, es + [e]) == Follow(FollowAll(c, es).value, e)
    ensures Calls(es + [e]) == Calls(es) + if e.PrintCalled? then 1 else 0
  {
    Last(es, e);
  }

  lemma OneMoreDeed(deeds: seq<Deed>)
    requires deeds != []
    ensures var n := |deeds| - 1;
            EventsOf(deeds) == if deeds[n].Mine? then EventsOf(deeds[..n]) + [deeds[n].e] else EventsOf(deeds[..n])
  {
  }

  /** A sequence of deeds leads the watched client along its own events, and prints at least as often as they do. */
  lemma {:induction false} DeedsFollow(w: World, i: nat, deeds: seq<Deed>)
    requires i < |w.clients| && HappenAll(w, i, deeds).Some?
    ensures var v := HappenAll(w, i, deeds).value;
            i < |v.clients| && FollowAll(w.clients[i], EventsOf(deeds)) == Some(v.clients[i])
            && |v.log.paper| >= |w.log.paper| + Calls(EventsOf(deeds))
  {
    if deeds != [] {
      var n := |deeds| - 1;
      DeedsFollow(w, i, deeds[..n]);
      DeedFollows(HappenAll(w, i, deeds[..n]).value, i, deeds[n]);
      OneMoreDeed(deeds);
      if deeds[n].Mine? {
        OneMoreEvent(w.clients[i], EventsOf(deeds[..n]), deeds[n].e);
      }
    }
  }

  /** The step of the protocol that a deed is. */
  function DeedStep(w: World, i: nat, d: Deed): Step
  {
    match d
    case Mine(e, inLease) => StepOf(i, e, inLease)
    case Send => if i < |w.clients| && w.clients[i].pc.Telling? then TellResult(i) else AskStart(i)
    case Elsewhere(s) => s
  }

  lemma {:induction false} DeedsAreRun(steps: seq<Step>, i: nat, deeds: seq<Deed>) returns (more: seq<Step>)
    requires Run(steps).Some? && HappenAll(Run(steps).value, i, deeds).Some?
    ensures Run(more) == HappenAll(Run(steps).value, i, deeds)
  {
    more := steps;
    if deeds != [] {
      var n := |deeds| - 1;
      more := DeedsAreRun(steps, i, deeds[..n]);
      var v := HappenAll(Run(steps).value, i, deeds[..n]).value;
      Last(more, DeedStep(v, i, deeds[n]));
      more := more + [DeedStep(v, i, deeds[n])];
    }
  }

  /**
   * At most one print, for the agent as it is written: wherever an agent joins, and whatever agents, browsers and
   * the server do among its handlings and restarts, these are a run of the protocol in which it is the client it
   * takes itself for, and all of them together call the printer at most once, under a permitted attempt.
   */
  lemma AgentPrintsOnce(runner: AgentRunner, steps: seq<Step>, i: nat, deeds: seq<Deed>) returns (more: seq<Step>)
    requires runner.Valid() && Run(steps).Some? && EventsOf(deeds) == runner.events
    requires i < |Run(steps).value.clients| && Run(steps).value.clients[i] == Client(Agent, runner.who, Idle, None)
    requires HappenAll(Run(steps).value, i, deeds).Some?
    ensures Run(more) == HappenAll(Run(steps).value, i, deeds)
    ensures i < |Run(more).value.clients| && Run(more).value.clients[i] == runner.client
    ensures Calls(runner.events) <= 1
    ensures Calls(runner.events) == 1 ==>
              exists a :: Run(more).value.log.paper == [a] && a in Run(more).value.log.granted
  {
    more := DeedsAreRun(steps, i, deeds);
    DeedsFollow(Run(steps).value, i, deeds);
    AtMostOnePrint(more);
    if Calls(runner.events) == 1 {
      assert Run(more).value.log.paper == [Run(more).value.log.paper[0]];
    }
  }
}
