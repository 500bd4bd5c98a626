/**
 * The waiter cart's mutation queue: a chain of promises, each action waiting for the one before it,
 * with actions scheduled under an id that a timer or a flush moves into the chain.
 */
module CartQueue {
  import opened Common

  /** Where an entry of the chain is: its failure is absorbed before it leaves the count. */
  datatype Phase = Queued | Running | Settled(ok: bool) | Absorbed(ok: bool) | Counted(ok: bool)

  datatype Origin = Direct | FromSchedule(serial: nat)

  datatype Entry = Entry(action: nat, origin: Origin, phase: Phase)

  /** A scheduled action; serial numbers the calls to schedule. */
  datatype Scheduled = Scheduled(id: nat, action: nat, serial: nat)

  datatype Event = Failed(i: nat) | Acknowledged

  /** A flush waiting for the first `target` entries, called after `made` calls to schedule; threw says how it ended. */
  datatype Flusher = Flusher(target: nat, made: nat, acknowledge: bool, threw: Option<bool>)

  datatype Queue = Queue(entries: seq<Entry>, scheduled: seq<Scheduled>, count: int, revision: nat, failed: bool,
                         serials: nat, dropped: set<nat>, log: seq<Event>, flushers: seq<Flusher>)

  const IDLE: Queue := Queue([], [], 0, 0, false, 0, {}, [], [])

  // ---------------------------------------------------------------- what each call does

  function Enqueue(q: Queue, action: nat, origin: Origin): Queue
  {
    q.(entries := q.entries + [Entry(action, origin, Queued)], count := q.count + 1, revision := q.revision + 1)
  }

  function Slot(scheduled: seq<Scheduled>, id: nat): (r: nat)
    ensures r <= |scheduled|
    ensures r < |scheduled| ==> scheduled[r].id == id
    ensures forall i :: 0 <= i < r ==> scheduled[i].id != id
  {
    if scheduled == [] || scheduled[0].id == id then 0 else 1 + Slot(scheduled[1..], id)
  }

  function Unschedule(q: Queue, i: nat): Queue
    requires i < |q.scheduled|
  {
    q.(scheduled := q.scheduled[..i] + q.scheduled[i + 1..], revision := q.revision + 1)
  }

  function Cancel(q: Queue, id: nat): Queue
  {
    var i := Slot(q.scheduled, id);
    if i == |q.scheduled| then q
    else Unschedule(q, i).(dropped := q.dropped + {q.scheduled[i].serial})
  }

  function Schedule(q: Queue, id: nat, action: nat): Queue
  {
    var c := Cancel(q, id);
    c.(revision := c.revision + 1, scheduled := c.scheduled + [Scheduled(id, action, q.serials)],
       serials := q.serials + 1)
  }

  /** The timer of a scheduled action, or a flush, hands it to the chain. */
  function Fire(q: Queue, i: nat): Queue
    requires i < |q.scheduled|
  {
    Enqueue(Unschedule(q, i), q.scheduled[i].action, FromSchedule(q.scheduled[i].serial))
  }

  function FireAll(q: Queue): (r: Queue)
    ensures r.scheduled == []
    decreases |q.scheduled|
  {
    if q.scheduled == [] then q else FireAll(Fire(q, 0))
  }

  function Flush(q: Queue, acknowledge: bool): Queue
  {
    var f := FireAll(q);
    f.(flushers := f.flushers + [Flusher(|f.entries|, f.serials, acknowledge, None)])
  }

  function Acknowledge(q: Queue): Queue { q.(failed := false, log := q.log + [Acknowledged]) }

  // ---------------------------------------------------------------- what the promises do

  function At(q: Queue, i: nat, p: Phase): Queue
    requires i < |q.entries|
  {
    q.(entries := q.entries[i := q.entries[i].(phase := p)])
  }

  predicate Reached(q: Queue, n: nat) { n == 0 || (n <= |q.entries| && q.entries[n - 1].phase.Counted?) }

  datatype Step =
    | Push(action: nat) | Put(id: nat, action: nat) | Drop(id: nat) | Timer(id: nat) | AskFlush(acknowledge: bool) | Ack
    | Start(i: nat) | Settle(i: nat, ok: bool) | Absorb(i: nat) | Leave(i: nat) | Resume(f: nat)

  function Next(q: Queue, s: Step): Option<Queue>
  {
    match s
    case Push(action) => Some(Enqueue(q, action, Direct))
    case Put(id, action) => Some(Schedule(q, id, action))
    case Drop(id) => Some(Cancel(q, id))
    case Timer(id) => var i := Slot(q.scheduled, id); if i < |q.scheduled| then Some(Fire(q, i)) else None
    case AskFlush(acknowledge) => Some(Flush(q, acknowledge))
    case Ack => Some(Acknowledge(q))
    case Start(i) =>
      if i < |q.entries| && q.entries[i].phase.Queued? && Reached(q, i) then Some(At(q, i, Running)) else None
    case Settle(i, ok) =>
      if i < |q.entries| && q.entries[i].phase.Running? then Some(At(q, i, Settled(ok))) else None
    case Absorb(i) =>
      if i < |q.entries| && q.entries[i].phase.Settled? then
        var ok := q.entries[i].phase.ok;
        Some(At(q, i, Absorbed(ok)).(failed := q.failed || !ok, log := if ok then q.log else q.log + [Failed(i)]))
      else None
    case Leave(i) =>
      if i < |q.entries| && q.entries[i].phase.Absorbed? then
        Some(At(q, i, Counted(q.entries[i].phase.ok)).(count := q.count - 1))
      else None
    case Resume(f) =>
      if f < |q.flushers| && q.flushers[f].threw.None? && Reached(q, q.flushers[f].target) then
        var r := q.(flushers := q.flushers[f := q.flushers[f].(threw := Some(q.failed))]);
        Some(if q.failed && q.flushers[f].acknowledge then Acknowledge(r) else r)
      else None
  }

  predicate Pending(q: Queue) { q.count > 0 || |q.scheduled| > 0 }

  // ---------------------------------------------------------------- the invariant

  predicate Unfinished(e: Entry) { !e.phase.Counted? }

  function Busy(entries: seq<Entry>): nat
  {
    if entries == [] then 0
    else Busy(entries[..|entries| - 1]) + if Unfinished(entries[|entries| - 1]) then 1 else 0
  }

  /** One after the other: whoever has started has everything before it behind it. */
  ghost predicate InOrder(entries: seq<Entry>)
  {
    forall i, j :: 0 <= i < j < |entries| && !entries[j].phase.Queued? ==> entries[i].phase.Counted?
  }

  ghost predicate OncePerSerial(entries: seq<Entry>)
  {
    forall i, j :: 0 <= i < j < |entries| && entries[i].origin.FromSchedule? ==> entries[i].origin != entries[j].origin
  }

  ghost predicate Waits(scheduled: seq<Scheduled>, serial: nat)
  {
    exists i :: 0 <= i < |scheduled| && scheduled[i].serial == serial
  }

  ghost predicate Entered(entries: seq<Entry>, serial: nat)
  {
    exists i :: 0 <= i < |entries| && entries[i].origin == FromSchedule(serial)
  }

  /** Every call to schedule is in exactly one place: still waiting, in the chain once, or dropped. */
  ghost predicate SerialsOk(q: Queue)
  {
    && OncePerSerial(q.entries)
    && (forall i, j :: 0 <= i < j < |q.scheduled| ==>
          q.scheduled[i].id != q.scheduled[j].id && q.scheduled[i].serial != q.scheduled[j].serial)
    && (forall i :: 0 <= i < |q.scheduled| ==> q.scheduled[i].serial < q.serials && q.scheduled[i].serial !in q.dropped
                                               && !Entered(q.entries, q.scheduled[i].serial))
    && (forall i :: 0 <= i < |q.entries| && q.entries[i].origin.FromSchedule? ==>
          q.entries[i].origin.serial < q.serials && q.entries[i].origin.serial !in q.dropped)
    && (forall n {:trigger n in q.dropped} :: n in q.dropped ==> n < q.serials)
    && (forall n {:trigger Waits(q.scheduled, n)} :: 0 <= n < q.serials ==>
          Waits(q.scheduled, n) || Entered(q.entries, n) || n in q.dropped)
  }

  /** Some failure has come after the last acknowledgement. */
  ghost predicate FailedSince(log: seq<Event>)
  {
    exists k :: 0 <= k < |log| && log[k].Failed? && forall j :: k < j < |log| ==> !log[j].Acknowledged?
  }

  /** The log records exactly the failures that have been absorbed. */
  ghost predicate LogOk(q: Queue)
  {
    forall i: nat :: LoggedIff(q, i)
  }

  ghost predicate LoggedIff(q: Queue, i: nat) { Failed(i) in q.log <==> i < |q.entries| && HasFailed(q.entries[i]) }

  predicate HasFailed(e: Entry) { e.phase == Absorbed(false) || e.phase == Counted(false) }

  ghost predicate EnteredBelow(entries: seq<Entry>, target: nat, serial: nat)
  {
    exists i :: 0 <= i < target && i < |entries| && entries[i].origin == FromSchedule(serial)
  }

  /** What a flush waits for: everything scheduled before it and not dropped; once it ends, that has run. */
  ghost predicate FlusherOk(q: Queue, f: Flusher)
  {
    && f.target <= |q.entries| && f.made <= q.serials
    && (forall n {:trigger EnteredBelow(q.entries, f.target, n)} :: 0 <= n < f.made ==>
          n in q.dropped || EnteredBelow(q.entries, f.target, n))
    && (f.threw.Some? ==> forall i :: 0 <= i < f.target ==> q.entries[i].phase.Counted?)
  }

  ghost predicate Core(q: Queue)
  {
    InOrder(q.entries) && q.count == Busy(q.entries) && SerialsOk(q) && q.failed == FailedSince(q.log)
  }

  ghost predicate Inv(q: Queue)
  {
    Core(q) && LogOk(q) && forall k :: 0 <= k < |q.flushers| ==> FlusherOk(q, q.flushers[k])
  }

  lemma BusyOne(entries: seq<Entry>, i: nat, e: Entry)
    requires i < |entries|
    ensures Busy(entries[i := e]) + (if Unfinished(entries[i]) then 1 else 0)
            == Busy(entries) + (if Unfinished(e) then 1 else 0)
  {
    var n := |entries| - 1;
    if i == n {
      assert entries[i := e][..n] == entries[..n];
    } else {
      assert entries[i := e][..n] == entries[..n][i := e];
      BusyOne(entries[..n], i, e);
    }
  }

  lemma BusyMore(entries: seq<Entry>, e: Entry)
    ensures Busy(entries + [e]) == Busy(entries) + (if Unfinished(e) then 1 else 0)
  {
    assert (entries + [e])[..|entries|] == entries;
  }

  lemma {:induction false} BusyZero(entries: seq<Entry>)
    ensures Busy(entries) == 0 <==> forall i :: 0 <= i < |entries| ==> !Unfinished(entries[i])
  {
    if entries != [] {
      BusyZero(entries[..|entries| - 1]);
    }
  }

  lemma FailsNow(log: seq<Event>, i: nat)
    ensures FailedSince(log + [Failed(i)])
  {
    assert (log + [Failed(i)])[|log|].Failed?;
  }

  lemma ForgivenNow(log: seq<Event>)
    ensures !FailedSince(log + [Acknowledged])
  {
    assert (log + [Acknowledged])[|log|].Acknowledged?;
  }

  lemma EnqueueKeeps(q: Queue, action: nat, origin: Origin)
    requires InOrder(q.entries) && q.count == Busy(q.entries) && q.failed == FailedSince(q.log)
    ensures var e := Enqueue(q, action, origin);
            InOrder(e.entries) && e.count == Busy(e.entries) && e.failed == FailedSince(e.log)
  {
    BusyMore(q.entries, Entry(action, origin, Queued));
  }

  lemma PushKeeps(q: Queue, action: nat)
    requires Core(q)
    ensures Core(Enqueue(q, action, Direct))
  {
    EnqueueKeeps(q, action, Direct);
    var e := Enqueue(q, action, Direct);
    forall n | Entered(q.entries, n) ensures Entered(e.entries, n) {
      var i :| 0 <= i < |q.entries| && q.entries[i].origin == FromSchedule(n);
      assert e.entries[i].origin == FromSchedule(n);
    }
    forall n {:trigger Waits(e.scheduled, n)} | 0 <= n < e.serials
      ensures Waits(e.scheduled, n) || Entered(e.entries, n) || n in e.dropped
    {
      assert Waits(q.scheduled, n) || Entered(q.entries, n) || n in q.dropped;
    }
  }

  lemma WaitsBut(scheduled: seq<Scheduled>, i: nat, n: nat)
    requires i < |scheduled| && Waits(scheduled, n) && scheduled[i].serial != n
    ensures Waits(scheduled[..i] + scheduled[i + 1..], n)
  {
    var k :| 0 <= k < |scheduled| && scheduled[k].serial == n;
    assert (scheduled[..i] + scheduled[i + 1..])[if k < i then k else k - 1].serial == n;
  }

  /** Taking one call out of the schedule and into the dropped ones leaves every call in one place. */
  lemma DropKeeps(q: Queue, i: nat)
    requires SerialsOk(q) && i < |q.scheduled|
    ensures SerialsOk(Unschedule(q, i).(dropped := q.dropped + {q.scheduled[i].serial}))
  {
    var c := Unschedule(q, i).(dropped := q.dropped + {q.scheduled[i].serial});
    forall n {:trigger Waits(c.scheduled, n)} | 0 <= n < c.serials
      ensures Waits(c.scheduled, n) || Entered(c.entries, n) || n in c.dropped
    {
      assert Waits(q.scheduled, n) || Entered(q.entries, n) || n in q.dropped;
      if Waits(q.scheduled, n) && n != q.scheduled[i].serial {
        WaitsBut(q.scheduled, i, n);
      }
    }
    forall a | 0 <= a < |c.scheduled|
      ensures c.scheduled[a].serial < c.serials && c.scheduled[a].serial !in c.dropped
              && !Entered(c.entries, c.scheduled[a].serial)
    {
      assert c.scheduled[a] == q.scheduled[if a < i then a else a + 1];
    }
    assert !Entered(q.entries, q.scheduled[i].serial);
    forall a | 0 <= a < |c.entries| && c.entries[a].origin.FromSchedule?
      ensures c.entries[a].origin.serial !in c.dropped
    {
      assert Entered(q.entries, q.entries[a].origin.serial);
    }
  }

  lemma CancelKeeps(q: Queue, id: nat)
    requires Core(q)
    ensures Core(Cancel(q, id))
    ensures forall i :: 0 <= i < |Cancel(q, id).scheduled| ==> Cancel(q, id).scheduled[i].id != id
  {
    var i := Slot(q.scheduled, id);
    if i < |q.scheduled| {
      DropKeeps(q, i);
      assert forall a :: i < a < |q.scheduled| ==> q.scheduled[a].id != id;
    }
  }

  /** A new call joins the schedule under an id that is free, with a serial not used before. */
  lemma JoinKeeps(c: Queue, one: Scheduled)
    requires SerialsOk(c) && one.serial == c.serials
    requires forall i :: 0 <= i < |c.scheduled| ==> c.scheduled[i].id != one.id
    ensures SerialsOk(c.(scheduled := c.scheduled + [one], serials := c.serials + 1))
  {
    var s := c.(scheduled := c.scheduled + [one], serials := c.serials + 1);
    assert s.scheduled[|c.scheduled|].serial == one.serial;
    forall n {:trigger Waits(s.scheduled, n)} | 0 <= n < s.serials
      ensures Waits(s.scheduled, n) || Entered(s.entries, n) || n in s.dropped
    {
      if n < c.serials {
        assert Waits(c.scheduled, n) || Entered(c.entries, n) || n in c.dropped;
        WaitsStill(c.scheduled, one, n);
      }
    }
    NotEnteredYet(c);
  }

  lemma WaitsStill(scheduled: seq<Scheduled>, one: Scheduled, n: nat)
    ensures Waits(scheduled, n) ==> Waits(scheduled + [one], n)
  {
    if Waits(scheduled, n) {
      var k :| 0 <= k < |scheduled| && scheduled[k].serial == n;
      assert (scheduled + [one])[k].serial == n;
    }
  }

  lemma NotEnteredYet(q: Queue)
    requires SerialsOk(q)
    ensures !Entered(q.entries, q.serials)
  {
  }

  lemma ScheduleKeeps(q: Queue, id: nat, action: nat)
    requires Core(q)
    ensures Core(Schedule(q, id, action))
  {
    CancelKeeps(q, id);
    var c := Cancel(q, id);
    JoinKeeps(c, Scheduled(id, action, q.serials));
    SameSerials(c.(scheduled := c.scheduled + [Scheduled(id, action, q.serials)], serials := c.serials + 1),
      Schedule(q, id, action));
  }

  /** Where the calls to schedule are matters for nothing but these four. */
  lemma SameSerials(q: Queue, r: Queue)
    requires SerialsOk(q) && r.entries == q.entries && r.scheduled == q.scheduled && r.serials == q.serials
             && r.dropped == q.dropped
    ensures SerialsOk(r)
  {
  }

  /** A scheduled call moves into the chain: it stays in exactly one place. */
  lemma MoveKeeps(q: Queue, i: nat, r: Queue, e: Entry)
    requires SerialsOk(q) && i < |q.scheduled| && e.origin == FromSchedule(q.scheduled[i].serial)
    requires r.entries == q.entries + [e] && r.scheduled == q.scheduled[..i] + q.scheduled[i + 1..]
    requires r.serials == q.serials && r.dropped == q.dropped
    ensures SerialsOk(r)
  {
    var serial := q.scheduled[i].serial;
    forall n ensures Entered(r.entries, n) <==> Entered(q.entries, n) || n == serial { EnteredMore(q.entries, e, n); }
    forall n {:trigger Waits(r.scheduled, n)} | 0 <= n < r.serials
      ensures Waits(r.scheduled, n) || Entered(r.entries, n) || n in r.dropped
    {
      assert Waits(q.scheduled, n) || Entered(q.entries, n) || n in q.dropped;
      if Waits(q.scheduled, n) && n != serial {
        WaitsBut(q.scheduled, i, n);
      }
    }
    forall a | 0 <= a < |r.scheduled|
      ensures r.scheduled[a].serial < r.serials && r.scheduled[a].serial !in r.dropped
              && !Entered(r.entries, r.scheduled[a].serial)
    {
      assert r.scheduled[a] == q.scheduled[if a < i then a else a + 1];
    }
    assert !Entered(q.entries, serial);
  }

  lemma FireKeeps(q: Queue, i: nat)
    requires Core(q) && i < |q.scheduled|
    ensures Core(Fire(q, i))
  {
    EnqueueKeeps(Unschedule(q, i), q.scheduled[i].action, FromSchedule(q.scheduled[i].serial));
    MoveKeeps(q, i, Fire(q, i), Entry(q.scheduled[i].action, FromSchedule(q.scheduled[i].serial), Queued));
  }

  lemma EnteredMore(entries: seq<Entry>, e: Entry, n: nat)
    ensures Entered(entries + [e], n) <==> Entered(entries, n) || e.origin == FromSchedule(n)
  {
    if Entered(entries, n) {
      var i :| 0 <= i < |entries| && entries[i].origin == FromSchedule(n);
      assert (entries + [e])[i].origin == FromSchedule(n);
    }
    if e.origin == FromSchedule(n) {
      assert (entries + [e])[|entries|].origin == FromSchedule(n);
    }
  }

  lemma {:induction false} FireAllKeeps(q: Queue)
    requires Core(q)
    ensures Core(FireAll(q)) && Beyond(q, FireAll(q))
    decreases |q.scheduled|
  {
    if q.scheduled != [] {
      FireKeeps(q, 0);
      FireAllKeeps(Fire(q, 0));
      BeyondOn(q, Fire(q, 0), FireAll(q));
    }
  }

  lemma BeyondOn(q: Queue, p: Queue, r: Queue)
    requires q.scheduled != [] && p == Fire(q, 0) && Beyond(p, r)
    ensures Beyond(q, r)
  {
    assert forall i :: 0 <= i < |q.entries| ==> r.entries[i] == p.entries[i];
  }

  /** The chain has only been added to, and nothing has been dropped back. */
  ghost predicate Beyond(q: Queue, r: Queue)
  {
    && q.entries <= r.entries && q.serials <= r.serials && q.dropped <= r.dropped && q.log == r.log
       && q.flushers == r.flushers
    && (forall i :: |q.entries| <= i < |r.entries| ==> r.entries[i].phase.Queued?)
  }

  /** Adding to the chain disturbs neither the log nor anybody waiting in a flush. */
  lemma BeyondKeeps(q: Queue, r: Queue)
    requires Inv(q) && Core(r) && Beyond(q, r)
    ensures Inv(r)
  {
    forall i: nat ensures LoggedIff(r, i) {
      assert LoggedIff(q, i);
    }
    forall k | 0 <= k < |r.flushers| ensures FlusherOk(r, r.flushers[k]) {
      var f := q.flushers[k];
      assert FlusherOk(q, f);
      forall n {:trigger EnteredBelow(r.entries, f.target, n)} | 0 <= n < f.made
        ensures n in r.dropped || EnteredBelow(r.entries, f.target, n)
      {
        assert n in q.dropped || EnteredBelow(q.entries, f.target, n);
      }
    }
  }

  lemma FlushKeeps(q: Queue, acknowledge: bool)
    requires Inv(q)
    ensures Inv(Flush(q, acknowledge))
  {
    FireAllKeeps(q);
    var f, r := FireAll(q), Flush(q, acknowledge);
    BeyondKeeps(q, f);
    forall n {:trigger EnteredBelow(r.entries, |f.entries|, n)} | 0 <= n < f.serials
      ensures n in r.dropped || EnteredBelow(r.entries, |f.entries|, n)
    {
      assert Waits(f.scheduled, n) || Entered(f.entries, n) || n in f.dropped;
    }
    forall i: nat ensures LoggedIff(r, i) { assert LoggedIff(f, i); }
    forall k | 0 <= k < |r.flushers| ensures FlusherOk(r, r.flushers[k]) {
      assert k < |f.flushers| ==> FlusherOk(f, f.flushers[k]);
    }
  }

  // ---------------------------------------------------------------- the promises

  lemma PhaseInOrder(q: Queue, i: nat, p: Phase)
    requires InOrder(q.entries) && i < |q.entries| && !q.entries[i].phase.Counted? && !p.Queued? && Reached(q, i)
    ensures InOrder(At(q, i, p).entries)
  {
  }

  /** One entry moves on to a later phase; everything else about the chain stays. */
  lemma PhaseKeeps(q: Queue, i: nat, p: Phase)
    requires Inv(q) && i < |q.entries| && !q.entries[i].phase.Counted? && !p.Queued?
    requires Reached(q, i) && (HasFailed(q.entries[i].(phase := p)) <==> HasFailed(q.entries[i]))
    ensures Inv(At(q, i, p).(count := q.count - if p.Counted? then 1 else 0))
  {
    var r := At(q, i, p).(count := q.count - if p.Counted? then 1 else 0);
    BusyOne(q.entries, i, q.entries[i].(phase := p));
    PhaseInOrder(q, i, p);
    SameOrigins(q, i, p);
    SameSerials(At(q, i, p), r);
    forall j: nat ensures LoggedIff(r, j) { assert LoggedIff(q, j); }
    FlushersStay(q, i, p, r);
  }

  lemma SameBelow(q: Queue, i: nat, p: Phase, target: nat, n: nat)
    requires i < |q.entries|
    ensures EnteredBelow(q.entries, target, n) ==> EnteredBelow(At(q, i, p).entries, target, n)
    ensures Entered(At(q, i, p).entries, n) <==> Entered(q.entries, n)
  {
    var e := At(q, i, p).entries;
    assert forall j :: 0 <= j < |e| ==> e[j].origin == q.entries[j].origin;
    if EnteredBelow(q.entries, target, n) {
      var j :| 0 <= j < target && j < |q.entries| && q.entries[j].origin == FromSchedule(n);
      assert e[j].origin == FromSchedule(n);
    }
    if Entered(q.entries, n) {
      var j :| 0 <= j < |q.entries| && q.entries[j].origin == FromSchedule(n);
      assert e[j].origin == FromSchedule(n);
    }
  }

  lemma SameOrigins(q: Queue, i: nat, p: Phase)
    requires SerialsOk(q) && i < |q.entries|
    ensures SerialsOk(At(q, i, p))
  {
    var r := At(q, i, p);
    assert forall j :: 0 <= j < |r.entries| ==> r.entries[j].origin == q.entries[j].origin;
    forall n ensures Entered(r.entries, n) <==> Entered(q.entries, n) { SameBelow(q, i, p, 0, n); }
    forall n {:trigger Waits(r.scheduled, n)} | 0 <= n < r.serials
      ensures Waits(r.scheduled, n) || Entered(r.entries, n) || n in r.dropped
    {
      assert Waits(q.scheduled, n) || Entered(q.entries, n) || n in q.dropped;
    }
  }

  /** In order: who is not queued any more has everything before it counted. */
  lemma InOrderReached(q: Queue, i: nat)
    requires InOrder(q.entries) && i < |q.entries| && !q.entries[i].phase.Queued?
    ensures Reached(q, i)
  {
  }

  lemma AbsorbKeeps(q: Queue, i: nat)
    requires Inv(q) && Next(q, Absorb(i)).Some?
    ensures Inv(Next(q, Absorb(i)).value)
  {
    InOrderReached(q, i);
    var ok, r := q.entries[i].phase.ok, Next(q, Absorb(i)).value;
    if ok {
      PhaseKeeps(q, i, Absorbed(true));
      assert r == At(q, i, Absorbed(true)).(count := q.count - 0);
    } else {
      PhaseKeeps(q, i, Settled(false));
      FailedKeeps(q, i, r);
    }
  }

  /** The failure of an entry that has settled is recorded; nothing else moves. */
  lemma FailedKeeps(q: Queue, i: nat, r: Queue)
    requires Inv(q) && i < |q.entries| && q.entries[i].phase == Settled(false)
    requires r == At(q, i, Absorbed(false)).(failed := true, log := q.log + [Failed(i)])
    ensures Inv(r)
  {
    FailsNow(q.log, i);
    BusyOne(q.entries, i, q.entries[i].(phase := Absorbed(false)));
    SameOrigins(q, i, Absorbed(false));
    SameSerials(At(q, i, Absorbed(false)), r);
    forall j: nat ensures LoggedIff(r, j) { assert LoggedIff(q, j); }
    FlushersStay(q, i, Absorbed(false), r);
  }

  lemma FlushersStay(q: Queue, i: nat, p: Phase, r: Queue)
    requires i < |q.entries| && !q.entries[i].phase.Counted? && r.entries == At(q, i, p).entries
    requires r.serials == q.serials && r.dropped == q.dropped && r.flushers == q.flushers
    requires forall k :: 0 <= k < |q.flushers| ==> FlusherOk(q, q.flushers[k])
    ensures forall k :: 0 <= k < |r.flushers| ==> FlusherOk(r, r.flushers[k])
  {
    forall k | 0 <= k < |r.flushers| ensures FlusherOk(r, r.flushers[k]) {
      var f := q.flushers[k];
      assert FlusherOk(q, f);
      forall n {:trigger EnteredBelow(r.entries, f.target, n)} | 0 <= n < f.made
        ensures n in r.dropped || EnteredBelow(r.entries, f.target, n)
      {
        SameBelow(q, i, p, f.target, n);
      }
    }
  }

  lemma AcknowledgeKeeps(q: Queue)
    requires Inv(q)
    ensures Inv(Acknowledge(q))
  {
    ForgivenNow(q.log);
    var r := Acknowledge(q);
    forall j: nat ensures LoggedIff(r, j) {
      assert LoggedIff(q, j);
    }
    forall k | 0 <= k < |r.flushers| ensures FlusherOk(r, r.flushers[k]) { assert FlusherOk(q, q.flushers[k]); }
  }

  lemma ResumeKeeps(q: Queue, f: nat)
    requires Inv(q) && Next(q, Resume(f)).Some?
    ensures Inv(Next(q, Resume(f)).value)
  {
    var r := q.(flushers := q.flushers[f := q.flushers[f].(threw := Some(q.failed))]);
    assert FlusherOk(q, q.flushers[f]);
    forall k | 0 <= k < |r.flushers| ensures FlusherOk(r, r.flushers[k]) { assert FlusherOk(q, q.flushers[k]); }
    forall j: nat ensures LoggedIff(r, j) {
      assert LoggedIff(q, j);
    }
    assert Inv(r);
    AcknowledgeKeeps(r);
  }

  predicate IsCall(s: Step) { s.Push? || s.Put? || s.Drop? || s.Timer? || s.AskFlush? || s.Ack? }

  lemma PutKeeps(q: Queue, id: nat, action: nat)
    requires Inv(q)
    ensures Inv(Schedule(q, id, action))
  {
    ScheduleKeeps(q, id, action);
    BeyondKeeps(q, Schedule(q, id, action));
  }

  lemma DropOneKeeps(q: Queue, id: nat)
    requires Inv(q)
    ensures Inv(Cancel(q, id))
  {
    CancelKeeps(q, id);
    BeyondKeeps(q, Cancel(q, id));
  }

  lemma OneMoreBeyond(q: Queue, r: Queue)
    requires |r.entries| == |q.entries| + 1 && q.entries <= r.entries && r.entries[|q.entries|].phase.Queued?
    requires r.serials == q.serials && r.dropped == q.dropped && r.log == q.log && r.flushers == q.flushers
    ensures Beyond(q, r)
  {
  }

  lemma TimerKeeps(q: Queue, i: nat)
    requires Inv(q) && i < |q.scheduled|
    ensures Inv(Fire(q, i))
  {
    FireKeeps(q, i);
    OneMoreBeyond(q, Fire(q, i));
    BeyondKeeps(q, Fire(q, i));
  }

  lemma PushOneKeeps(q: Queue, action: nat)
    requires Inv(q)
    ensures Inv(Enqueue(q, action, Direct))
  {
    PushKeeps(q, action);
    OneMoreBeyond(q, Enqueue(q, action, Direct));
    BeyondKeeps(q, Enqueue(q, action, Direct));
  }

  lemma CallKeeps(q: Queue, s: Step)
    requires Inv(q) && IsCall(s) && Next(q, s).Some?
    ensures Inv(Next(q, s).value)
  {
    match s
    case Push(action) => PushOneKeeps(q, action);
    case Put(id, action) => PutKeeps(q, id, action);
    case Drop(id) => DropOneKeeps(q, id);
    case Timer(id) => TimerKeeps(q, Slot(q.scheduled, id));
    case AskFlush(acknowledge) => FlushKeeps(q, acknowledge);
    case Ack => AcknowledgeKeeps(q);
  }

  lemma StartKeeps(q: Queue, i: nat)
    requires Inv(q) && Next(q, Start(i)).Some?
    ensures Inv(Next(q, Start(i)).value)
  {
    PhaseKeeps(q, i, Running);
    assert At(q, i, Running).(count := q.count - 0) == At(q, i, Running);
  }

  lemma SettleKeeps(q: Queue, i: nat, ok: bool)
    requires Inv(q) && Next(q, Settle(i, ok)).Some?
    ensures Inv(Next(q, Settle(i, ok)).value)
  {
    InOrderReached(q, i);
    PhaseKeeps(q, i, Settled(ok));
    assert At(q, i, Settled(ok)).(count := q.count - 0) == At(q, i, Settled(ok));
  }

  lemma LeaveKeeps(q: Queue, i: nat)
    requires Inv(q) && Next(q, Leave(i)).Some?
    ensures Inv(Next(q, Leave(i)).value)
  {
    InOrderReached(q, i);
    PhaseKeeps(q, i, Counted(q.entries[i].phase.ok));
  }

  lemma StepKeeps(q: Queue, s: Step)
    requires Inv(q) && Next(q, s).Some?
    ensures Inv(Next(q, s).value)
  {
    match s
    case Start(i) => StartKeeps(q, i);
    case Settle(i, ok) => SettleKeeps(q, i, ok);
    case Absorb(i) => AbsorbKeeps(q, i);
    case Leave(i) => LeaveKeeps(q, i);
    case Resume(f) => ResumeKeeps(q, f);
    case _ => CallKeeps(q, s);
  }

  // ---------------------------------------------------------------- over whole runs

  function Run(steps: seq<Step>): Option<Queue>
  {
    if steps == [] then Some(IDLE)
    else match Run(steps[..|steps| - 1]) case None => None case Some(q) => Next(q, steps[|steps| - 1])
  }

  lemma {:induction false} RunKeeps(steps: seq<Step>)
    requires Run(steps).Some?
    ensures Inv(Run(steps).value)
  {
    if steps == [] {
      assert forall i: nat :: LoggedIff(IDLE, i);
    } else {
      RunKeeps(steps[..|steps| - 1]);
      StepKeeps(Run(steps[..|steps| - 1]).value, steps[|steps| - 1]);
    }
  }

  /** Actions run in the order they were enqueued and never overlap. */
  lemma FirstInFirstOut(steps: seq<Step>, i: nat, j: nat)
    requires Run(steps).Some? && i < j < |Run(steps).value.entries| && !Run(steps).value.entries[j].phase.Queued?
    ensures Run(steps).value.entries[i].phase.Counted?
  {
    RunKeeps(steps);
  }

  /** `pending` is true exactly while some action is unfinished or still scheduled. */
  lemma PendingMeansUnfinished(steps: seq<Step>)
    requires Run(steps).Some?
    ensures var q := Run(steps).value;
            Pending(q) <==> (exists i :: 0 <= i < |q.entries| && Unfinished(q.entries[i])) || q.scheduled != []
  {
    RunKeeps(steps);
    BusyZero(Run(steps).value.entries);
  }

  /**
   * When a flush has ended, every call to schedule made before it and not dropped (cancelled, or replaced by a
   * later call under the same id) has run: it is in the chain, exactly once, and behind us.
   */
  lemma FlushedOnce(steps: seq<Step>, f: nat, n: nat)
    requires Run(steps).Some? && f < |Run(steps).value.flushers| && Run(steps).value.flushers[f].threw.Some?
    requires n < Run(steps).value.flushers[f].made && n !in Run(steps).value.dropped
    ensures var q := Run(steps).value;
            exists i :: 0 <= i < |q.entries| && q.entries[i].origin == FromSchedule(n) && q.entries[i].phase.Counted?
                        && forall j :: 0 <= j < |q.entries| && q.entries[j].origin == FromSchedule(n) ==> j == i
  {
    RunKeeps(steps);
    var q := Run(steps).value;
    var g := q.flushers[f];
    assert FlusherOk(q, g);
    assert EnteredBelow(q.entries, g.target, n);
    var i :| 0 <= i < g.target && i < |q.entries| && q.entries[i].origin == FromSchedule(n);
    assert q.entries[i].phase.Counted?;
    forall j | 0 <= j < |q.entries| && q.entries[j].origin == FromSchedule(n) ensures j == i {
      assert OncePerSerial(q.entries);
    }
  }

  /** A flush throws exactly when some action has failed since the last acknowledgement. */
  lemma ThrowsExactly(steps: seq<Step>, f: nat)
    requires Run(steps).Some? && Next(Run(steps).value, Resume(f)).Some?
    ensures var q, r := Run(steps).value, Next(Run(steps).value, Resume(f)).value;
            (r.flushers[f].threw == Some(true) <==>
               exists k, i: nat :: 0 <= k < |q.log| && q.log[k] == Failed(i) && i < |q.entries|
                                && HasFailed(q.entries[i])
                              && forall j :: k < j < |q.log| ==> !q.log[j].Acknowledged?)
            && (q.flushers[f].acknowledge ==> !r.failed)
  {
    RunKeeps(steps);
    var q := Run(steps).value;
    if FailedSince(q.log) {
      var k :| 0 <= k < |q.log| && q.log[k].Failed? && forall j :: k < j < |q.log| ==> !q.log[j].Acknowledged?;
      var i := q.log[k].i;
      assert q.log[k] == Failed(i);
      assert LoggedIff(q, i);
    }
  }

  /** The revision tells: while it stands still, nothing has been enqueued, scheduled, fired or cancelled. */
  lemma {:induction false} RevisionTells(q: Queue, s: Step)
    requires Next(q, s).Some?
    ensures q.revision <= Next(q, s).value.revision
    ensures q.revision == Next(q, s).value.revision ==>
              |q.entries| == |Next(q, s).value.entries| && q.scheduled == Next(q, s).value.scheduled
              && !s.Push? && !s.Put? && !s.Timer?
  {
    if s.AskFlush? {
      FireAllCounts(q);
    }
  }

  /** Work appears only with the revision moving on. */
  lemma WorkMovesRevision(q: Queue, s: Step)
    requires Next(q, s).Some? && !Pending(q) && Pending(Next(q, s).value)
    ensures q.revision < Next(q, s).value.revision
  {
  }

  lemma {:induction false} FireAllCounts(q: Queue)
    ensures FireAll(q).revision == q.revision + 2 * |q.scheduled|
    ensures |FireAll(q).entries| == |q.entries| + |q.scheduled|
    decreases |q.scheduled|
  {
    if q.scheduled != [] {
      FireAllCounts(Fire(q, 0));
    }
  }

  // ---------------------------------------------------------------- what a flush hands over

  function Fired(scheduled: seq<Scheduled>): (r: seq<Entry>)
    ensures |r| == |scheduled|
    ensures forall i :: 0 <= i < |r| ==> r[i] == Entry(scheduled[i].action, FromSchedule(scheduled[i].serial), Queued)
  {
    seq(|scheduled|, i requires 0 <= i < |scheduled| =>
      Entry(scheduled[i].action, FromSchedule(scheduled[i].serial), Queued))
  }

  /** A flush hands over everything scheduled, oldest first, behind what is already in the chain. */
  lemma {:induction false} FlushesInOrder(q: Queue)
    ensures FireAll(q).entries == q.entries + Fired(q.scheduled)
    decreases |q.scheduled|
  {
    if q.scheduled == [] {
      assert Fired(q.scheduled) == [];
    } else {
      var one := Entry(q.scheduled[0].action, FromSchedule(q.scheduled[0].serial), Queued);
      FlushesInOrder(Fire(q, 0));
      assert Fire(q, 0).scheduled == q.scheduled[1..];
      FiredOne(q.entries, q.scheduled, one);
    }
  }

  lemma FiredOne(entries: seq<Entry>, scheduled: seq<Scheduled>, one: Entry)
    requires scheduled != [] && one == Entry(scheduled[0].action, FromSchedule(scheduled[0].serial), Queued)
    ensures entries + [one] + Fired(scheduled[1..]) == entries + Fired(scheduled)
  {
    assert Fired(scheduled) == [one] + Fired(scheduled[1..]);
  }

  // ---------------------------------------------------------------- the queue as it is kept

  /** The closure state; a timer's handle serves as the serial of the call that set it. */
  class CartMutations {
    var entries: seq<Entry>
    var scheduled: seq<Scheduled>
    var count: int
    var revision: nat
    var failed: bool
    var handles: nat
    ghost var dropped: set<nat>
    ghost var log: seq<Event>
    ghost var flushers: seq<Flusher>

    ghost function Now(): Queue
      reads this
    {
      Queue(entries, scheduled, count, revision, failed, handles, dropped, log, flushers)
    }

    constructor ()
      ensures Now() == IDLE
    {
      entries, scheduled, count, revision, failed, handles := [], [], 0, 0, false, 0;
      dropped, log, flushers := {}, [], [];
    }

    method Add(action: nat, origin: Origin)
      modifies this
      ensures Now() == Enqueue(old(Now()), action, origin)
    {
      count := count + 1;
      revision := revision + 1;
      entries := entries + [Entry(action, origin, Queued)];
    }

    /** Clearing a timer: the entry goes, the revision moves. */
    method Clear(i: nat)
      requires i < |scheduled|
      modifies this
      ensures Now() == Unschedule(old(Now()), i)
    {
      scheduled := scheduled[..i] + scheduled[i + 1..];
      revision := revision + 1;
    }

    method CancelId(id: nat)
      modifies this
      ensures Now() == Cancel(old(Now()), id)
    {
      var i := Slot(scheduled, id);
      if i < |scheduled| {
        dropped := dropped + {scheduled[i].serial};
        Clear(i);
      }
    }

    method ScheduleId(id: nat, action: nat)
      modifies this
      ensures Now() == Schedule(old(Now()), id, action)
    {
      CancelId(id);
      revision := revision + 1;
      scheduled := scheduled + [Scheduled(id, action, handles)];
      handles := handles + 1;
    }

    /** The callback of a timer: out of the schedule, into the chain. */
    method RunScheduled(i: nat)
      requires i < |scheduled|
      modifies this
      ensures Now() == Fire(old(Now()), i)
      ensures var x := old(scheduled)[i]; entries == old(entries) + [Entry(x.action, FromSchedule(x.serial), Queued)]
    {
      var entry := scheduled[i];
      Clear(i);
      Add(entry.action, FromSchedule(entry.serial));
    }

    /** The synchronous part of flush: run everything scheduled, then wait for the chain as it now stands. */
    method BeginFlush(acknowledge: bool) returns (target: nat)
      modifies this
      ensures Now() == Flush(old(Now()), acknowledge) && target == |entries|
      ensures entries == old(entries) + Fired(old(scheduled)) && scheduled == []
    {
      FlushesInOrder(Now());
      while |scheduled| > 0
        invariant FireAll(Now()) == FireAll(old(Now()))
        decreases |scheduled|
      {
        RunScheduled(0);
      }
      target := |entries|;
      flushers := flushers + [Flusher(target, handles, acknowledge, None)];
    }

    /** The rest of flush, once the chain has come that far. */
    method EndFlush(ghost f: nat, acknowledge: bool) returns (threw: bool)
      requires f < |flushers| && flushers[f].acknowledge == acknowledge && Next(Now(), Resume(f)).Some?
      modifies this
      ensures Some(Now()) == Next(old(Now()), Resume(f)) && threw == old(failed)
    {
      threw := failed;
      flushers := flushers[f := flushers[f].(threw := Some(threw))];
      if failed && acknowledge {
        AcknowledgeFailure();
      }
    }

    method AcknowledgeFailure()
      modifies this
      ensures Now() == Acknowledge(old(Now()))
    {
      failed := false;
      log := log + [Acknowledged];
    }

    /** The catch and the finally of one entry. */
    method AfterSettled(i: nat)
      requires i < |entries| && entries[i].phase.Settled?
      modifies this
      ensures Some(Now()) == match Next(old(Now()), Absorb(i)) case Some(q) => Next(q, Leave(i)) case None => None
    {
      var ok := entries[i].phase.ok;
      if !ok {
        failed := true;
        log := log + [Failed(i)];
      }
      entries := entries[i := entries[i].(phase := Absorbed(ok))];
      count := count - 1;
      entries := entries[i := entries[i].(phase := Counted(ok))];
    }

    method IsPending() returns (pending: bool)
      ensures pending == Pending(Now())
    {
      pending := count > 0 || |scheduled| > 0;
    }
  }
}
