/**
 * The cart's queue against the history of its calls: what runs is what was given, in the order given, and a flush
 * runs everything scheduled before it that was neither cancelled nor replaced.
 */
module CartHistory {
  import opened Common
  import opened CartQueue

  // ---------------------------------------------------------------- what the history says

  /** The actions enqueued directly, in order. */
  function Pushes(steps: seq<Step>): seq<nat>
  {
    if steps == [] then []
    else Pushes(steps[..|steps| - 1]) + PushedBy(steps[|steps| - 1])
  }

  function PushedBy(s: Step): seq<nat> { if s.Push? then [s.action] else [] }

  datatype Given = Given(id: nat, action: nat)

  /** The calls to schedule, in order. */
  function Puts(steps: seq<Step>): seq<Given>
  {
    if steps == [] then [] else Puts(steps[..|steps| - 1]) + GivenBy(steps[|steps| - 1])
  }

  function GivenBy(s: Step): seq<Given> { if s.Put? then [Given(s.id, s.action)] else [] }

  /** How many flushes have been asked for. */
  function Flushes(steps: seq<Step>): nat
  {
    if steps == [] then 0 else Flushes(steps[..|steps| - 1]) + if steps[|steps| - 1].AskFlush? then 1 else 0
  }

  /** This call takes what is scheduled under the id off the schedule: it cancels or replaces it. */
  predicate Supersedes(s: Step, id: nat) { (s.Drop? || s.Put?) && s.id == id }

  /** The n-th call to schedule was superseded later on. */
  ghost predicate Superseded(steps: seq<Step>, n: nat)
  {
    exists p, k :: 0 <= p < k < |steps| && steps[p].Put? && |Puts(steps[..p])| == n && Supersedes(steps[k], steps[p].id)
  }

  // ---------------------------------------------------------------- entries keep what they were given

  function Directs(entries: seq<Entry>): seq<nat>
  {
    if entries == [] then []
    else Directs(entries[..|entries| - 1]) + DirectOf(entries[|entries| - 1])
  }

  function DirectOf(e: Entry): seq<nat> { if e.origin.Direct? then [e.action] else [] }

  ghost predicate ScheduledAs(puts: seq<Given>, x: Scheduled)
  {
    x.serial < |puts| && puts[x.serial] == Given(x.id, x.action)
  }

  ghost predicate EnteredAs(puts: seq<Given>, e: Entry)
  {
    e.origin.FromSchedule? ==> e.origin.serial < |puts| && puts[e.origin.serial].action == e.action
  }

  /** The schedule and the chain hold just what the calls gave. */
  ghost predicate Faithful(puts: seq<Given>, pushes: seq<nat>, q: Queue)
  {
    && q.serials == |puts| && Directs(q.entries) == pushes
    && (forall i :: 0 <= i < |q.scheduled| ==> ScheduledAs(puts, q.scheduled[i]))
    && forall i :: 0 <= i < |q.entries| ==> EnteredAs(puts, q.entries[i])
  }

  lemma OneMoreEntry(entries: seq<Entry>, e: Entry)
    ensures Directs(entries + [e]) == Directs(entries) + DirectOf(e)
  {
    assert (entries + [e])[..|entries|] == entries;
  }

  lemma {:induction false} SameDirects(a: seq<Entry>, b: seq<Entry>)
    requires |a| == |b| && forall i :: 0 <= i < |a| ==> a[i].origin == b[i].origin && a[i].action == b[i].action
    ensures Directs(a) == Directs(b)
  {
    if a != [] {
      SameDirects(a[..|a| - 1], b[..|b| - 1]);
    }
  }

  lemma FireFaithful(puts: seq<Given>, pushes: seq<nat>, q: Queue, i: nat)
    requires Faithful(puts, pushes, q) && i < |q.scheduled|
    ensures Faithful(puts, pushes, Fire(q, i))
  {
    var x := q.scheduled[i];
    assert ScheduledAs(puts, x);
    OneMoreEntry(q.entries, Entry(x.action, FromSchedule(x.serial), Queued));
  }

  lemma {:induction false} FireAllFaithful(puts: seq<Given>, pushes: seq<nat>, q: Queue)
    requires Faithful(puts, pushes, q)
    ensures Faithful(puts, pushes, FireAll(q)) && FireAll(q).serials == q.serials && FireAll(q).flushers == q.flushers
    ensures FireAll(q).dropped == q.dropped && q.entries <= FireAll(q).entries
    decreases |q.scheduled|
  {
    if q.scheduled != [] {
      FireFaithful(puts, pushes, q, 0);
      FireAllFaithful(puts, pushes, Fire(q, 0));
    }
  }

  lemma CancelFaithful(puts: seq<Given>, pushes: seq<nat>, q: Queue, id: nat)
    requires Faithful(puts, pushes, q)
    ensures Faithful(puts, pushes, Cancel(q, id))
  {
  }

  lemma PutFaithful(puts: seq<Given>, pushes: seq<nat>, q: Queue, id: nat, action: nat)
    requires Faithful(puts, pushes, q)
    ensures Faithful(puts + [Given(id, action)], pushes, Schedule(q, id, action))
  {
    CancelFaithful(puts, pushes, q, id);
    var c := Cancel(q, id);
    forall i | 0 <= i < |c.scheduled| ensures ScheduledAs(puts + [Given(id, action)], c.scheduled[i]) {
      assert ScheduledAs(puts, c.scheduled[i]);
    }
    forall i | 0 <= i < |c.entries| ensures EnteredAs(puts + [Given(id, action)], c.entries[i]) {
      assert EnteredAs(puts, c.entries[i]);
    }
  }

  /** What the promises do moves phases only. */
  lemma PromisesFaithful(puts: seq<Given>, pushes: seq<nat>, q: Queue, s: Step)
    requires Faithful(puts, pushes, q) && Next(q, s).Some? && (!IsCall(s) || s.Ack?)
    ensures Faithful(puts, pushes, Next(q, s).value)
  {
    var r := Next(q, s).value;
    assert |r.entries| == |q.entries|;
    forall i | 0 <= i < |q.entries|
      ensures r.entries[i].origin == q.entries[i].origin && r.entries[i].action == q.entries[i].action
    {
    }
    SameDirects(q.entries, r.entries);
    forall i | 0 <= i < |r.entries| ensures EnteredAs(puts, r.entries[i]) { assert EnteredAs(puts, q.entries[i]); }
  }

  lemma PushFaithful(puts: seq<Given>, pushes: seq<nat>, q: Queue, action: nat)
    requires Faithful(puts, pushes, q)
    ensures Faithful(puts, pushes + [action], Enqueue(q, action, Direct))
  {
    OneMoreEntry(q.entries, Entry(action, Direct, Queued));
  }

  lemma StepFaithful(puts: seq<Given>, pushes: seq<nat>, q: Queue, s: Step)
    requires Faithful(puts, pushes, q) && Next(q, s).Some?
    ensures Faithful(puts + GivenBy(s), pushes + PushedBy(s), Next(q, s).value)
  {
    assert puts + [] == puts && pushes + [] == pushes;
    match s
    case Push(action) => PushFaithful(puts, pushes, q, action);
    case Put(id, action) => PutFaithful(puts, pushes, q, id, action);
    case Drop(id) => CancelFaithful(puts, pushes, q, id);
    case Timer(id) => FireFaithful(puts, pushes, q, Slot(q.scheduled, id));
    case AskFlush(_) => FlushFaithful(puts, pushes, q, s);
    case _ => PromisesFaithful(puts, pushes, q, s);
  }

  lemma FlushFaithful(puts: seq<Given>, pushes: seq<nat>, q: Queue, s: Step)
    requires Faithful(puts, pushes, q) && s.AskFlush?
    ensures Faithful(puts, pushes, Next(q, s).value)
  {
    FireAllFaithful(puts, pushes, q);
  }

  lemma {:induction false} RunFaithful(steps: seq<Step>)
    requires Run(steps).Some?
    ensures Faithful(Puts(steps), Pushes(steps), Run(steps).value)
  {
    if steps != [] {
      var n := |steps| - 1;
      var before := steps[..n];
      RunFaithful(before);
      StepFaithful(Puts(before), Pushes(before), Run(before).value, steps[n]);
    }
  }

  /**
   * What runs is what was given. The chain holds the directly enqueued actions in the order of the calls, and an
   * entry that comes from the n-th call to schedule carries that call's action; what still waits is the call's too.
   */
  lemma WhatRunsIsWhatWasGiven(steps: seq<Step>)
    requires Run(steps).Some?
    ensures var q, puts := Run(steps).value, Puts(steps);
            Directs(q.entries) == Pushes(steps)
            && (forall i :: 0 <= i < |q.entries| && q.entries[i].origin.FromSchedule? ==>
                  q.entries[i].origin.serial < |puts| && q.entries[i].action == puts[q.entries[i].origin.serial].action)
            && (forall i :: 0 <= i < |q.scheduled| ==>
                  q.scheduled[i].serial < |puts|
                  && puts[q.scheduled[i].serial] == Given(q.scheduled[i].id, q.scheduled[i].action))
  {
    RunFaithful(steps);
    var q, puts := Run(steps).value, Puts(steps);
    forall i | 0 <= i < |q.entries| && q.entries[i].origin.FromSchedule?
      ensures q.entries[i].origin.serial < |puts| && q.entries[i].action == puts[q.entries[i].origin.serial].action
    {
      assert EnteredAs(puts, q.entries[i]);
    }
    forall i | 0 <= i < |q.scheduled|
      ensures q.scheduled[i].serial < |puts|
              && puts[q.scheduled[i].serial] == Given(q.scheduled[i].id, q.scheduled[i].action)
    {
      assert ScheduledAs(puts, q.scheduled[i]);
    }
  }

  // ---------------------------------------------------------------- dropped means superseded

  /** The n-th call to schedule is somewhere in the history, with just what it gave. */
  lemma {:induction false} PutAt(steps: seq<Step>, n: nat) returns (p: nat)
    requires n < |Puts(steps)|
    ensures p < |steps| && steps[p].Put? && |Puts(steps[..p])| == n
            && Puts(steps)[n] == Given(steps[p].id, steps[p].action)
  {
    var m := |steps| - 1;
    if n < |Puts(steps[..m])| {
      p := PutAt(steps[..m], n);
      assert steps[..m][..p] == steps[..p];
    } else {
      p := m;
    }
  }

  lemma SupersededStill(before: seq<Step>, steps: seq<Step>, n: nat)
    requires before <= steps && Superseded(before, n)
    ensures Superseded(steps, n)
  {
    var p, k :| 0 <= p < k < |before| && before[p].Put? && |Puts(before[..p])| == n
                && Supersedes(before[k], before[p].id);
    assert steps[..p] == before[..p] && steps[p] == before[p] && steps[k] == before[k];
  }

  /** What this call takes off the schedule has now been superseded. */
  lemma SupersededNow(before: seq<Step>, steps: seq<Step>, x: Scheduled)
    requires |steps| == |before| + 1 && before <= steps
    requires ScheduledAs(Puts(before), x) && Supersedes(steps[|before|], x.id)
    ensures Superseded(steps, x.serial)
  {
    var p := PutAt(before, x.serial);
    assert steps[..p] == before[..p] && steps[p] == before[p];
  }

  /** A call drops at most what was scheduled under its id, and nothing else drops anything. */
  lemma WhatDrops(q: Queue, s: Step, n: nat)
    requires Next(q, s).Some? && n in Next(q, s).value.dropped && n !in q.dropped
    ensures (s.Drop? || s.Put?) && Slot(q.scheduled, s.id) < |q.scheduled|
            && n == q.scheduled[Slot(q.scheduled, s.id)].serial
  {
    if s.AskFlush? {
      FireAllDrops(q);
    }
  }

  lemma {:induction false} FireAllDrops(q: Queue)
    ensures FireAll(q).dropped == q.dropped
    decreases |q.scheduled|
  {
    if q.scheduled != [] {
      FireAllDrops(Fire(q, 0));
    }
  }

  lemma {:induction false} DroppedMeansSuperseded(steps: seq<Step>)
    requires Run(steps).Some?
    ensures forall n: nat :: n in Run(steps).value.dropped ==> Superseded(steps, n)
  {
    if steps != [] {
      var before := steps[..|steps| - 1];
      var q := Run(before).value;
      DroppedMeansSuperseded(before);
      RunFaithful(before);
      forall n: nat | n in Run(steps).value.dropped ensures Superseded(steps, n) {
        DropSuperseded(before, steps, q, n);
      }
    }
  }

  lemma DropSuperseded(before: seq<Step>, steps: seq<Step>, q: Queue, n: nat)
    requires |steps| == |before| + 1 && before <= steps && Faithful(Puts(before), Pushes(before), q)
    requires Next(q, steps[|before|]).Some? && n in Next(q, steps[|before|]).value.dropped
    requires n in q.dropped ==> Superseded(before, n)
    ensures Superseded(steps, n)
  {
    if n in q.dropped {
      SupersededStill(before, steps, n);
    } else {
      WhatDrops(q, steps[|before|], n);
      SupersededNow(before, steps, q.scheduled[Slot(q.scheduled, steps[|before|].id)]);
    }
  }

  // ---------------------------------------------------------------- flushes

  /** The flush asked for at step a, and what had been scheduled by then. */
  ghost predicate FlushAt(steps: seq<Step>, q: Queue, a: nat)
    requires a < |steps| && steps[a].AskFlush?
  {
    var f := Flushes(steps[..a]);
    f < |q.flushers| && q.flushers[f].made == |Puts(steps[..a])| && q.flushers[f].acknowledge == steps[a].acknowledge
  }

  lemma StepFlushers(q: Queue, s: Step)
    requires Next(q, s).Some?
    ensures var r := Next(q, s).value;
            |r.flushers| == |q.flushers| + (if s.AskFlush? then 1 else 0)
            && (forall f :: 0 <= f < |q.flushers| ==>
                  r.flushers[f].made == q.flushers[f].made && r.flushers[f].acknowledge == q.flushers[f].acknowledge)
            && (s.AskFlush? ==> r.flushers[|q.flushers|].made == q.serials
                                && r.flushers[|q.flushers|].acknowledge == s.acknowledge)
  {
    if s.AskFlush? {
      FireAllLeaves(q);
    }
  }

  lemma {:induction false} FireAllLeaves(q: Queue)
    ensures FireAll(q).serials == q.serials && FireAll(q).flushers == q.flushers && q.entries <= FireAll(q).entries
    decreases |q.scheduled|
  {
    if q.scheduled != [] {
      FireAllLeaves(Fire(q, 0));
    }
  }

  /** One step on, the earlier flushes stand as they did, and a new one has what is scheduled by now. */
  lemma FlushesStep(steps: seq<Step>, before: seq<Step>, q: Queue, r: Queue)
    requires steps != [] && before == steps[..|steps| - 1] && Next(q, steps[|steps| - 1]) == Some(r)
    requires |q.flushers| == Flushes(before) && q.serials == |Puts(before)|
    requires forall a :: 0 <= a < |before| && before[a].AskFlush? ==> FlushAt(before, q, a)
    ensures |r.flushers| == Flushes(steps)
    ensures forall a :: 0 <= a < |steps| && steps[a].AskFlush? ==> FlushAt(steps, r, a)
  {
    var n := |before|;
    StepFlushers(q, steps[n]);
    forall a | 0 <= a < |steps| && steps[a].AskFlush? ensures FlushAt(steps, r, a) {
      if a < n {
        FlushStill(before, steps, q, r, a);
      }
    }
  }

  lemma FlushStill(before: seq<Step>, steps: seq<Step>, q: Queue, r: Queue, a: nat)
    requires before <= steps && a < |before| && before[a].AskFlush? && FlushAt(before, q, a)
    requires |q.flushers| <= |r.flushers|
    requires forall f :: 0 <= f < |q.flushers| ==>
               r.flushers[f].made == q.flushers[f].made && r.flushers[f].acknowledge == q.flushers[f].acknowledge
    ensures steps[a].AskFlush? && FlushAt(steps, r, a)
  {
    assert before[..a] == steps[..a];
  }

  lemma {:induction false} FlushersAre(steps: seq<Step>)
    requires Run(steps).Some?
    ensures |Run(steps).value.flushers| == Flushes(steps)
    ensures forall a :: 0 <= a < |steps| && steps[a].AskFlush? ==> FlushAt(steps, Run(steps).value, a)
  {
    if steps != [] {
      var before := steps[..|steps| - 1];
      FlushersAre(before);
      RunFaithful(before);
      FlushesStep(steps, before, Run(before).value, Run(steps).value);
    }
  }

  /** Entries stay in the chain where they are. */
  lemma {:induction false} EntriesStay(steps: seq<Step>, k: nat)
    requires Run(steps).Some? && k <= |steps|
    ensures Run(steps[..k]).Some?
    ensures forall n :: Entered(Run(steps[..k]).value.entries, n) ==> Entered(Run(steps).value.entries, n)
    decreases |steps| - k
  {
    if k == |steps| {
      assert steps[..k] == steps;
    } else {
      var m := |steps| - 1;
      assert steps[..m][..k] == steps[..k];
      EntriesStay(steps[..m], k);
      EntriesStep(Run(steps[..m]).value, steps[m]);
    }
  }

  lemma EntriesStep(q: Queue, s: Step)
    requires Next(q, s).Some?
    ensures forall n :: Entered(q.entries, n) ==> Entered(Next(q, s).value.entries, n)
  {
    if s.AskFlush? {
      FireAllLeaves(q);
    }
    forall n | Entered(q.entries, n) ensures Entered(Next(q, s).value.entries, n) {
      var i :| 0 <= i < |q.entries| && q.entries[i].origin == FromSchedule(n);
      assert Next(q, s).value.entries[i].origin == FromSchedule(n);
    }
  }

  /** A call to schedule at step p that nothing supersedes before the flush at step a. */
  ghost predicate Stands(steps: seq<Step>, p: nat, a: nat)
  {
    p < a < |steps| && steps[p].Put? && steps[a].AskFlush?
    && forall k :: p < k < a ==> !Supersedes(steps[k], steps[p].id)
  }

  lemma {:induction false} PutsGrow(steps: seq<Step>, p: nat, a: nat)
    requires p < a <= |steps| && steps[p].Put?
    ensures |Puts(steps[..p])| < |Puts(steps[..a])|
    ensures Puts(steps[..a])[|Puts(steps[..p])|] == Given(steps[p].id, steps[p].action)
    decreases a
  {
    assert steps[..a][..a - 1] == steps[..a - 1];
    if p < a - 1 {
      PutsGrow(steps, p, a - 1);
    }
  }

  lemma SamePut(steps: seq<Step>, p: nat, r: nat)
    requires p < |steps| && r < |steps| && steps[p].Put? && steps[r].Put? && |Puts(steps[..p])| == |Puts(steps[..r])|
    ensures p == r
  {
    if p < r {
      PutsGrow(steps, p, r);
    } else if r < p {
      PutsGrow(steps, r, p);
    }
  }

  /** A call that stands up to the flush has not been superseded when it is asked for. */
  lemma StandsNotDropped(steps: seq<Step>, t: seq<Step>, p: nat, a: nat)
    requires Stands(steps, p, a) && t == steps[..a + 1]
    ensures !Superseded(t, |Puts(steps[..p])|)
  {
    var n := |Puts(steps[..p])|;
    assert t[..p] == steps[..p];
    forall r, k | 0 <= r < k < |t| && t[r].Put? && |Puts(t[..r])| == n ensures !Supersedes(t[k], t[r].id) {
      SamePut(t, p, r);
    }
  }

  lemma FlushEnters(t: seq<Step>, a: nat, n: nat)
    requires Run(t).Some? && a < |t| && t[a].AskFlush? && n < |Puts(t[..a])| && !Superseded(t, n)
    ensures Entered(Run(t).value.entries, n)
  {
    var q := Run(t).value;
    CartQueue.RunKeeps(t);
    DroppedMeansSuperseded(t);
    FlushersAre(t);
    assert FlushAt(t, q, a);
    FlushHolds(q, Flushes(t[..a]), n);
  }

  lemma FlushHolds(q: Queue, f: nat, n: nat)
    requires CartQueue.Inv(q) && f < |q.flushers| && n < q.flushers[f].made && n !in q.dropped
    ensures Entered(q.entries, n)
  {
    assert FlusherOk(q, q.flushers[f]);
    assert EnteredBelow(q.entries, q.flushers[f].target, n);
  }

  /** Once the flush has been asked for, the call is in the chain for good. */
  lemma StandsEntered(steps: seq<Step>, p: nat, a: nat)
    requires Run(steps).Some? && Stands(steps, p, a)
    ensures Entered(Run(steps).value.entries, |Puts(steps[..p])|)
  {
    var t := steps[..a + 1];
    EntriesStay(steps, a + 1);
    StandsNotDropped(steps, t, p, a);
    PutsGrow(steps, p, a);
    assert t[..a] == steps[..a];
    FlushEnters(t, a, |Puts(steps[..p])|);
  }

  /**
   * A flush runs what was scheduled before it: once it has ended, the action given in each call that nothing
   * cancelled or replaced before the flush has run, and exactly once.
   */
  lemma FlushRunsWhatStands(steps: seq<Step>, p: nat, a: nat)
    requires Run(steps).Some? && Stands(steps, p, a)
    requires Flushes(steps[..a]) < |Run(steps).value.flushers|
             && Run(steps).value.flushers[Flushes(steps[..a])].threw.Some?
    ensures var q, n := Run(steps).value, |Puts(steps[..p])|;
            exists i :: 0 <= i < |q.entries| && q.entries[i].origin == FromSchedule(n)
                        && q.entries[i].action == steps[p].action && q.entries[i].phase.Counted?
                        && forall j :: 0 <= j < |q.entries| && q.entries[j].origin == FromSchedule(n) ==> j == i
  {
    var q, n, f := Run(steps).value, |Puts(steps[..p])|, Flushes(steps[..a]);
    StandsEntered(steps, p, a);
    CartQueue.RunKeeps(steps);
    FlushersAre(steps);
    assert FlushAt(steps, q, a);
    PutsGrow(steps, p, a);
    PutsGrow(steps, p, |steps|);
    assert steps[..|steps|] == steps;
    assert n !in q.dropped by {
      var i :| 0 <= i < |q.entries| && q.entries[i].origin == FromSchedule(n);
    }
    FlushedOnce(steps, f, n);
    WhatRunsIsWhatWasGiven(steps);
  }

  // ---------------------------------------------------------------- without standing still

  /** The first unfinished entry. */
  function FirstOpen(entries: seq<Entry>): (r: nat)
    ensures r <= |entries| && (r < |entries| ==> Unfinished(entries[r]))
    ensures forall i :: 0 <= i < r ==> !Unfinished(entries[i])
  {
    if entries == [] || Unfinished(entries[0]) then 0
    else
      var r := FirstOpen(entries[1..]);
      assert forall i :: 1 <= i < 1 + r ==> entries[i] == entries[1..][i - 1];
      1 + r
  }

  /**
   * The chain never stands still: while anything is unfinished, the first such entry can take its next step,
   * whatever has failed before it; and once nothing is, every waiting flush can end.
   */
  lemma NeverStandsStill(steps: seq<Step>)
    requires Run(steps).Some?
    ensures var q := Run(steps).value;
            var i := FirstOpen(q.entries);
            if i < |q.entries|
            then Next(q, Start(i)).Some? || (forall ok :: Next(q, Settle(i, ok)).Some?)
                 || Next(q, Absorb(i)).Some? || Next(q, Leave(i)).Some?
            else forall f :: 0 <= f < |q.flushers| && q.flushers[f].threw.None? ==> Next(q, Resume(f)).Some?
  {
    CartQueue.RunKeeps(steps);
    var q := Run(steps).value;
    if FirstOpen(q.entries) == |q.entries| {
      forall f: nat | f < |q.flushers| && q.flushers[f].threw.None? ensures Next(q, Resume(f)).Some? {
        assert FlusherOk(q, q.flushers[f]);
        FlushEnds(q, f);
      }
    } else {
      EntryMoves(q, FirstOpen(q.entries));
    }
  }

  lemma FlushEnds(q: Queue, f: nat)
    requires f < |q.flushers| && q.flushers[f].threw.None? && q.flushers[f].target <= |q.entries|
    requires forall i :: 0 <= i < |q.entries| ==> !Unfinished(q.entries[i])
    ensures Next(q, Resume(f)).Some?
  {
  }

  lemma EntryMoves(q: Queue, i: nat)
    requires i < |q.entries| && Unfinished(q.entries[i]) && forall j :: 0 <= j < i ==> !Unfinished(q.entries[j])
    ensures Next(q, Start(i)).Some? || (forall ok :: Next(q, Settle(i, ok)).Some?)
            || Next(q, Absorb(i)).Some? || Next(q, Leave(i)).Some?
  {
  }
}
