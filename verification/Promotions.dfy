/**
 * Which promotion wins, what price the waiter is shown, and the one-timer clock behind the preview.
 * Rounding to two decimals is any function from reals to reals.
 */
module Promotions {
  import opened Common
  import opened Schedule
  import opened Texts

  datatype Kind = Percentage | FixedPrice

  datatype Target = ItemTarget(id: nat) | CategoryTarget(id: nat)

  datatype Promotion = Promotion(id: string, kind: Kind, value: real, priority: int, created: int, schedule: Rule,
                                 targets: seq<Target>)

  datatype Candidate = Candidate(id: string, kind: Kind, value: real, priority: int, created: int, itemLevel: bool,
                                 schedule: Rule)

  // ---------------------------------------------------------------- the order of preference

  /** Within one level: higher priority, then earlier creation, then the lower id. */
  predicate Ahead(a: Candidate, b: Candidate)
  {
    if a.priority != b.priority then a.priority > b.priority
    else if a.created != b.created then a.created < b.created
    else Before(a.id, b.id)
  }

  /** Over all levels: an item target before any category target. */
  predicate Over(a: Candidate, b: Candidate)
  {
    if a.itemLevel != b.itemLevel then a.itemLevel else Ahead(a, b)
  }

  predicate SameRank(a: Candidate, b: Candidate)
  {
    a.itemLevel == b.itemLevel && a.priority == b.priority && a.created == b.created && a.id == b.id
  }

  /** A strict total order on ranks. */
  lemma OverIsStrictTotal(a: Candidate, b: Candidate, c: Candidate)
    ensures !(Over(a, b) && Over(b, a)) && (SameRank(a, b) ==> !Over(a, b))
    ensures SameRank(a, b) || Over(a, b) || Over(b, a)
    ensures Over(a, b) && Over(b, c) ==> Over(a, c)
  {
    BeforeTotal(a.id, b.id);
    if Before(a.id, b.id) && Before(b.id, c.id) {
      BeforeTransitive(a.id, b.id, c.id);
    }
  }

  // ---------------------------------------------------------------- the winner

  predicate Running(c: Candidate, t: int, z: Zone)
    requires InRange(t, z)
  {
    ActiveAt(c.schedule, t, z)
  }

  function RunningOnly(cs: seq<Candidate>, t: int, z: Zone): seq<Candidate>
    requires InRange(t, z)
  {
    if cs == [] then []
    else RunningOnly(cs[..|cs| - 1], t, z) + if Running(cs[|cs| - 1], t, z) then [cs[|cs| - 1]] else []
  }

  function ItemOnly(cs: seq<Candidate>): seq<Candidate>
  {
    if cs == [] then [] else ItemOnly(cs[..|cs| - 1]) + if cs[|cs| - 1].itemLevel then [cs[|cs| - 1]] else []
  }

  /** One step of the reduction. */
  function Better(winner: Option<Candidate>, c: Candidate): Candidate
  {
    match winner
    case None => c
    case Some(w) =>
      if c.priority != w.priority then (if c.priority > w.priority then c else w)
      else if c.created != w.created then (if c.created < w.created then c else w)
      else if Before(c.id, w.id) then c else w
  }

  function Best(pool: seq<Candidate>): (r: Option<Candidate>)
    ensures r.None? <==> pool == []
  {
    if pool == [] then None else Some(Better(Best(pool[..|pool| - 1]), pool[|pool| - 1]))
  }

  function PickWinner(cs: seq<Candidate>, t: int, z: Zone): Option<Candidate>
    requires InRange(t, z)
  {
    var running := RunningOnly(cs, t, z);
    var items := ItemOnly(running);
    Best(if items != [] then items else running)
  }

  lemma {:induction false} RunningMembers(cs: seq<Candidate>, t: int, z: Zone, c: Candidate)
    requires InRange(t, z)
    ensures c in RunningOnly(cs, t, z) <==> c in cs && Running(c, t, z)
  {
    if cs != [] {
      RunningMembers(cs[..|cs| - 1], t, z, c);
      assert cs == cs[..|cs| - 1] + [cs[|cs| - 1]];
    }
  }

  lemma {:induction false} ItemMembers(cs: seq<Candidate>, c: Candidate)
    ensures c in ItemOnly(cs) <==> c in cs && c.itemLevel
  {
    if cs != [] {
      ItemMembers(cs[..|cs| - 1], c);
      assert cs == cs[..|cs| - 1] + [cs[|cs| - 1]];
    }
  }

  lemma AheadTransitive(a: Candidate, b: Candidate, c: Candidate)
    requires Ahead(a, b) && Ahead(b, c)
    ensures Ahead(a, c)
  {
    if Before(a.id, b.id) && Before(b.id, c.id) {
      BeforeTransitive(a.id, b.id, c.id);
    }
  }

  lemma AheadTotal(a: Candidate, b: Candidate)
    ensures Ahead(a, b) || Ahead(b, a) || (a.priority == b.priority && a.created == b.created && a.id == b.id)
    ensures !(Ahead(a, b) && Ahead(b, a))
  {
    BeforeTotal(a.id, b.id);
  }

  predicate NotBehind(a: Candidate, b: Candidate)
  {
    Ahead(a, b) || (a.priority == b.priority && a.created == b.created && a.id == b.id)
  }

  lemma {:induction false} BestIsBest(pool: seq<Candidate>)
    ensures pool != [] ==> Best(pool).value in pool && forall c :: c in pool ==> NotBehind(Best(pool).value, c)
  {
    if pool != [] {
      var n := |pool| - 1;
      BestIsBest(pool[..n]);
      assert pool == pool[..n] + [pool[n]];
      if n > 0 {
        var w, c := Best(pool[..n]).value, pool[n];
        AheadTotal(w, c);
        forall d | d in pool ensures NotBehind(Best(pool).value, d) {
          if d != c && Ahead(c, w) && Ahead(w, d) {
            AheadTransitive(c, w, d);
          }
        }
      }
    }
  }

  /** The winner is the first of the running candidates in the order of preference; there is one when any runs. */
  lemma WinnerIsFirst(cs: seq<Candidate>, t: int, z: Zone)
    requires InRange(t, z)
    ensures PickWinner(cs, t, z).Some? <==> exists c :: c in cs && Running(c, t, z)
    ensures PickWinner(cs, t, z).Some? ==>
              var w := PickWinner(cs, t, z).value;
              w in cs && Running(w, t, z) && forall c :: c in cs && Running(c, t, z) ==> Over(w, c) || SameRank(w, c)
  {
    var running := RunningOnly(cs, t, z);
    var items := ItemOnly(running);
    BestIsBest(if items != [] then items else running);
    forall c ensures c in running <==> c in cs && Running(c, t, z) { RunningMembers(cs, t, z, c); }
    forall c ensures c in items <==> c in running && c.itemLevel { ItemMembers(running, c); }
    if running != [] {
      assert running[0] in running;
    }
    if items != [] {
      assert items[0] in items;
    }
  }

  /** No two different candidates of one level share an id. */
  ghost predicate DistinctPerLevel(cs: seq<Candidate>)
  {
    forall a, b :: a in cs && b in cs && a.itemLevel == b.itemLevel && a.id == b.id ==> a == b
  }

  /** The order in which the candidates arrive does not matter. */
  lemma WinnerOrderFree(cs: seq<Candidate>, ds: seq<Candidate>, t: int, z: Zone)
    requires InRange(t, z) && multiset(cs) == multiset(ds) && DistinctPerLevel(cs)
    ensures PickWinner(cs, t, z) == PickWinner(ds, t, z)
  {
    WinnerIsFirst(cs, t, z);
    WinnerIsFirst(ds, t, z);
    forall c ensures c in cs <==> c in ds {
      assert c in cs <==> c in multiset(cs);
      assert c in ds <==> c in multiset(ds);
    }
    if PickWinner(cs, t, z).Some? && PickWinner(ds, t, z).Some? {
      var v, w := PickWinner(cs, t, z).value, PickWinner(ds, t, z).value;
      OverIsStrictTotal(v, w, v);
    }
  }

  // ---------------------------------------------------------------- the price shown

  datatype Preview = Preview(regular: real, effective: real, promotion: Option<Candidate>)

  function CandidateOf(p: Promotion, itemLevel: bool): Candidate
  {
    Candidate(p.id, p.kind, p.value, p.priority, p.created, itemLevel, p.schedule)
  }

  predicate ForItem(p: Promotion, item: nat) { ItemTarget(item) in p.targets }

  predicate ForCategory(p: Promotion, category: Option<nat>)
  {
    category.Some? && CategoryTarget(category.value) in p.targets
  }

  /** A promotion that targets both the item and its category is a candidate twice. */
  function CandidatesOf(ps: seq<Promotion>, item: nat, category: Option<nat>): seq<Candidate>
  {
    if ps == [] then []
    else
      var p := ps[|ps| - 1];
      CandidatesOf(ps[..|ps| - 1], item, category)
      + (if ForItem(p, item) then [CandidateOf(p, true)] else [])
      + (if ForCategory(p, category) then [CandidateOf(p, false)] else [])
  }

  /** The price for a winner: never above the regular one, and then without a promotion. */
  function PriceFor(base: real, modifiers: real, winner: Option<Candidate>, round: real -> real): Preview
  {
    var regular := round(base + modifiers);
    match winner
    case None => Preview(regular, regular, None)
    case Some(w) =>
      var discounted := if w.kind.Percentage? then base * (1.0 - w.value / 100.0) else w.value;
      var effective := round(discounted + modifiers);
      if effective > regular then Preview(regular, regular, None) else Preview(regular, effective, Some(w))
  }

  function PreviewAt(base: real, modifiers: real, item: nat, category: Option<nat>, ps: seq<Promotion>, t: int, z: Zone,
                     round: real -> real): Preview
    requires InRange(t, z)
  {
    PriceFor(base, modifiers, PickWinner(CandidatesOf(ps, item, category), t, z), round)
  }

  method PreviewEffectivePrice(base: real, modifiers: real, item: nat, category: Option<nat>, ps: seq<Promotion>,
                               t: int, z: Zone,
                               round: real -> real) returns (p: Preview)
    requires InRange(t, z)
    ensures p == PreviewAt(base, modifiers, item, category, ps, t, z, round)
  {
    var regular := round(base + modifiers);
    if |ps| == 0 {
      return Preview(regular, regular, None);
    }
    var candidates: seq<Candidate> := [];
    for i := 0 to |ps|
      invariant candidates == CandidatesOf(ps[..i], item, category)
    {
      assert ps[..i + 1][..i] == ps[..i];
      if ForItem(ps[i], item) {
        candidates := candidates + [CandidateOf(ps[i], true)];
      }
      if ForCategory(ps[i], category) {
        candidates := candidates + [CandidateOf(ps[i], false)];
      }
    }
    assert ps[..|ps|] == ps;
    p := PriceFor(base, modifiers, PickWinner(candidates, t, z), round);
  }

  /** hasActivePromotion: the cheap check behind the badge. */
  predicate HasActive(ps: seq<Promotion>, item: nat, category: Option<nat>, t: int, z: Zone)
    requires InRange(t, z)
  {
    exists i :: 0 <= i < |ps| && Targets(ps[i], item, category) && ActiveAt(ps[i].schedule, t, z)
  }

  lemma {:induction false} CandidateMembers(ps: seq<Promotion>, item: nat, category: Option<nat>, c: Candidate)
    ensures c in CandidatesOf(ps, item, category)
            <==> exists i :: 0 <= i < |ps| && c == CandidateOf(ps[i], c.itemLevel)
                             && (if c.itemLevel then ForItem(ps[i], item) else ForCategory(ps[i], category))
  {
    if ps != [] {
      var n := |ps| - 1;
      CandidateMembers(ps[..n], item, category, c);
      assert forall i :: 0 <= i < n ==> ps[..n][i] == ps[i];
    }
  }

  predicate Targets(p: Promotion, item: nat, category: Option<nat>) { ForItem(p, item) || ForCategory(p, category) }

  lemma TargetedIsCandidate(ps: seq<Promotion>, i: nat, item: nat, category: Option<nat>) returns (c: Candidate)
    requires i < |ps| && Targets(ps[i], item, category)
    ensures c in CandidatesOf(ps, item, category) && c.schedule == ps[i].schedule
  {
    c := CandidateOf(ps[i], ForItem(ps[i], item));
    CandidateMembers(ps, item, category, c);
  }

  lemma CandidateIsTargeted(ps: seq<Promotion>, c: Candidate, item: nat, category: Option<nat>) returns (i: nat)
    requires c in CandidatesOf(ps, item, category)
    ensures i < |ps| && Targets(ps[i], item, category) && c.schedule == ps[i].schedule
  {
    CandidateMembers(ps, item, category, c);
    i :| 0 <= i < |ps| && c == CandidateOf(ps[i], c.itemLevel)
         && (if c.itemLevel then ForItem(ps[i], item) else ForCategory(ps[i], category));
  }

  /** The badge is lit exactly when there is a winner; a winner is shown unless its price would be higher. */
  lemma BadgeMeansWinner(ps: seq<Promotion>, item: nat, category: Option<nat>, t: int, z: Zone)
    requires InRange(t, z)
    ensures HasActive(ps, item, category, t, z) <==> PickWinner(CandidatesOf(ps, item, category), t, z).Some?
  {
    WinnerIsFirst(CandidatesOf(ps, item, category), t, z);
    if HasActive(ps, item, category, t, z) {
      var i :| 0 <= i < |ps| && Targets(ps[i], item, category) && ActiveAt(ps[i].schedule, t, z);
      var c := TargetedIsCandidate(ps, i, item, category);
      assert Running(c, t, z);
    }
    if PickWinner(CandidatesOf(ps, item, category), t, z).Some? {
      var i := CandidateIsTargeted(ps, PickWinner(CandidatesOf(ps, item, category), t, z).value, item, category);
      assert Targets(ps[i], item, category) && ActiveAt(ps[i].schedule, t, z);
    }
  }

  // ---------------------------------------------------------------- what the preview shows

  /** This promotion covers the item itself, or its category, and its schedule is running. */
  predicate Covers(p: Promotion, item: nat, category: Option<nat>, itemLevel: bool, t: int, z: Zone)
    requires InRange(t, z)
  {
    ActiveAt(p.schedule, t, z)
    && if itemLevel then ItemTarget(item) in p.targets
       else category.Some? && CategoryTarget(category.value) in p.targets
  }

  /** Promotion p, covering the item on this level, yields to q on that one. */
  predicate Yields(p: Promotion, itemLevel: bool, q: Promotion, qLevel: bool)
  {
    || (qLevel && !itemLevel)
    || (qLevel == itemLevel
        && (q.priority > p.priority
            || (q.priority == p.priority
                && (q.created < p.created || (q.created == p.created && Before(q.id, p.id))))))
  }

  /** The winner on show is a promotion that covers the item now and yields to no other that does. */
  ghost predicate WinnerAmong(ps: seq<Promotion>, item: nat, category: Option<nat>, t: int, z: Zone, w: Candidate)
    requires InRange(t, z)
  {
    exists i :: 0 <= i < |ps| && Covers(ps[i], item, category, w.itemLevel, t, z)
                && w == Candidate(ps[i].id, ps[i].kind, ps[i].value, ps[i].priority, ps[i].created, w.itemLevel,
                               ps[i].schedule)
                && forall j, level :: 0 <= j < |ps| && Covers(ps[j], item, category, level, t, z) ==>
                     !Yields(ps[i], w.itemLevel, ps[j], level)
  }

  lemma CoversIsCandidate(ps: seq<Promotion>, item: nat, category: Option<nat>, t: int, z: Zone, j: nat, level: bool)
    requires InRange(t, z) && j < |ps| && Covers(ps[j], item, category, level, t, z)
    ensures CandidateOf(ps[j], level) in CandidatesOf(ps, item, category) && Running(CandidateOf(ps[j], level), t, z)
  {
    CandidateMembers(ps, item, category, CandidateOf(ps[j], level));
  }

  /** Whoever is shown as winner is one in terms of the promotions; and there is one exactly if any covers the item. */
  lemma WinnerIsPromotion(ps: seq<Promotion>, item: nat, category: Option<nat>, t: int, z: Zone)
    requires InRange(t, z)
    ensures var w := PickWinner(CandidatesOf(ps, item, category), t, z);
            (w.Some? <==> exists i, level :: 0 <= i < |ps| && Covers(ps[i], item, category, level, t, z))
            && (w.Some? ==> WinnerAmong(ps, item, category, t, z, w.value))
  {
    var cs := CandidatesOf(ps, item, category);
    WinnerIsFirst(cs, t, z);
    forall j: nat, level | j < |ps| && Covers(ps[j], item, category, level, t, z)
      ensures CandidateOf(ps[j], level) in cs && Running(CandidateOf(ps[j], level), t, z)
    {
      CoversIsCandidate(ps, item, category, t, z, j, level);
    }
    if PickWinner(cs, t, z).Some? {
      var w := PickWinner(cs, t, z).value;
      CandidateMembers(ps, item, category, w);
      var i :| 0 <= i < |ps| && w == CandidateOf(ps[i], w.itemLevel)
               && (if w.itemLevel then ForItem(ps[i], item) else ForCategory(ps[i], category));
      assert Covers(ps[i], item, category, w.itemLevel, t, z);
      forall j: nat, level | j < |ps| && Covers(ps[j], item, category, level, t, z)
        ensures !Yields(ps[i], w.itemLevel, ps[j], level)
      {
        var c := CandidateOf(ps[j], level);
        assert Over(w, c) || SameRank(w, c);
        OverIsStrictTotal(w, c, w);
        OverIsStrictTotal(c, w, c);
      }
    }
  }

  /** The exact price under a winner: a percentage comes off the base alone, a fixed price replaces the base. */
  ghost predicate ExactPrice(base: real, modifiers: real, w: Candidate, exact: real)
  {
    match w.kind
    case Percentage => 100.0 * (base + modifiers - exact) == w.value * base
    case FixedPrice => exact - modifiers == w.value
  }

  /**
   * What is shown. The regular price is base and modifiers, rounded; nothing ever costs more than it. Without a
   * winner it is the price; with one the rounded exact price is, unless it would be higher, and then no promotion
   * is shown.
   */
  lemma PreviewShows(base: real, modifiers: real, item: nat, category: Option<nat>, ps: seq<Promotion>, t: int, z: Zone,
                     round: real -> real, exact: real)
    requires InRange(t, z)
    ensures var p, w := PreviewAt(base, modifiers, item, category, ps, t, z, round),
                        PickWinner(CandidatesOf(ps, item, category), t, z);
            p.regular == round(base + modifiers) && p.effective <= p.regular
            && (w.None? ==> p.promotion == None && p.effective == p.regular)
            && (w.Some? && ExactPrice(base, modifiers, w.value, exact) ==>
                  p.effective == (if round(exact) <= p.regular then round(exact) else p.regular)
                  && p.promotion == (if round(exact) <= p.regular then w else None))
  {
  }

  /** There is an exact price, and only one. */
  lemma OneExactPrice(base: real, modifiers: real, w: Candidate)
    ensures exists exact :: ExactPrice(base, modifiers, w, exact)
    ensures forall a, b :: ExactPrice(base, modifiers, w, a) && ExactPrice(base, modifiers, w, b) ==> a == b
  {
    var exact := if w.kind.Percentage? then base + modifiers - w.value * base / 100.0 else w.value + modifiers;
    assert ExactPrice(base, modifiers, w, exact);
  }

  ghost predicate Monotone(round: real -> real) { forall a, b :: a <= b ==> round(a) <= round(b) }

  /**
   * Percentages of a base that is not negative: none off leaves the regular price, all off leaves the modifiers,
   * a higher one never costs more, and the promotion is always shown.
   */
  lemma PercentagesFall(base: real, modifiers: real, low: Candidate, high: Candidate, round: real -> real)
    requires Monotone(round) && 0.0 <= base && low.kind.Percentage? && high.kind.Percentage?
    requires 0.0 <= low.value <= high.value <= 100.0
    ensures var a, b := PriceFor(base, modifiers, Some(low), round), PriceFor(base, modifiers, Some(high), round);
            b.effective <= a.effective && a.promotion == Some(low) && b.promotion == Some(high)
            && (low.value == 0.0 ==> a.effective == a.regular)
            && (high.value == 100.0 ==> b.effective == round(modifiers))
  {
    ProductGrows(low.value, high.value, base);
    ProductGrows(0.0, low.value, base);
    var a := base * (1.0 - low.value / 100.0);
    var b := base * (1.0 - high.value / 100.0);
    assert a == base - low.value * base / 100.0;
    assert b == base - high.value * base / 100.0;
    assert high.value == 100.0 ==> b == 0.0;
  }

  lemma ProductGrows(x: real, y: real, k: real)
    requires x <= y && 0.0 <= k
    ensures x * k <= y * k
  {
  }

  // ---------------------------------------------------------------- the one-timer clock

  /** No rule changes within the delay; with a delay, some rule has a moment exactly at its end. */
  ghost predicate DelayOk(ps: seq<Promotion>, at: int, z: Zone, ms: Option<int>)
  {
    && (ms.Some? ==> 0 < ms.value && exists i :: 0 <= i < |ps| && Moment(ps[i].schedule, at + ms.value, z))
    && forall i :: 0 <= i < |ps| ==> Unchanged(ps[i].schedule, at, z, ms)
  }

  /** Activeness stays as it is until the delay is over, or for good. */
  ghost predicate Unchanged(r: Rule, at: int, z: Zone, ms: Option<int>)
  {
    InRange(at, z)
    && forall t :: at <= t && (ms.Some? ==> t < at + ms.value) ==>
         InRange(t, z) && (ActiveAt(r, t, z) <==> ActiveAt(r, at, z))
  }

  ghost predicate ValidRules(ps: seq<Promotion>) { forall i :: 0 <= i < |ps| ==> ValidRule(ps[i].schedule) }

  lemma ShorterUnchanged(r: Rule, at: int, z: Zone, long: Option<int>, short: int)
    requires Unchanged(r, at, z, long) && (long.Some? ==> short <= long.value)
    ensures Unchanged(r, at, z, Some(short))
  {
  }

  /** How long one rule stays as it is. */
  method MsUntilBoundary(r: Rule, at: int, z: Zone) returns (ms: Option<int>)
    requires ValidRule(r) && InRange(at, z)
    ensures Unchanged(r, at, z, ms) && (ms.Some? ==> 0 < ms.value && Moment(r, at + ms.value, z))
  {
    var next := NextScheduleBoundary(r, at, z);
    BoundaryIsSound(r, at, z, next);
    ms := if next.None? then None else Some(next.value - at);
  }

  method MsUntilNextPromoBoundary(ps: seq<Promotion>, at: int, z: Zone) returns (min: Option<int>)
    requires ValidRules(ps) && InRange(at, z)
    ensures DelayOk(ps, at, z, min)
  {
    min := None;
    for i := 0 to |ps|
      invariant min.Some? ==> 0 < min.value && exists k :: 0 <= k < i && Moment(ps[k].schedule, at + min.value, z)
      invariant forall k :: 0 <= k < i ==> Unchanged(ps[k].schedule, at, z, min)
    {
      var ms := MsUntilBoundary(ps[i].schedule, at, z);
      if ms.Some? && (min.None? || ms.value < min.value) {
        forall k | 0 <= k < i ensures Unchanged(ps[k].schedule, at, z, ms) {
          ShorterUnchanged(ps[k].schedule, at, z, min, ms.value);
        }
        min := ms;
      } else if min.Some? {
        ShorterUnchanged(ps[i].schedule, at, z, ms, min.value);
      }
    }
  }

  lemma {:induction false} SameRunning(cs: seq<Candidate>, t: int, u: int, z: Zone)
    requires InRange(t, z) && InRange(u, z)
    requires forall c :: c in cs ==> (Running(c, t, z) <==> Running(c, u, z))
    ensures RunningOnly(cs, t, z) == RunningOnly(cs, u, z)
  {
    if cs != [] {
      SameRunning(cs[..|cs| - 1], t, u, z);
      assert cs[|cs| - 1] in cs;
    }
  }

  /** While no rule changes, neither the winner nor the price does. */
  lemma PreviewHolds(base: real, modifiers: real, item: nat, category: Option<nat>, ps: seq<Promotion>, at: int, t: int,
                     z: Zone,
                     round: real -> real, ms: Option<int>)
    requires DelayOk(ps, at, z, ms) && InRange(at, z) && InRange(t, z) && at <= t && (ms.Some? ==> t < at + ms.value)
    ensures PickWinner(CandidatesOf(ps, item, category), t, z) == PickWinner(CandidatesOf(ps, item, category), at, z)
    ensures PreviewAt(base, modifiers, item, category, ps, t, z, round)
            == PreviewAt(base, modifiers, item, category, ps, at, z, round)
  {
    var cs := CandidatesOf(ps, item, category);
    forall c | c in cs ensures Running(c, t, z) <==> Running(c, at, z) {
      CandidateMembers(ps, item, category, c);
      var i :| 0 <= i < |ps| && c == CandidateOf(ps[i], c.itemLevel);
      assert Unchanged(ps[i].schedule, at, z, ms);
    }
    SameRunning(cs, t, at, z);
  }

  /** One refresh of the clock: the instant it shows from then on, and the delay it computed. */
  datatype Tick = Tick(at: int, ms: Option<int>)

  const LONGEST_TIMER: int := 86400000

  /** setTimeout(refresh, max(1, min(ms, 24 hours))), if there is anything to wait for. */
  function Due(k: Tick): Option<int>
  {
    if k.ms.None? then None
    else
      var capped := if k.ms.value < LONGEST_TIMER then k.ms.value else LONGEST_TIMER;
      Some(k.at + if capped < 1 then 1 else capped)
  }

  /** Refreshes follow one another, each no later than the timer of the one before: a focus may come earlier. */
  ghost predicate Ticks(ks: seq<Tick>, ps: seq<Promotion>, z: Zone)
  {
    && (forall i :: 0 <= i < |ks| ==> InRange(ks[i].at, z) && DelayOk(ps, ks[i].at, z, ks[i].ms))
    && (forall i :: 0 <= i < |ks| - 1 ==> NextInTime(ks[i], ks[i + 1]))
  }

  ghost predicate NextInTime(k: Tick, next: Tick) { k.at <= next.at && (Due(k).Some? ==> next.at <= Due(k).value) }

  /**
   * The one-timer clock shows the same winner and price at every instant as evaluating at that instant would:
   * between a refresh and the next one, and after the last until its timer is due.
   */
  lemma ClockShowsTheTruth(base: real, modifiers: real, item: nat, category: Option<nat>, ps: seq<Promotion>, z: Zone,
                           round: real -> real, ks: seq<Tick>, i: nat, t: int)
    requires Ticks(ks, ps, z) && i < |ks| && ks[i].at <= t && InRange(t, z)
    requires if i + 1 < |ks| then t < ks[i + 1].at else Due(ks[i]).Some? ==> t < Due(ks[i]).value
    ensures PreviewAt(base, modifiers, item, category, ps, ks[i].at, z, round)
            == PreviewAt(base, modifiers, item, category, ps, t, z, round)
  {
    if i + 1 < |ks| {
      assert NextInTime(ks[i], ks[i + 1]);
    }
    PreviewHolds(base, modifiers, item, category, ps, ks[i].at, t, z, round, ks[i].ms);
  }
}
