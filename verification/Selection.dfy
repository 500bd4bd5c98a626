/**
 * Choices of modifiers: when two selections are the same, and how a table's lines are grouped by choice.
 */
module Selection {
  import opened Common
  import opened Sums
  import opened Texts

  // ---------------------------------------------------------------- sort and compare

  predicate NotAfter(a: string, b: string) { a == b || Before(a, b) }

  ghost predicate Sorted(xs: seq<string>) { forall i, j :: 0 <= i < j < |xs| ==> NotAfter(xs[i], xs[j]) }

  function Insert(x: string, xs: seq<string>): seq<string>
  {
    if xs == [] || NotAfter(x, xs[0]) then [x] + xs else [xs[0]] + Insert(x, xs[1..])
  }

  /** The sorted copy of a list of ids. */
  function Sort(xs: seq<string>): seq<string>
  {
    if xs == [] then [] else Insert(xs[0], Sort(xs[1..]))
  }

  lemma NotAfterTransitive(a: string, b: string, c: string)
    requires NotAfter(a, b) && NotAfter(b, c)
    ensures NotAfter(a, c)
  {
    if a != b && b != c {
      BeforeTransitive(a, b, c);
    }
  }

  lemma {:induction false} InsertKeeps(x: string, xs: seq<string>)
    ensures multiset(Insert(x, xs)) == multiset(xs) + multiset{x}
    decreases |xs|
  {
    if xs != [] && !NotAfter(x, xs[0]) {
      InsertKeeps(x, xs[1..]);
      assert xs == [xs[0]] + xs[1..];
    }
  }

  lemma PrependSorted(y: string, xs: seq<string>)
    requires Sorted(xs) && forall j :: 0 <= j < |xs| ==> NotAfter(y, xs[j])
    ensures Sorted([y] + xs)
  {
  }

  lemma LeastFirst(x: string, xs: seq<string>)
    requires Sorted(xs) && xs != [] && NotAfter(x, xs[0])
    ensures forall j :: 0 <= j < |xs| ==> NotAfter(x, xs[j])
  {
    forall j | 0 <= j < |xs| ensures NotAfter(x, xs[j]) {
      assert j > 0 ==> NotAfter(xs[0], xs[j]);
      NotAfterTransitive(x, xs[0], xs[j]);
    }
  }

  lemma {:induction false} InsertSorts(x: string, xs: seq<string>)
    requires Sorted(xs)
    ensures Sorted(Insert(x, xs)) && multiset(Insert(x, xs)) == multiset(xs) + multiset{x}
    decreases |xs|
  {
    InsertKeeps(x, xs);
    if xs != [] && NotAfter(x, xs[0]) {
      LeastFirst(x, xs);
      PrependSorted(x, xs);
    } else if xs != [] {
      BeforeTotal(x, xs[0]);
      InsertSorts(x, xs[1..]);
      var rest := Insert(x, xs[1..]);
      forall j | 0 <= j < |rest| ensures NotAfter(xs[0], rest[j]) {
        assert rest[j] in multiset(rest);
        assert rest[j] in multiset(xs[1..]) || rest[j] == x;
      }
      PrependSorted(xs[0], rest);
    }
  }

  lemma {:induction false} SortSorts(xs: seq<string>)
    ensures Sorted(Sort(xs)) && multiset(Sort(xs)) == multiset(xs)
    decreases |xs|
  {
    if xs != [] {
      SortSorts(xs[1..]);
      InsertSorts(xs[0], Sort(xs[1..]));
      assert xs == [xs[0]] + xs[1..];
    }
  }

  lemma FirstIsLeast(a: seq<string>, b: seq<string>)
    requires Sorted(a) && Sorted(b) && multiset(a) == multiset(b) && a != [] && b != []
    ensures a[0] == b[0]
  {
    assert a[0] in multiset(b) && b[0] in multiset(a);
    var i :| 0 <= i < |b| && b[i] == a[0];
    var j :| 0 <= j < |a| && a[j] == b[0];
    assert NotAfter(b[0], b[i]) && NotAfter(a[0], a[j]);
    BeforeTotal(a[0], b[0]);
  }

  /** There is only one sorted order, so any sorting gives this one. */
  lemma {:induction false} SortedIsUnique(a: seq<string>, b: seq<string>)
    requires Sorted(a) && Sorted(b) && multiset(a) == multiset(b)
    ensures a == b
    decreases |a|
  {
    assert |a| == |multiset(a)| && |b| == |multiset(b)|;
    if a != [] {
      FirstIsLeast(a, b);
      assert a == [a[0]] + a[1..] && b == [b[0]] + b[1..];
      assert multiset(a[1..]) == multiset(a) - multiset{a[0]};
      assert multiset(b[1..]) == multiset(b) - multiset{b[0]};
      SortedIsUnique(a[1..], b[1..]);
    }
  }

  datatype Modifier = Modifier(optionId: Option<string>)

  /** The option ids of a line's modifiers; options deleted since have none. */
  function OptionIds(ms: seq<Modifier>): seq<string>
  {
    if ms == [] then [] else (if ms[0].optionId.Some? then [ms[0].optionId.value] else []) + OptionIds(ms[1..])
  }

  /** sameModifierSelection: sort both, compare lengths, compare place by place. */
  predicate SameModifierSelection(existing: seq<Modifier>, selected: seq<string>)
  {
    var a, b := Sort(OptionIds(existing)), Sort(selected);
    |a| == |b| && forall i :: 0 <= i < |a| ==> a[i] == b[i]
  }

  /** Sorting and comparing decides whether the same options were chosen equally often, in whatever order. */
  lemma SameMeansMultiset(existing: seq<Modifier>, selected: seq<string>)
    ensures SameModifierSelection(existing, selected) <==> multiset(OptionIds(existing)) == multiset(selected)
  {
    var ids := OptionIds(existing);
    SortSorts(ids);
    SortSorts(selected);
    if multiset(ids) == multiset(selected) {
      SortedIsUnique(Sort(ids), Sort(selected));
    }
    assert SameModifierSelection(existing, selected) ==> Sort(ids) == Sort(selected);
  }

  // ---------------------------------------------------------------- grouping a table's lines

  datatype Line =
    Line(menuItem: Option<string>, note: Option<string>, modifiers: seq<Modifier>, quantity: nat, submitted: nat)

  datatype Memory = Memory(menuItem: string, options: seq<string>, quantity: nat, recent: nat)

  /** A line can be repeated only if it still has its item, no note, and every option. */
  predicate Eligible(l: Line)
  {
    l.menuItem.Some? && l.menuItem.value != "" && (l.note.None? || l.note.value == "")
    && forall i :: 0 <= i < |l.modifiers| ==> l.modifiers[i].optionId.Some? && l.modifiers[i].optionId.value != ""
  }

  function EntryOf(l: Line): Memory
    requires Eligible(l)
  {
    Memory(l.menuItem.value, OptionIds(l.modifiers), l.quantity, l.submitted)
  }

  function AsModifiers(options: seq<string>): (r: seq<Modifier>)
    ensures |r| == |options| && forall i :: 0 <= i < |r| ==> r[i] == Modifier(Some(options[i]))
  {
    seq(|options|, i requires 0 <= i < |options| => Modifier(Some(options[i])))
  }

  predicate Matches(a: Memory, b: Memory)
  {
    a.menuItem == b.menuItem && SameModifierSelection(AsModifiers(a.options), b.options)
  }

  /** What matching compares. */
  datatype Choice = Choice(menuItem: string, options: multiset<string>)

  function ChoiceOf(m: Memory): Choice { Choice(m.menuItem, multiset(m.options)) }

  lemma {:induction false} IdsOfOptions(options: seq<string>)
    ensures OptionIds(AsModifiers(options)) == options
    decreases |options|
  {
    if options != [] {
      IdsOfOptions(options[1..]);
      assert AsModifiers(options)[1..] == AsModifiers(options[1..]);
    }
  }

  lemma MatchesIsChoice(a: Memory, b: Memory)
    ensures Matches(a, b) <==> ChoiceOf(a) == ChoiceOf(b)
  {
    IdsOfOptions(a.options);
    SameMeansMultiset(AsModifiers(a.options), b.options);
  }

  function FirstMatch(entries: seq<Memory>, next: Memory): (r: nat)
    ensures r <= |entries|
    ensures r < |entries| ==> Matches(entries[r], next)
    ensures forall i :: 0 <= i < r ==> !Matches(entries[i], next)
  {
    if entries == [] || Matches(entries[0], next) then 0
    else
      var r := FirstMatch(entries[1..], next);
      assert forall i :: 1 <= i < 1 + r ==> entries[i] == entries[1..][i - 1];
      1 + r
  }

  function Max(a: nat, b: nat): nat { if a < b then b else a }

  function Grouped(entries: seq<Memory>, next: Memory): seq<Memory>
  {
    var i := FirstMatch(entries, next);
    if i == |entries| then entries + [next]
    else entries[i := Joined(entries[i], next)]
  }

  function Selections(lines: seq<Line>): seq<Memory>
  {
    if lines == [] then []
    else
      var l := lines[|lines| - 1];
      var before := Selections(lines[..|lines| - 1]);
      if Eligible(l) then Grouped(before, EntryOf(l)) else before
  }

  // ---------------------------------------------------------------- what the groups are

  ghost predicate Apart(entries: seq<Memory>)
  {
    forall i, j :: 0 <= i < j < |entries| ==> ChoiceOf(entries[i]) != ChoiceOf(entries[j])
  }

  function EntryQuantity(m: Memory): nat { m.quantity }

  function LineQuantity(l: Line): nat { if Eligible(l) then l.quantity else 0 }

  function OfChoice(c: Choice): Line -> nat
  {
    (l: Line) => if Eligible(l) && ChoiceOf(EntryOf(l)) == c then l.quantity else 0
  }

  ghost predicate ChosenIn(lines: seq<Line>, c: Choice)
  {
    exists i :: 0 <= i < |lines| && Eligible(lines[i]) && ChoiceOf(EntryOf(lines[i])) == c
  }

  /** The latest time any line of this choice was submitted. */
  function Latest(lines: seq<Line>, c: Choice): nat
  {
    if lines == [] then 0
    else
      var l := lines[|lines| - 1];
      Max(Latest(lines[..|lines| - 1], c), if Eligible(l) && ChoiceOf(EntryOf(l)) == c then l.submitted else 0)
  }

  /** Each entry stands for one choice: all of its quantity, and the latest time of it. */
  ghost predicate Stands(lines: seq<Line>, m: Memory)
  {
    && ChosenIn(lines, ChoiceOf(m))
    && m.quantity == Sum(lines, OfChoice(ChoiceOf(m)))
    && m.recent == Latest(lines, ChoiceOf(m))
  }

  ghost predicate Has(entries: seq<Memory>, c: Choice) { exists i :: 0 <= i < |entries| && ChoiceOf(entries[i]) == c }

  ghost predicate AllHave(lines: seq<Line>, entries: seq<Memory>)
  {
    forall i :: 0 <= i < |lines| && Eligible(lines[i]) ==> Has(entries, ChoiceOf(EntryOf(lines[i])))
  }

  ghost predicate GroupsOk(lines: seq<Line>, entries: seq<Memory>)
  {
    && Apart(entries)
    && (forall i :: 0 <= i < |entries| ==> Stands(lines, entries[i]))
    && AllHave(lines, entries)
    && Sum(entries, EntryQuantity) == Sum(lines, LineQuantity)
  }

  lemma {:induction false} NotChosen(lines: seq<Line>, c: Choice)
    requires !ChosenIn(lines, c)
    ensures Sum(lines, OfChoice(c)) == 0 && Latest(lines, c) == 0
  {
    if lines != [] {
      var n := |lines| - 1;
      assert forall i :: 0 <= i < n ==> lines[..n][i] == lines[i];
      NotChosen(lines[..n], c);
      assert !(Eligible(lines[n]) && ChoiceOf(EntryOf(lines[n])) == c);
    }
  }

  lemma ChosenMore(lines: seq<Line>, l: Line, c: Choice)
    ensures ChosenIn(lines, c) ==> ChosenIn(lines + [l], c)
    ensures Eligible(l) ==> ChosenIn(lines + [l], ChoiceOf(EntryOf(l)))
  {
    if ChosenIn(lines, c) {
      var i :| 0 <= i < |lines| && Eligible(lines[i]) && ChoiceOf(EntryOf(lines[i])) == c;
      assert (lines + [l])[i] == lines[i];
    }
    assert (lines + [l])[|lines|] == l;
  }

  /** One more line adds to its own choice only. */
  lemma OneMoreLine(lines: seq<Line>, l: Line, c: Choice)
    ensures Sum(lines + [l], OfChoice(c)) == Sum(lines, OfChoice(c)) + OfChoice(c)(l)
    ensures Latest(lines + [l], c)
            == Max(Latest(lines, c), if Eligible(l) && ChoiceOf(EntryOf(l)) == c then l.submitted else 0)
    ensures Sum(lines + [l], LineQuantity) == Sum(lines, LineQuantity) + LineQuantity(l)
  {
    SumAppend(lines, l, OfChoice(c));
    SumAppend(lines, l, LineQuantity);
    assert (lines + [l])[..|lines|] == lines;
  }

  lemma StandsStill(lines: seq<Line>, l: Line, m: Memory)
    requires Stands(lines, m) && (Eligible(l) ==> ChoiceOf(EntryOf(l)) != ChoiceOf(m))
    ensures Stands(lines + [l], m)
  {
    ChosenMore(lines, l, ChoiceOf(m));
    OneMoreLine(lines, l, ChoiceOf(m));
  }

  /** What a group becomes when a line of its choice joins it. */
  function Joined(m: Memory, next: Memory): Memory
  {
    m.(quantity := m.quantity + next.quantity, recent := Max(m.recent, next.recent))
  }

  lemma StandsJoined(lines: seq<Line>, l: Line, m: Memory)
    requires Stands(lines, m) && Eligible(l) && ChoiceOf(EntryOf(l)) == ChoiceOf(m)
    ensures Stands(lines + [l], Joined(m, EntryOf(l))) && ChoiceOf(Joined(m, EntryOf(l))) == ChoiceOf(m)
  {
    ChosenMore(lines, l, ChoiceOf(m));
    OneMoreLine(lines, l, ChoiceOf(m));
  }

  lemma StandsNew(lines: seq<Line>, l: Line)
    requires Eligible(l) && !ChosenIn(lines, ChoiceOf(EntryOf(l)))
    ensures Stands(lines + [l], EntryOf(l))
  {
    var c := ChoiceOf(EntryOf(l));
    NotChosen(lines, c);
    ChosenMore(lines, l, c);
    OneMoreLine(lines, l, c);
  }

  lemma SkippedKeeps(lines: seq<Line>, l: Line, entries: seq<Memory>)
    requires GroupsOk(lines, entries) && !Eligible(l)
    ensures GroupsOk(lines + [l], entries)
  {
    OneMoreLine(lines, l, Choice("", multiset{}));
    forall i | 0 <= i < |entries| ensures Stands(lines + [l], entries[i]) { StandsStill(lines, l, entries[i]); }
  }

  lemma HaveMore(lines: seq<Line>, l: Line, entries: seq<Memory>, after: seq<Memory>)
    requires AllHave(lines, entries) && Eligible(l) && Has(after, ChoiceOf(EntryOf(l)))
    requires forall c :: Has(entries, c) ==> Has(after, c)
    ensures AllHave(lines + [l], after)
  {
    forall i | 0 <= i < |lines + [l]| && Eligible((lines + [l])[i])
      ensures Has(after, ChoiceOf(EntryOf((lines + [l])[i])))
    {
      if i < |lines| {
        assert Has(entries, ChoiceOf(EntryOf(lines[i])));
      }
    }
  }

  lemma SameChoices(entries: seq<Memory>, after: seq<Memory>)
    requires |entries| <= |after| && forall i :: 0 <= i < |entries| ==> ChoiceOf(after[i]) == ChoiceOf(entries[i])
    ensures forall c :: Has(entries, c) ==> Has(after, c)
  {
    forall c | Has(entries, c) ensures Has(after, c) {
      var i :| 0 <= i < |entries| && ChoiceOf(entries[i]) == c;
      assert ChoiceOf(after[i]) == c;
    }
  }

  lemma JoinStands(lines: seq<Line>, l: Line, entries: seq<Memory>, k: nat, i: nat)
    requires Apart(entries) && (forall j :: 0 <= j < |entries| ==> Stands(lines, entries[j]))
    requires Eligible(l) && k < |entries| && ChoiceOf(entries[k]) == ChoiceOf(EntryOf(l)) && i < |entries|
    ensures var after := entries[k := Joined(entries[k], EntryOf(l))];
            Stands(lines + [l], after[i]) && ChoiceOf(after[i]) == ChoiceOf(entries[i])
  {
    assert Stands(lines, entries[i]);
    if i == k {
      StandsJoined(lines, l, entries[k]);
    } else {
      assert ChoiceOf(entries[i]) != ChoiceOf(entries[k]);
      StandsStill(lines, l, entries[i]);
    }
  }

  lemma StillApart(entries: seq<Memory>, after: seq<Memory>)
    requires Apart(entries) && |after| == |entries|
    requires forall i :: 0 <= i < |entries| ==> ChoiceOf(after[i]) == ChoiceOf(entries[i])
    ensures Apart(after)
  {
  }

  lemma JoinSum(lines: seq<Line>, l: Line, entries: seq<Memory>, k: nat)
    requires Eligible(l) && k < |entries| && Sum(entries, EntryQuantity) == Sum(lines, LineQuantity)
    ensures Sum(entries[k := Joined(entries[k], EntryOf(l))], EntryQuantity) == Sum(lines + [l], LineQuantity)
  {
    SumUpdate(entries, k, Joined(entries[k], EntryOf(l)), EntryQuantity);
    SumAppend(lines, l, LineQuantity);
  }

  lemma JoinKeeps(lines: seq<Line>, l: Line, entries: seq<Memory>, k: nat)
    requires GroupsOk(lines, entries) && Eligible(l) && k < |entries| && ChoiceOf(entries[k]) == ChoiceOf(EntryOf(l))
    ensures GroupsOk(lines + [l], entries[k := Joined(entries[k], EntryOf(l))])
  {
    var after := entries[k := Joined(entries[k], EntryOf(l))];
    forall i | 0 <= i < |after| ensures Stands(lines + [l], after[i]) && ChoiceOf(after[i]) == ChoiceOf(entries[i]) {
      JoinStands(lines, l, entries, k, i);
    }
    StillApart(entries, after);
    SameChoices(entries, after);
    assert ChoiceOf(after[k]) == ChoiceOf(EntryOf(l));
    HaveMore(lines, l, entries, after);
    JoinSum(lines, l, entries, k);
  }

  lemma NotYetChosen(lines: seq<Line>, entries: seq<Memory>, c: Choice)
    requires AllHave(lines, entries) && !Has(entries, c)
    ensures !ChosenIn(lines, c)
  {
  }

  lemma NewKeeps(lines: seq<Line>, l: Line, entries: seq<Memory>)
    requires GroupsOk(lines, entries) && Eligible(l) && !Has(entries, ChoiceOf(EntryOf(l)))
    ensures GroupsOk(lines + [l], entries + [EntryOf(l)])
  {
    var after := entries + [EntryOf(l)];
    var c := ChoiceOf(EntryOf(l));
    NotYetChosen(lines, entries, c);
    StandsNew(lines, l);
    forall i | 0 <= i < |entries| ensures Stands(lines + [l], entries[i]) && ChoiceOf(entries[i]) != c {
      StandsStill(lines, l, entries[i]);
    }
    SameChoices(entries, after);
    assert ChoiceOf(after[|entries|]) == c;
    HaveMore(lines, l, entries, after);
    SumAppend(entries, EntryOf(l), EntryQuantity);
    OneMoreLine(lines, l, c);
  }

  lemma NoMatchNoChoice(entries: seq<Memory>, next: Memory)
    ensures FirstMatch(entries, next) == |entries| ==> !Has(entries, ChoiceOf(next))
  {
    forall i | 0 <= i < |entries| ensures Matches(entries[i], next) <==> ChoiceOf(entries[i]) == ChoiceOf(next) {
      MatchesIsChoice(entries[i], next);
    }
  }

  /**
   * The groups of a table's lines: no two entries match each other, every eligible line belongs to one, each
   * has the summed quantity and the latest time of its choice, and the quantities add up to the eligible lines'.
   */
  lemma {:induction false} GroupsConserve(lines: seq<Line>)
    ensures GroupsOk(lines, Selections(lines))
    ensures forall i, j :: 0 <= i < j < |Selections(lines)| ==> !Matches(Selections(lines)[i], Selections(lines)[j])
  {
    if lines != [] {
      var n := |lines| - 1;
      var l, before := lines[n], Selections(lines[..n]);
      GroupsConserve(lines[..n]);
      assert lines == lines[..n] + [l];
      if !Eligible(l) {
        SkippedKeeps(lines[..n], l, before);
      } else {
        var k := FirstMatch(before, EntryOf(l));
        if k < |before| {
          MatchesIsChoice(before[k], EntryOf(l));
          JoinKeeps(lines[..n], l, before, k);
        } else {
          NoMatchNoChoice(before, EntryOf(l));
          NewKeeps(lines[..n], l, before);
        }
      }
    }
    var entries := Selections(lines);
    forall i, j | 0 <= i < j < |entries| ensures !Matches(entries[i], entries[j]) {
      MatchesIsChoice(entries[i], entries[j]);
    }
  }

  // ---------------------------------------------------------------- the groups in the lines' own terms

  /** The line still names its item, carries no note, and every one of its options still exists. */
  predicate Repeatable(l: Line)
  {
    && (match l.menuItem case None => false case Some(item) => |item| > 0)
    && (match l.note case None => true case Some(note) => |note| == 0)
    && forall m :: m in l.modifiers ==> match m.optionId case None => false case Some(option) => |option| > 0
  }

  /** The options of a line, each as often as it was chosen. */
  function Chosen(ms: seq<Modifier>): multiset<string>
  {
    if ms == [] then multiset{}
    else Chosen(ms[..|ms| - 1]) + match ms[|ms| - 1].optionId case None => multiset{} case Some(o) => multiset{o}
  }

  /** The line can be repeated, and is of this item with these options. */
  predicate OfKind(l: Line, item: string, options: multiset<string>)
  {
    Repeatable(l) && l.menuItem == Some(item) && Chosen(l.modifiers) == options
  }

  function AmountOf(item: string, options: multiset<string>): Line -> nat
  {
    (l: Line) => if OfKind(l, item, options) then l.quantity else 0
  }

  lemma {:induction false} IdsMore(ms: seq<Modifier>, m: Modifier)
    ensures OptionIds(ms + [m]) == OptionIds(ms) + OptionIds([m])
    decreases |ms|
  {
    if ms == [] {
      assert ms + [m] == [m];
    } else {
      assert (ms + [m])[1..] == ms[1..] + [m];
      IdsMore(ms[1..], m);
    }
  }

  lemma {:induction false} ChosenIds(ms: seq<Modifier>)
    ensures multiset(OptionIds(ms)) == Chosen(ms)
  {
    if ms != [] {
      var n := |ms| - 1;
      ChosenIds(ms[..n]);
      assert ms == ms[..n] + [ms[n]];
      IdsMore(ms[..n], ms[n]);
      assert [ms[n]][1..] == [];
      assert OptionIds([ms[n]]) == match ms[n].optionId case None => [] case Some(o) => [o];
    }
  }

  lemma KindMeans(l: Line, item: string, options: multiset<string>)
    ensures OfKind(l, item, options) <==> Eligible(l) && ChoiceOf(EntryOf(l)) == Choice(item, options)
  {
    ChosenIds(l.modifiers);
    if Eligible(l) {
      forall m | m in l.modifiers ensures match m.optionId case None => false case Some(option) => |option| > 0 {
        var i :| 0 <= i < |l.modifiers| && l.modifiers[i] == m;
      }
    }
    if Repeatable(l) {
      forall i | 0 <= i < |l.modifiers| ensures l.modifiers[i].optionId.Some? && l.modifiers[i].optionId.value != "" {
        assert l.modifiers[i] in l.modifiers;
      }
    }
  }

  lemma {:induction false} LatestIs(lines: seq<Line>, c: Choice)
    ensures forall i :: 0 <= i < |lines| && OfKind(lines[i], c.menuItem, c.options) ==>
            lines[i].submitted <= Latest(lines, c)
    ensures ChosenIn(lines, c) ==>
              exists i :: 0 <= i < |lines| && OfKind(lines[i], c.menuItem, c.options)
                && lines[i].submitted == Latest(lines, c)
  {
    if lines != [] {
      var n := |lines| - 1;
      LatestIs(lines[..n], c);
      KindMeans(lines[n], c.menuItem, c.options);
      assert lines == lines[..n] + [lines[n]];
      if !ChosenIn(lines[..n], c) {
        NotChosen(lines[..n], c);
      }
    }
  }

  /** One entry, in the lines' own terms: all that was ordered of its item with its options, and when last. */
  ghost predicate Gathers(lines: seq<Line>, m: Memory)
  {
    var options := multiset(m.options);
    && m.quantity == Sum(lines, AmountOf(m.menuItem, options))
    && (exists i :: 0 <= i < |lines| && OfKind(lines[i], m.menuItem, options) && lines[i].submitted == m.recent)
    && forall i :: 0 <= i < |lines| && OfKind(lines[i], m.menuItem, options) ==> lines[i].submitted <= m.recent
  }

  lemma StandsGathers(lines: seq<Line>, m: Memory)
    requires Stands(lines, m)
    ensures Gathers(lines, m)
  {
    var c := ChoiceOf(m);
    LatestIs(lines, c);
    forall i | 0 <= i < |lines| ensures AmountOf(c.menuItem, c.options)(lines[i]) == OfChoice(c)(lines[i]) {
      KindMeans(lines[i], c.menuItem, c.options);
    }
    SumSame(lines, lines, OfChoice(c), AmountOf(c.menuItem, c.options));
  }

  /**
   * What a table is remembered by: one entry for each item with the same options that some repeatable line has, no
   * two alike, each with everything ordered of it and the time it was last ordered.
   */
  lemma SelectionsGather(lines: seq<Line>)
    ensures forall i :: 0 <= i < |Selections(lines)| ==> Gathers(lines, Selections(lines)[i])
    ensures forall i, j :: 0 <= i < j < |Selections(lines)| ==>
              Selections(lines)[i].menuItem != Selections(lines)[j].menuItem
              || multiset(Selections(lines)[i].options) != multiset(Selections(lines)[j].options)
    ensures forall k :: 0 <= k < |lines| && Repeatable(lines[k]) ==>
              exists i :: 0 <= i < |Selections(lines)|
                          && OfKind(lines[k], Selections(lines)[i].menuItem, multiset(Selections(lines)[i].options))
  {
    var entries := Selections(lines);
    GroupsConserve(lines);
    forall i | 0 <= i < |entries| ensures Gathers(lines, entries[i]) { StandsGathers(lines, entries[i]); }
    forall i, j | 0 <= i < j < |entries|
      ensures entries[i].menuItem != entries[j].menuItem || multiset(entries[i].options) != multiset(entries[j].options)
    {
      assert ChoiceOf(entries[i]) != ChoiceOf(entries[j]);
    }
    forall k | 0 <= k < |lines| && Repeatable(lines[k])
      ensures exists i :: 0 <= i < |entries| && OfKind(lines[k], entries[i].menuItem, multiset(entries[i].options))
    {
      var l := lines[k];
      KindMeans(l, l.menuItem.value, Chosen(l.modifiers));
      assert Has(entries, ChoiceOf(EntryOf(l)));
      var i :| 0 <= i < |entries| && ChoiceOf(entries[i]) == ChoiceOf(EntryOf(l));
    }
  }

  // ---------------------------------------------------------------- as it is written

  method SelectionsOf(lines: seq<Line>) returns (entries: seq<Memory>)
    ensures entries == Selections(lines)
  {
    entries := [];
    for i := 0 to |lines|
      invariant entries == Selections(lines[..i])
    {
      assert lines[..i + 1][..i] == lines[..i];
      if !Eligible(lines[i]) {
        continue;
      }
      var next := EntryOf(lines[i]);
      var k := FirstMatch(entries, next);
      if k < |entries| {
        entries := entries[k := Joined(entries[k], next)];
      } else {
        entries := entries + [next];
      }
    }
    assert lines[..|lines|] == lines;
  }
}
