/**
 * The waiter's local draft of one table: the lines on the screen, the adds that have not settled yet,
 * and the clock that decides which reads of the whole order may replace the screen.
 */
module CartDraft {
  import opened Common
  import CartCreation
  import CartQueue

  /** A line is known by its server id, or, until its add has settled, by its mutation. */
  datatype Id = Temp(m: nat) | Real(n: nat)

  datatype LocalStatus = Plain | PendingLine | FailedLine

  /** What decides whether two lines are the same choice: item, price, promotion, note and options. */
  datatype Choice = Choice(menuItem: nat, price: int, promotion: Option<nat>, note: Option<nat>, options: multiset<nat>)

  datatype Line = Line(id: Id, choice: Choice, unsent: bool, quantity: nat, local: LocalStatus)

  datatype Creation = Creation(intent: nat, item: Option<Line>, failed: bool)

  datatype Read = Read(sequence: nat, mutation: nat, submission: nat, blocked: bool)

  datatype Draft = Draft(lines: Option<seq<Line>>, inspected: bool, creates: map<nat, Creation>, queue: CartQueue.Queue,
                         readSequence: nat, readHolds: nat, submitting: bool, submitRevision: nat)

  const BLANK: Draft := Draft(None, false, map[], CartQueue.IDLE, 0, 0, false, 0)

  predicate Pending(d: Draft) { CartQueue.Pending(d.queue) || |d.creates| > 0 }

  /** Nothing local is under way that a read could overwrite. */
  predicate Quiet(d: Draft) { !Pending(d) && !d.submitting && d.readHolds == 0 }

  // ---------------------------------------------------------------- lines

  datatype Edit =
    | Gone
    | SetQuantity(q: nat)
    | Adopt(item: Line)
    | Settle(item: Line, q: nat)
    | MarkFailed
    | Replace(whole: Line)

  function Apply(l: Line, e: Edit): seq<Line>
  {
    match e
    case Gone => []
    case SetQuantity(q) => [l.(quantity := q)]
    case Adopt(item) => [item.(id := l.id, quantity := l.quantity, local := PendingLine)]
    case Settle(item, q) => [item.(quantity := q, local := Plain)]
    case MarkFailed => [l.(local := FailedLine)]
    case Replace(whole) => [whole]
  }

  /** patchLine: every line with this id is edited, all others stay as they are, in order. */
  function PatchLine(lines: seq<Line>, id: Id, e: Edit): seq<Line>
  {
    if lines == [] then []
    else PatchLine(lines[..|lines| - 1], id, e) + Piece(lines[|lines| - 1], id, e)
  }

  function Piece(l: Line, id: Id, e: Edit): seq<Line> { if l.id == id then Apply(l, e) else [l] }

  /** All lines but those with this id. */
  function Others(lines: seq<Line>, id: Id): seq<Line> { PatchLine(lines, id, Gone) }

  function Count(lines: seq<Line>, id: Id): nat
  {
    if lines == [] then 0 else Count(lines[..|lines| - 1], id) + if lines[|lines| - 1].id == id then 1 else 0
  }

  function FindLine(lines: seq<Line>, id: Id): (r: Option<Line>)
    ensures r.Some? ==> r.value in lines && r.value.id == id
    ensures r.None? ==> forall l :: l in lines ==> l.id != id
  {
    if lines == [] then None else if lines[0].id == id then Some(lines[0]) else FindLine(lines[1..], id)
  }

  function FindChoice(lines: seq<Line>, c: Choice): (r: Option<Line>)
    ensures r.Some? ==> r.value in lines && r.value.unsent && r.value.choice == c
    ensures r.None? ==> forall l :: l in lines ==> !(l.unsent && l.choice == c)
  {
    if lines == [] then None
    else if lines[0].unsent && lines[0].choice == c then Some(lines[0])
    else FindChoice(lines[1..], c)
  }

  /** Where the first line stands that the server lists behind the one being put back. */
  function Place(lines: seq<Line>, behind: set<Id>): (r: nat)
    ensures r <= |lines|
  {
    if lines == [] || lines[0].id in behind then 0 else 1 + Place(lines[1..], behind)
  }

  function IndexOfLine(lines: seq<Line>, id: Id): (r: nat)
    ensures r <= |lines|
  {
    if lines == [] || lines[0].id == id then 0 else 1 + IndexOfLine(lines[1..], id)
  }

  /** reconcileItem: one line is taken from the server's order, or removed when the server has none. */
  function Reconcile(lines: seq<Line>, server: seq<Line>, id: Id): seq<Line>
  {
    match FindLine(server, id)
    case None => Others(lines, id)
    case Some(item) =>
      if Count(lines, id) > 0 then PatchLine(lines, id, Replace(item))
      else
        var i := IndexOfLine(server, id);
        var behind := if i < |server| then set l | l in server[i + 1..] :: l.id else {};
        var at := Place(lines, behind);
        lines[..at] + [item] + lines[at..]
  }

  // ---------------------------------------------------------------- steps

  datatype Step =
    | Queue(s: CartQueue.Step)
    | Add(m: nat, choice: Choice, available: bool)
    | Change(m: nat, quantity: nat)
    | Adopted(m: nat, item: Line)
    | Confirmed(m: nat, q: nat)
    | Removed(m: nat)
    | RolledBack(m: nat)
    | Failed(m: nat)
    | RetryFailed(m: nat)
    | ReconcileLine(server: seq<Line>, n: nat)
    | EditLine(n: nat, e: Edit)
    | BeginRead
    | AcceptRead(order: Option<seq<Line>>, read: Read)
    | SetWhole(order: Option<seq<Line>>)
    | Hold
    | Release
    | SubmitBegin
    | SubmitEnd

  function WithLines(d: Draft, lines: seq<Line>): Draft { d.(lines := Some(lines), inspected := true) }

  function Patched(d: Draft, id: Id, e: Edit): Draft
  {
    match d.lines case None => d.(inspected := true) case Some(lines) => WithLines(d, PatchLine(lines, id, e))
  }

  /** add: an unsent line of the same choice is handed back, otherwise one new line and its add appear. */
  function AddLine(d: Draft, m: nat, c: Choice, available: bool): (Draft, Option<Line>)
  {
    match d.lines
    case None => (d, None)
    case Some(lines) =>
      if !available then (d, None)
      else if FindChoice(lines, c).Some? then (d, FindChoice(lines, c))
      else
        var e := WithLines(d, lines + [Line(Temp(m), c, true, 1, PendingLine)]);
        (e.(creates := d.creates[m := Creation(1, None, false)],
            queue := CartQueue.Enqueue(d.queue, m, CartQueue.Direct)), None)
  }

  function ChangePending(d: Draft, m: nat, quantity: nat): Draft
  {
    if m !in d.creates || quantity > CartCreation.MAX_QUANTITY then d
    else
      Patched(d.(creates := d.creates[m := d.creates[m].(intent := quantity)]), Temp(m),
              if quantity == 0 then Gone else SetQuantity(quantity))
  }

  function NewRead(d: Draft): Read
  {
    Read(d.readSequence + 1, d.queue.revision, d.submitRevision, Pending(d) || d.submitting || d.readHolds > 0)
  }

  predicate Acceptable(d: Draft, r: Read)
  {
    && !r.blocked && r.sequence == d.readSequence && !Pending(d) && !d.submitting && d.readHolds == 0
    && r.mutation == d.queue.revision && r.submission == d.submitRevision
  }

  predicate ServerLines(lines: seq<Line>) { forall l :: l in lines ==> l.id.Real? }

  predicate ServerOrder(order: Option<seq<Line>>) { order.Some? ==> ServerLines(order.value) }

  function Drop(d: Draft, m: nat): Draft { d.(creates := d.creates - {m}) }

  function Next(d: Draft, s: Step): Option<Draft>
  {
    match s
    case Queue(t) => (match CartQueue.Next(d.queue, t) case None => None case Some(q) => Some(d.(queue := q)))
    case Add(m, c, available) => if m in d.creates then None else Some(AddLine(d, m, c, available).0)
    case Change(m, quantity) =>
      if m in d.creates && d.creates[m].intent == 0 then None else Some(ChangePending(d, m, quantity))
    case Adopted(m, item) =>
      if m in d.creates && item.id.Real? then
        Some(Patched(d.(creates := d.creates[m := d.creates[m].(item := Some(item))]), Temp(m), Adopt(item)))
      else None
    case Confirmed(m, q) =>
      if m in d.creates && d.creates[m].item.Some? && d.creates[m].item.value.id.Real? && d.creates[m].intent == q then
        Some(Drop(Patched(d, Temp(m), Settle(d.creates[m].item.value, q)), m))
      else None
    case Removed(m) => if m in d.creates && d.creates[m].intent == 0 then Some(Drop(d, m)) else None
    case RolledBack(m) => if m in d.creates then Some(Drop(Patched(d, Temp(m), Gone), m)) else None
    case Failed(m) =>
      if m !in d.creates then None
      else Some(Patched(d.(creates := d.creates[m := d.creates[m].(failed := true)]), Temp(m), MarkFailed))
    case RetryFailed(m) =>
      if m in d.creates && d.creates[m].failed then
        Some(d.(creates := d.creates[m := d.creates[m].(failed := false)],
                queue := CartQueue.Enqueue(d.queue, m, CartQueue.Direct)))
      else None
    case ReconcileLine(server, n) =>
      if !ServerLines(server) then None
      else if d.lines.None? then Some(d)
      else Some(WithLines(d, Reconcile(d.lines.value, server, Real(n))))
    case EditLine(n, e) =>
      if (e.Replace? && e.whole.id != Real(n)) || e.Adopt? || e.Settle? then None else Some(Patched(d, Real(n), e))
    case BeginRead => Some(d.(readSequence := d.readSequence + 1))
    case AcceptRead(order, r) =>
      if Acceptable(d, r) && ServerOrder(order) then Some(d.(lines := order, inspected := true)) else None
    case SetWhole(order) =>
      if |d.creates| == 0 && ServerOrder(order) then Some(d.(lines := order, inspected := true)) else None
    case Hold => Some(d.(readHolds := d.readHolds + 1, readSequence := d.readSequence + 1))
    case Release =>
      if d.readHolds > 0 then Some(d.(readHolds := d.readHolds - 1, readSequence := d.readSequence + 1)) else None
    case SubmitBegin =>
      if d.submitting then None else Some(d.(submitting := true, submitRevision := d.submitRevision + 1))
    case SubmitEnd => Some(d.(submitting := false))
  }

  function RunFrom(d: Draft, steps: seq<Step>): Option<Draft>
  {
    if steps == [] then Some(d)
    else match RunFrom(d, steps[..|steps| - 1]) case None => None case Some(e) => Next(e, steps[|steps| - 1])
  }

  // ---------------------------------------------------------------- one line per unsettled add

  /** The screen shows this add exactly as intended: one line with the intended quantity, or none for zero. */
  ghost predicate Shown(lines: seq<Line>, m: nat, intent: nat)
  {
    Count(lines, Temp(m)) == (if intent == 0 then 0 else 1)
    && forall l :: l in lines && l.id == Temp(m) ==> l.quantity == intent
  }

  ghost predicate Inv(d: Draft)
  {
    && (d.lines.None? ==> d.creates == map[])
    && (d.lines.Some? ==> forall m :: m in d.creates ==> Shown(d.lines.value, m, d.creates[m].intent))
    && (d.lines.Some? ==> forall l :: l in d.lines.value && l.id.Temp? ==> l.id.m in d.creates)
    && (forall m :: m in d.creates && d.creates[m].item.Some? ==> d.creates[m].item.value.id.Real?)
  }

  lemma {:induction false} CountPositive(lines: seq<Line>, id: Id)
    ensures Count(lines, id) > 0 <==> exists l :: l in lines && l.id == id
  {
    if lines != [] {
      var n := |lines| - 1;
      CountPositive(lines[..n], id);
      assert lines == lines[..n] + [lines[n]];
    }
  }

  lemma {:induction false} CountSum(a: seq<Line>, b: seq<Line>, id: Id)
    ensures Count(a + b, id) == Count(a, id) + Count(b, id)
  {
    if b == [] {
      assert a + b == a;
    } else {
      var n := |b| - 1;
      assert (a + b)[..|a| + n] == a + b[..n];
      CountSum(a, b[..n], id);
    }
  }

  /** What an edit makes of a line is not known under this other id. */
  predicate Avoids(e: Edit, other: Id)
  {
    match e
    case Settle(item, _) => item.id != other
    case Replace(whole) => whole.id != other
    case _ => true
  }

  predicate KeepsId(e: Edit) { e.SetQuantity? || e.Adopt? || e.MarkFailed? }

  lemma PieceCounts(l: Line, id: Id, e: Edit, other: Id)
    requires Avoids(e, other) || (other == id && KeepsId(e))
    ensures Count(Piece(l, id, e), other) == if l.id == other && (other != id || KeepsId(e)) then 1 else 0
  {
    var p := Piece(l, id, e);
    if |p| == 1 {
      assert p[..0] == [];
      assert Count(p, other) == if p[0].id == other then 1 else 0;
    }
  }

  /** An edit of one line keeps the count of every other id it does not turn into. */
  lemma {:induction false} PatchCounts(lines: seq<Line>, id: Id, e: Edit, other: Id)
    requires other != id && Avoids(e, other)
    ensures Count(PatchLine(lines, id, e), other) == Count(lines, other)
  {
    if lines != [] {
      var n := |lines| - 1;
      PatchCounts(lines[..n], id, e, other);
      CountSum(PatchLine(lines[..n], id, e), Piece(lines[n], id, e), other);
      PieceCounts(lines[n], id, e, other);
    }
  }

  lemma {:induction false} PatchCountsSame(lines: seq<Line>, id: Id, e: Edit)
    requires KeepsId(e) || Avoids(e, id)
    ensures Count(PatchLine(lines, id, e), id) == if KeepsId(e) then Count(lines, id) else 0
  {
    if lines != [] {
      var n := |lines| - 1;
      PatchCountsSame(lines[..n], id, e);
      CountSum(PatchLine(lines[..n], id, e), Piece(lines[n], id, e), id);
      PieceCounts(lines[n], id, e, id);
    }
  }

  /** Every line of the result is an untouched old line or the edit of one with this id. */
  lemma {:induction false} PatchFrom(lines: seq<Line>, id: Id, e: Edit, l: Line)
    requires l in PatchLine(lines, id, e)
    ensures (l in lines && l.id != id) || exists k :: k in lines && k.id == id && l in Apply(k, e)
  {
    var n := |lines| - 1;
    var piece := Piece(lines[n], id, e);
    assert lines == lines[..n] + [lines[n]];
    if l in PatchLine(lines[..n], id, e) {
      PatchFrom(lines[..n], id, e, l);
    } else {
      assert l in piece;
    }
  }

  lemma ShownBeside(lines: seq<Line>, id: Id, e: Edit, m: nat, intent: nat)
    requires Shown(lines, m, intent) && id != Temp(m) && Avoids(e, Temp(m))
             && (KeepsId(e) || e.Gone? || e.Settle? || e.Replace?)
    ensures Shown(PatchLine(lines, id, e), m, intent)
  {
    PatchCounts(lines, id, e, Temp(m));
    forall l | l in PatchLine(lines, id, e) && l.id == Temp(m) ensures l.quantity == intent {
      PatchFrom(lines, id, e, l);
    }
  }

  lemma ShownStill(lines: seq<Line>, m: nat, intent: nat, e: Edit)
    requires Shown(lines, m, intent) && (e.Adopt? || e.MarkFailed?)
    ensures Shown(PatchLine(lines, Temp(m), e), m, intent)
  {
    PatchCountsSame(lines, Temp(m), e);
    forall l | l in PatchLine(lines, Temp(m), e) && l.id == Temp(m) ensures l.quantity == intent {
      PatchFrom(lines, Temp(m), e, l);
    }
  }

  lemma ShownChanged(lines: seq<Line>, m: nat, intent: nat, quantity: nat)
    requires Shown(lines, m, intent) && intent != 0
    ensures Shown(PatchLine(lines, Temp(m), if quantity == 0 then Gone else SetQuantity(quantity)), m, quantity)
  {
    var e := if quantity == 0 then Gone else SetQuantity(quantity);
    PatchCountsSame(lines, Temp(m), e);
    CountPositive(PatchLine(lines, Temp(m), e), Temp(m));
    forall l | l in PatchLine(lines, Temp(m), e) && l.id == Temp(m) ensures l.quantity == quantity {
      PatchFrom(lines, Temp(m), e, l);
    }
  }

  lemma GoneAfter(lines: seq<Line>, m: nat, e: Edit)
    requires e.Gone? || (e.Settle? && e.item.id.Real?)
    ensures forall l :: l in PatchLine(lines, Temp(m), e) ==> l.id != Temp(m)
  {
    forall l | l in PatchLine(lines, Temp(m), e) ensures l.id != Temp(m) { PatchFrom(lines, Temp(m), e, l); }
  }

  /** Temporary lines come from temporary lines. */
  lemma TempFrom(lines: seq<Line>, id: Id, e: Edit, m: nat)
    requires Avoids(e, Temp(m)) && (exists l :: l in PatchLine(lines, id, e) && l.id == Temp(m))
    ensures exists l :: l in lines && l.id == Temp(m)
  {
    var l :| l in PatchLine(lines, id, e) && l.id == Temp(m);
    PatchFrom(lines, id, e, l);
  }

  /** Editing a confirmed line disturbs no unsettled add. */
  lemma RealEditKeeps(d: Draft, n: nat, e: Edit)
    requires Inv(d) && (e.Replace? ==> e.whole.id == Real(n)) && !e.Adopt? && !e.Settle?
    ensures Inv(Patched(d, Real(n), e))
  {
    if d.lines.Some? {
      forall m | m in d.creates ensures Shown(PatchLine(d.lines.value, Real(n), e), m, d.creates[m].intent) {
        ShownBeside(d.lines.value, Real(n), e, m, d.creates[m].intent);
      }
      forall l | l in PatchLine(d.lines.value, Real(n), e) && l.id.Temp? ensures l.id.m in d.creates {
        TempFrom(d.lines.value, Real(n), e, l.id.m);
      }
    }
  }

  /** What happens to one unsettled add, while the others stay as they are. */
  lemma OneAddKeeps(d: Draft, m: nat, e: Edit, next: Creation)
    requires Inv(d) && m in d.creates
    requires d.lines.Some? ==> Shown(PatchLine(d.lines.value, Temp(m), e), m, next.intent)
    requires KeepsId(e) || e.Gone?
    requires next.item.Some? ==> next.item.value.id.Real?
    ensures Inv(Patched(d.(creates := d.creates[m := next]), Temp(m), e))
  {
    if d.lines.Some? {
      var after := PatchLine(d.lines.value, Temp(m), e);
      forall k | k in d.creates && k != m ensures Shown(after, k, d.creates[k].intent) {
        ShownBeside(d.lines.value, Temp(m), e, k, d.creates[k].intent);
      }
      forall l | l in after && l.id.Temp? ensures l.id.m in d.creates { TempFrom(d.lines.value, Temp(m), e, l.id.m); }
    }
  }

  /** An add that settles, or is rolled back, leaves no temporary line of its own. */
  lemma EndKeeps(d: Draft, m: nat, e: Edit)
    requires Inv(d) && m in d.creates && (e.Gone? || (e.Settle? && e.item.id.Real?))
    ensures Inv(Drop(Patched(d, Temp(m), e), m))
  {
    if d.lines.Some? {
      var after := PatchLine(d.lines.value, Temp(m), e);
      forall k | k in d.creates && k != m ensures Shown(after, k, d.creates[k].intent) {
        ShownBeside(d.lines.value, Temp(m), e, k, d.creates[k].intent);
      }
      GoneAfter(d.lines.value, m, e);
      forall l | l in after && l.id.Temp?
        ensures l.id.m in d.creates && l.id.m != m
      {
        TempFrom(d.lines.value, Temp(m), e, l.id.m);
      }
    }
  }

  lemma RemovedKeeps(d: Draft, m: nat)
    requires Inv(d) && m in d.creates && d.creates[m].intent == 0
    ensures Inv(Drop(d, m))
  {
    if d.lines.Some? {
      assert Shown(d.lines.value, m, 0);
      CountPositive(d.lines.value, Temp(m));
    }
  }

  lemma AddKeeps(d: Draft, m: nat, c: Choice, available: bool)
    requires Inv(d) && m !in d.creates
    ensures Inv(AddLine(d, m, c, available).0)
  {
    if d.lines.Some? {
      var one := [Line(Temp(m), c, true, 1, PendingLine)];
      CountPositive(d.lines.value, Temp(m));
      forall id ensures Count(d.lines.value + one, id) == Count(d.lines.value, id) + if id == Temp(m) then 1 else 0 {
        CountSum(d.lines.value, one, id);
        assert one[..0] == [];
      }
    }
  }

  lemma ReconcileKeeps(d: Draft, server: seq<Line>, n: nat)
    requires Inv(d) && d.lines.Some? && ServerLines(server)
    ensures Inv(WithLines(d, Reconcile(d.lines.value, server, Real(n))))
  {
    var lines, found := d.lines.value, FindLine(server, Real(n));
    if found.None? {
      RealEditKeeps(d, n, Gone);
    } else if Count(lines, Real(n)) > 0 {
      RealEditKeeps(d, n, Replace(found.value));
    } else {
      var after := Reconcile(lines, server, Real(n));
      assert exists at :: 0 <= at <= |lines| && after == lines[..at] + [found.value] + lines[at..];
      var at :| 0 <= at <= |lines| && after == lines[..at] + [found.value] + lines[at..];
      forall m | m in d.creates ensures Shown(after, m, d.creates[m].intent) {
        InsertedBeside(lines, at, found.value, m, d.creates[m].intent);
      }
    }
  }

  lemma InsertedBeside(lines: seq<Line>, at: nat, item: Line, m: nat, intent: nat)
    requires at <= |lines| && item.id.Real? && Shown(lines, m, intent)
    ensures Shown(lines[..at] + [item] + lines[at..], m, intent)
  {
    assert lines == lines[..at] + lines[at..];
    CountSum(lines[..at], lines[at..], Temp(m));
    CountSum(lines[..at] + [item], lines[at..], Temp(m));
    CountSum(lines[..at], [item], Temp(m));
    assert [item][..0] == [];
  }

  lemma {:induction false} NoneQuiet(d: Draft)
    requires !Pending(d)
    ensures d.creates == map[]
  {
    assert |d.creates| == 0;
  }

  lemma StepKeeps(d: Draft, s: Step)
    requires Inv(d) && Next(d, s).Some?
    ensures Inv(Next(d, s).value)
  {
    match s
    case Add(m, c, available) => AddKeeps(d, m, c, available);
    case Change(m, quantity) =>
      if m in d.creates && quantity <= CartCreation.MAX_QUANTITY && d.lines.Some? {
        ShownChanged(d.lines.value, m, d.creates[m].intent, quantity);
        OneAddKeeps(d, m, if quantity == 0 then Gone else SetQuantity(quantity), d.creates[m].(intent := quantity));
      }
    case Adopted(m, item) =>
      if d.lines.Some? {
        ShownStill(d.lines.value, m, d.creates[m].intent, Adopt(item));
      }
      OneAddKeeps(d, m, Adopt(item), d.creates[m].(item := Some(item)));
    case Failed(m) =>
      if d.lines.Some? {
        ShownStill(d.lines.value, m, d.creates[m].intent, MarkFailed);
      }
      OneAddKeeps(d, m, MarkFailed, d.creates[m].(failed := true));
    case Confirmed(m, q) => EndKeeps(d, m, Settle(d.creates[m].item.value, q));
    case RolledBack(m) => EndKeeps(d, m, Gone);
    case Removed(m) => RemovedKeeps(d, m);
    case ReconcileLine(server, n) =>
      if d.lines.Some? {
        ReconcileKeeps(d, server, n);
      }
    case EditLine(n, e) => RealEditKeeps(d, n, e);
    case AcceptRead(order, r) => NoneQuiet(d);
    case _ =>
  }

  lemma {:induction false} RunKeeps(d: Draft, steps: seq<Step>)
    requires Inv(d) && RunFrom(d, steps).Some?
    ensures Inv(RunFrom(d, steps).value)
  {
    if steps != [] {
      RunKeeps(d, steps[..|steps| - 1]);
      StepKeeps(RunFrom(d, steps[..|steps| - 1]).value, steps[|steps| - 1]);
    }
  }

  /**
   * Intent is never lost from the screen: whatever is added, changed, confirmed, failed, reconciled or read in
   * any order, an add that has not settled has exactly one line with the intended quantity, or none when the
   * intent is zero.
   */
  lemma OneLinePerAdd(steps: seq<Step>, m: nat)
    requires RunFrom(BLANK, steps).Some? && m in RunFrom(BLANK, steps).value.creates
    ensures var d := RunFrom(BLANK, steps).value;
            d.lines.Some? && Shown(d.lines.value, m, d.creates[m].intent)
  {
    RunKeeps(BLANK, steps);
  }

  // ---------------------------------------------------------------- the read clock

  /** The three counters a read is compared on. */
  ghost predicate NotBehind(d: Draft, e: Draft)
  {
    d.readSequence <= e.readSequence && d.queue.revision <= e.queue.revision && d.submitRevision <= e.submitRevision
  }

  ghost predicate SameClock(d: Draft, e: Draft)
  {
    d.readSequence == e.readSequence && d.queue.revision == e.queue.revision && d.submitRevision == e.submitRevision
  }

  /** The steps that must not fall between the start of a read and its acceptance. */
  predicate Disturbs(s: Step)
  {
    s.BeginRead? || s.Hold? || s.Release? || s.SubmitBegin? || s.RetryFailed?
    || (s.Queue? && (s.s.Push? || s.s.Put? || s.s.Timer?))
  }

  /** The counters only grow, and they grow with every disturbing step. */
  lemma StepClock(d: Draft, s: Step)
    requires Next(d, s).Some?
    ensures NotBehind(d, Next(d, s).value)
    ensures SameClock(d, Next(d, s).value) ==> !Disturbs(s)
  {
    if s.Queue? {
      CartQueue.RevisionTells(d.queue, s.s);
    }
  }

  /** While the clock stands still no add appears, and the queue stays idle. */
  lemma StepStill(d: Draft, s: Step)
    requires Next(d, s).Some? && SameClock(d, Next(d, s).value)
    ensures Next(d, s).value.creates.Keys <= d.creates.Keys
    ensures !CartQueue.Pending(d.queue) ==> !CartQueue.Pending(Next(d, s).value.queue)
  {
    if s.Queue? {
      if !CartQueue.Pending(d.queue) && CartQueue.Pending(Next(d, s).value.queue) {
        CartQueue.WorkMovesRevision(d.queue, s.s);
      }
    }
  }

  lemma StepQuiet(d: Draft, s: Step)
    requires Next(d, s).Some? && SameClock(d, Next(d, s).value) && Quiet(d)
    ensures Quiet(Next(d, s).value)
  {
    StepStill(d, s);
    StepClock(d, s);
    NoneLeft(d.creates, Next(d, s).value.creates);
  }

  lemma NoneLeft(a: map<nat, Creation>, b: map<nat, Creation>)
    ensures |a| == 0 && b.Keys <= a.Keys ==> |b| == 0
  {
    if |a| == 0 && b.Keys <= a.Keys {
      assert b == map[];
    }
  }

  lemma {:induction false} RunClock(d: Draft, steps: seq<Step>, k: nat)
    requires RunFrom(d, steps).Some? && k <= |steps|
    ensures RunFrom(d, steps[..k]).Some? && NotBehind(RunFrom(d, steps[..k]).value, RunFrom(d, steps).value)
    decreases |steps| - k
  {
    if k == |steps| {
      assert steps[..k] == steps;
    } else {
      var n := |steps| - 1;
      assert steps[..n][..k] == steps[..k];
      RunClock(d, steps[..n], k);
      StepClock(RunFrom(d, steps[..n]).value, steps[n]);
    }
  }

  /** Sandwiched between two equal readings, a moment in between reads the same. */
  lemma SameBetween(d: Draft, steps: seq<Step>, k: nat)
    requires RunFrom(d, steps).Some? && k <= |steps| && SameClock(d, RunFrom(d, steps).value)
    ensures RunFrom(d, steps[..k]).Some? && SameClock(d, RunFrom(d, steps[..k]).value)
  {
    RunClock(d, steps, k);
    RunClock(d, steps[..k], 0);
    assert steps[..k][..0] == [];
  }

  lemma LastOf(d: Draft, steps: seq<Step>, k: nat)
    requires 0 < k <= |steps| && RunFrom(d, steps[..k]).Some?
    ensures RunFrom(d, steps[..k - 1]).Some?
    ensures Next(RunFrom(d, steps[..k - 1]).value, steps[k - 1]) == RunFrom(d, steps[..k])
  {
    assert steps[..k][..k - 1] == steps[..k - 1];
  }

  /** Between two equal readings of the clock nothing has disturbed, and what was quiet stayed quiet. */
  lemma {:induction false} QuietBetween(d: Draft, steps: seq<Step>, k: nat)
    requires RunFrom(d, steps).Some? && k <= |steps| && Quiet(d) && SameClock(d, RunFrom(d, steps).value)
    ensures RunFrom(d, steps[..k]).Some? && Quiet(RunFrom(d, steps[..k]).value)
            && SameClock(d, RunFrom(d, steps[..k]).value)
    ensures k > 0 ==> !Disturbs(steps[k - 1])
  {
    SameBetween(d, steps, k);
    if k > 0 {
      QuietBetween(d, steps, k - 1);
      LastOf(d, steps, k);
      StepClock(RunFrom(d, steps[..k - 1]).value, steps[k - 1]);
      StepQuiet(RunFrom(d, steps[..k - 1]).value, steps[k - 1]);
    }
  }

  /**
   * Polls never erase intent: a read that is accepted is the newest one started, and at no moment between its
   * start and its acceptance was an add unsettled, a mutation unfinished or scheduled, a hold taken or a submit
   * under way, nor did any of them begin.
   */
  lemma AcceptedReadIsUndisturbed(d: Draft, begun: Draft, steps: seq<Step>, k: nat)
    requires Next(d, BeginRead) == Some(begun) && RunFrom(begun, steps).Some? && k <= |steps|
    requires Acceptable(RunFrom(begun, steps).value, NewRead(d))
    ensures RunFrom(begun, steps[..k]).Some? && Quiet(RunFrom(begun, steps[..k]).value)
    ensures k < |steps| ==> !Disturbs(steps[k])
  {
    QuietBetween(begun, steps, k);
    if k < |steps| {
      QuietBetween(begun, steps, k + 1);
    }
  }

  /** Nothing in this step counts as local work: no disturbance, and no add that makes a line. */
  ghost predicate Harmless(d: Draft, s: Step)
  {
    !Disturbs(s) && (Next(d, s).Some? ==> Next(d, s).value.creates.Keys <= d.creates.Keys)
  }

  ghost predicate HarmlessRun(d: Draft, steps: seq<Step>)
  {
    forall k :: 0 <= k < |steps| && RunFrom(d, steps[..k]).Some? ==> Harmless(RunFrom(d, steps[..k]).value, steps[k])
  }

  lemma IdleQueueStays(q: CartQueue.Queue, s: CartQueue.Step)
    requires !CartQueue.Pending(q) && CartQueue.Next(q, s).Some? && !s.Push? && !s.Put? && !s.Timer?
    ensures CartQueue.Next(q, s).value.revision == q.revision && !CartQueue.Pending(CartQueue.Next(q, s).value)
  {
  }

  lemma HarmlessStep(d: Draft, s: Step)
    requires Quiet(d) && Next(d, s).Some? && Harmless(d, s)
    ensures SameClock(d, Next(d, s).value) && Quiet(Next(d, s).value)
  {
    var e := Next(d, s).value;
    NoneLeft(d.creates, e.creates);
    if s.Queue? {
      IdleQueueStays(d.queue, s.s);
    }
    if s.Add? {
      assert d.creates == map[];
      assert s.m !in e.creates;
    }
  }

  lemma {:induction false} HarmlessKeepsClock(d: Draft, steps: seq<Step>)
    requires Quiet(d) && RunFrom(d, steps).Some? && HarmlessRun(d, steps)
    ensures SameClock(d, RunFrom(d, steps).value) && Quiet(RunFrom(d, steps).value)
  {
    if steps != [] {
      var n := |steps| - 1;
      forall k | 0 <= k < n && RunFrom(d, steps[..n][..k]).Some?
        ensures Harmless(RunFrom(d, steps[..n][..k]).value, steps[..n][k])
      {
        assert steps[..n][..k] == steps[..k];
      }
      HarmlessKeepsClock(d, steps[..n]);
      HarmlessStep(RunFrom(d, steps[..n]).value, steps[n]);
    }
  }

  /**
   * The read clock, exactly: a read is accepted if and only if nothing local was under way when it began, and until
   * it is answered no add makes a line and nothing else of the waiter's begins.
   */
  lemma ReadAcceptedExactly(d: Draft, begun: Draft, steps: seq<Step>)
    requires Next(d, BeginRead) == Some(begun) && RunFrom(begun, steps).Some?
    ensures Acceptable(RunFrom(begun, steps).value, NewRead(d)) <==> Quiet(d) && HarmlessRun(begun, steps)
  {
    ReadMeansClock(d, begun, RunFrom(begun, steps).value);
    if Quiet(d) && SameClock(begun, RunFrom(begun, steps).value) {
      forall k | 0 <= k < |steps| && RunFrom(begun, steps[..k]).Some?
        ensures Harmless(RunFrom(begun, steps[..k]).value, steps[k])
      {
        HarmlessBetween(begun, steps, k);
      }
    }
    if Quiet(d) && HarmlessRun(begun, steps) {
      HarmlessKeepsClock(begun, steps);
    }
  }

  /** A read is compared on the clock, and on whether anything local is under way at either end. */
  lemma ReadMeansClock(d: Draft, begun: Draft, e: Draft)
    requires Next(d, BeginRead) == Some(begun)
    ensures Acceptable(e, NewRead(d)) <==> Quiet(d) && Quiet(e) && SameClock(begun, e)
    ensures Quiet(begun) <==> Quiet(d)
  {
  }

  lemma HarmlessBetween(d: Draft, steps: seq<Step>, k: nat)
    requires RunFrom(d, steps).Some? && k < |steps| && Quiet(d) && SameClock(d, RunFrom(d, steps).value)
    ensures RunFrom(d, steps[..k]).Some? && Harmless(RunFrom(d, steps[..k]).value, steps[k])
  {
    QuietBetween(d, steps, k);
    QuietBetween(d, steps, k + 1);
    LastOf(d, steps, k + 1);
    QuietIsEmpty(RunFrom(d, steps[..k]).value, RunFrom(d, steps[..k + 1]).value);
  }

  lemma QuietIsEmpty(d: Draft, e: Draft)
    requires Quiet(d) && Quiet(e)
    ensures d.creates == map[] && e.creates == map[]
  {
    NoneQuiet(d);
    NoneQuiet(e);
  }

  lemma StepInspects(d: Draft, s: Step)
    requires Next(d, s).Some? && (d.lines.Some? ==> d.inspected)
    ensures Next(d, s).value.lines.Some? ==> Next(d, s).value.inspected
  {
  }

  /** Whatever is on the screen counts as looked at. */
  lemma {:induction false} ShownIsInspected(steps: seq<Step>)
    requires RunFrom(BLANK, steps).Some?
    ensures RunFrom(BLANK, steps).value.lines.Some? ==> RunFrom(BLANK, steps).value.inspected
  {
    if steps != [] {
      var d := RunFrom(BLANK, steps[..|steps| - 1]).value;
      ShownIsInspected(steps[..|steps| - 1]);
      StepInspects(d, steps[|steps| - 1]);
    }
  }

  /** How often reads have been held back, less how often released. */
  function HoldsLeft(steps: seq<Step>): int
  {
    if steps == [] then 0
    else
      HoldsLeft(steps[..|steps| - 1])
      + match steps[|steps| - 1] case Hold => 1 case Release => -1 case _ => 0
  }

  /** Reads are held back as long as some hold has not been released. */
  lemma {:induction false} HoldsBalance(steps: seq<Step>)
    requires RunFrom(BLANK, steps).Some?
    ensures RunFrom(BLANK, steps).value.readHolds == HoldsLeft(steps)
  {
    if steps != [] {
      HoldsBalance(steps[..|steps| - 1]);
    }
  }

  // ---------------------------------------------------------------- what each step shows

  lemma {:induction false} EditedInPlace(lines: seq<Line>, id: Id, e: Edit)
    requires !e.Gone?
    ensures var r := PatchLine(lines, id, e);
            |r| == |lines|
            && forall i :: 0 <= i < |lines| ==> r[i] == if lines[i].id == id then Apply(lines[i], e)[0] else lines[i]
  {
    if lines != [] {
      EditedInPlace(lines[..|lines| - 1], id, e);
    }
  }

  /** What a step of an add makes of the add's line, in the step's own terms. */
  function LineAfter(d: Draft, s: Step, l: Line): Line
  {
    match s
    case Change(m, q) => Line(l.id, l.choice, l.unsent, q, l.local)
    case Adopted(m, item) => Line(l.id, item.choice, item.unsent, l.quantity, PendingLine)
    case Confirmed(m, q) =>
      if m in d.creates && d.creates[m].item.Some?
      then
        var item := d.creates[m].item.value;
        Line(item.id, item.choice, item.unsent, q, Plain)
      else l
    case Failed(m) => Line(l.id, l.choice, l.unsent, l.quantity, FailedLine)
    case _ => l
  }

  /** Every line stays in place; the add's own is as the step has it, and no other has changed. */
  ghost predicate OnlyLine(d: Draft, s: Step, id: Id, after: seq<Line>)
    requires d.lines.Some?
  {
    |after| == |d.lines.value|
    && forall i :: 0 <= i < |after| ==>
         after[i] == if d.lines.value[i].id == id then LineAfter(d, s, d.lines.value[i]) else d.lines.value[i]
  }

  /**
   * What each step of an add shows: a new quantity within bounds, the server's item under the pending line with the
   * quantity of the screen, the settled item with its confirmed quantity, or the mark of a failure.
   */
  lemma StepShows(d: Draft, s: Step)
    requires d.lines.Some? && Next(d, s).Some?
    requires s.Adopted? || s.Confirmed? || s.Failed? || (s.Change? && s.m in d.creates && 0 < s.quantity <= 50)
    ensures Next(d, s).value.lines.Some? && OnlyLine(d, s, Temp(s.m), Next(d, s).value.lines.value)
  {
    var e := match s
             case Change(m, q) => SetQuantity(q)
             case Adopted(m, item) => Adopt(item)
             case Confirmed(m, q) => Settle(d.creates[m].item.value, q)
             case _ => MarkFailed;
    EditedInPlace(d.lines.value, Temp(s.m), e);
  }

  /** A line whose add has been refused, or that is set to zero, leaves the screen, and no other does. */
  lemma StepTakesOff(d: Draft, s: Step)
    requires d.lines.Some? && Next(d, s).Some? && (s.RolledBack? || (s.Change? && s.m in d.creates && s.quantity == 0))
    ensures Next(d, s).value.lines == Some(Others(d.lines.value, Temp(s.m)))
  {
  }

  /**
   * A new add shows one more unsent line of its choice, at the end, with quantity one, and enqueues itself; where an
   * unsent line of the choice is there, or the item is not to be had, nothing happens.
   */
  lemma AddShows(d: Draft, m: nat, c: Choice, available: bool)
    requires d.lines.Some? && m !in d.creates
    ensures var n := AddLine(d, m, c, available).0;
            if available && forall l :: l in d.lines.value ==> !(l.unsent && l.choice == c)
            then n.lines == Some(d.lines.value + [Line(Temp(m), c, true, 1, PendingLine)])
                 && n.creates == d.creates[m := Creation(1, None, false)]
                 && n.queue.entries == d.queue.entries + [CartQueue.Entry(m, CartQueue.Direct, CartQueue.Queued)]
            else n == d
  {
  }

  // ---------------------------------------------------------------- one line from the server

  /** The server's line for this id, if it lists one. */
  ghost predicate ServerHas(server: seq<Line>, id: Id, item: Line)
  {
    exists i :: 0 <= i < |server| && server[i] == item && item.id == id && forall j :: 0 <= j < i ==> server[j].id != id
  }

  lemma {:induction false} FindsFirst(lines: seq<Line>, id: Id) returns (i: nat)
    requires FindLine(lines, id).Some?
    ensures i < |lines| && lines[i] == FindLine(lines, id).value && i == IndexOfLine(lines, id)
    ensures forall j :: 0 <= j < i ==> lines[j].id != id
    decreases |lines|
  {
    if lines[0].id == id {
      i := 0;
    } else {
      var k := FindsFirst(lines[1..], id);
      i := k + 1;
      assert forall j :: 1 <= j < i ==> lines[j] == lines[1..][j - 1];
    }
  }

  lemma {:induction false} PlaceIsFirst(lines: seq<Line>, behind: set<Id>)
    ensures var at := Place(lines, behind);
            (forall i :: 0 <= i < at ==> lines[i].id !in behind) && (at < |lines| ==> lines[at].id in behind)
    decreases |lines|
  {
    if lines != [] && lines[0].id !in behind {
      PlaceIsFirst(lines[1..], behind);
      assert forall i :: 1 <= i < Place(lines, behind) ==> lines[i] == lines[1..][i - 1];
    }
  }

  /** The server lists this id behind its first line of that one. */
  ghost predicate Behind(server: seq<Line>, id: Id, other: Id)
  {
    exists i, j :: 0 <= i < j < |server| && server[i].id == id && (forall k :: 0 <= k < i ==> server[k].id != id)
                   && server[j].id == other
  }

  /** The line stands right before the first one that the server lists behind it, or last. */
  ghost predicate PutBack(lines: seq<Line>, server: seq<Line>, id: Id, item: Line, after: seq<Line>)
  {
    exists at :: 0 <= at <= |lines| && after == lines[..at] + [item] + lines[at..]
                 && (forall i :: 0 <= i < at ==> !Behind(server, id, lines[i].id))
                 && (at < |lines| ==> Behind(server, id, lines[at].id))
  }

  lemma BehindSet(server: seq<Line>, id: Id, i: nat, other: Id)
    requires i < |server| && server[i].id == id && forall k :: 0 <= k < i ==> server[k].id != id
    ensures other in (set l | l in server[i + 1..] :: l.id) <==> Behind(server, id, other)
  {
    if l :| l in server[i + 1..] && l.id == other {
      var j :| 0 <= j < |server[i + 1..]| && server[i + 1..][j] == l;
      assert server[i + 1 + j].id == other;
    }
    if Behind(server, id, other) {
      var k, j :| 0 <= k < j < |server| && server[k].id == id && (forall n :: 0 <= n < k ==> server[n].id != id)
                  && server[j].id == other;
      assert k == i;
      assert server[i + 1..][j - i - 1] == server[j];
    }
  }

  /**
   * Taking one line from the server: where the server has none it goes; where it is on the screen it is replaced in
   * place; and otherwise it is put back before the first line that the server lists behind it. No other line moves.
   */
  lemma ReconcileDoesJustThat(lines: seq<Line>, server: seq<Line>, id: Id)
    ensures var after := Reconcile(lines, server, id);
            if forall l :: l in server ==> l.id != id then after == Others(lines, id)
            else exists item :: ServerHas(server, id, item)
                   && if exists l :: l in lines && l.id == id
                      then |after| == |lines|
                           && forall i :: 0 <= i < |lines| ==> after[i] == if lines[i].id == id then item else lines[i]
                      else PutBack(lines, server, id, item, after)
  {
    CountPositive(lines, id);
    if FindLine(server, id).Some? {
      var item := FindLine(server, id).value;
      var i := FindsFirst(server, id);
      assert ServerHas(server, id, item);
      if Count(lines, id) > 0 {
        EditedInPlace(lines, id, Replace(item));
      } else {
        var behind := set l | l in server[i + 1..] :: l.id;
        PlaceIsFirst(lines, behind);
        forall other ensures other in behind <==> Behind(server, id, other) { BehindSet(server, id, i, other); }
        assert PutBack(lines, server, id, item, Reconcile(lines, server, id)) by {
          var at := Place(lines, behind);
          assert Reconcile(lines, server, id) == lines[..at] + [item] + lines[at..];
        }
      }
    }
  }

  /** Taking a line off leaves exactly the others, in order. */
  lemma {:induction false} OthersAre(lines: seq<Line>, id: Id, other: Line)
    ensures Others(lines + [other], id) == Others(lines, id) + if other.id == id then [] else [other]
    ensures Others([], id) == []
  {
    assert (lines + [other])[..|lines|] == lines;
  }

  // ---------------------------------------------------------------- the draft as it is kept

  class WaiterLocalDraft {
    var lines: Option<seq<Line>>
    var inspected: bool
    var creates: map<nat, Creation>
    var readSequence: nat
    var readHolds: nat
    var submitting: bool
    var submitRevision: nat
    const mutations: CartQueue.CartMutations

    ghost function Now(): Draft
      reads this, mutations
    {
      Draft(lines, inspected, creates, mutations.Now(), readSequence, readHolds, submitting, submitRevision)
    }

    constructor ()
      ensures Now() == BLANK && fresh(mutations)
    {
      lines, inspected, creates := None, false, map[];
      readSequence, readHolds, submitting, submitRevision := 0, 0, false, 0;
      mutations := new CartQueue.CartMutations();
    }

    method SetLines(update: seq<Line>)
      modifies this
      ensures Now() == WithLines(old(Now()), update)
    {
      lines := Some(update);
      inspected := true;
    }

    method Patch(id: Id, e: Edit)
      modifies this
      ensures Now() == Patched(old(Now()), id, e)
    {
      if lines.Some? {
        lines := Some(PatchLine(lines.value, id, e));
      }
      inspected := true;
    }

    method AddChoice(m: nat, c: Choice, available: bool) returns (existing: Option<Line>)
      modifies this, mutations
      ensures (Now(), existing) == AddLine(old(Now()), m, c, available)
    {
      existing := None;
      if lines.None? || !available {
        return;
      }
      existing := FindChoice(lines.value, c);
      if existing.Some? {
        return;
      }
      creates := creates[m := Creation(1, None, false)];
      SetLines(lines.value + [Line(Temp(m), c, true, 1, PendingLine)]);
      mutations.Add(m, CartQueue.Direct);
    }

    method ChangeQuantity(m: nat, quantity: int) returns (handled: bool)
      modifies this
      ensures handled <==> m in old(creates)
      ensures Now() == if 0 <= quantity then ChangePending(old(Now()), m, quantity) else old(Now())
    {
      if m !in creates {
        return false;
      }
      if quantity < 0 || quantity > CartCreation.MAX_QUANTITY {
        return true;
      }
      creates := creates[m := creates[m].(intent := quantity)];
      Patch(Temp(m), if quantity == 0 then Gone else SetQuantity(quantity));
      handled := true;
    }

    method HasPending() returns (pending: bool)
      ensures pending == Pending(Now())
    {
      var busy := mutations.IsPending();
      pending := busy || |creates| > 0;
    }

    method StartRead() returns (read: Read)
      modifies this
      ensures read == NewRead(old(Now())) && Some(Now()) == Next(old(Now()), BeginRead)
    {
      var pending := HasPending();
      readSequence := readSequence + 1;
      read := Read(readSequence, mutations.revision, submitRevision, pending || submitting || readHolds > 0);
    }

    /** A read is taken over whole or not at all. */
    method TakeRead(order: Option<seq<Line>>, read: Read) returns (accepted: bool)
      modifies this
      ensures accepted <==> Acceptable(old(Now()), read)
      ensures Now() == if accepted then old(Now()).(lines := order, inspected := true) else old(Now())
    {
      var pending := HasPending();
      if read.blocked || read.sequence != readSequence || pending || submitting || readHolds > 0
         || read.mutation != mutations.revision || read.submission != submitRevision {
        return false;
      }
      lines := order;
      inspected := true;
      accepted := true;
    }

    method HoldReads()
      modifies this
      ensures Some(Now()) == Next(old(Now()), Hold)
    {
      readHolds := readHolds + 1;
      readSequence := readSequence + 1;
    }

    method ReleaseReads()
      requires 0 < readHolds
      modifies this
      ensures Some(Now()) == Next(old(Now()), Release)
    {
      readHolds := readHolds - 1;
      readSequence := readSequence + 1;
    }

    method ReconcileItem(server: seq<Line>, n: nat)
      requires ServerLines(server)
      modifies this
      ensures Some(Now()) == Next(old(Now()), ReconcileLine(server, n))
    {
      if lines.Some? {
        SetLines(Reconcile(lines.value, server, Real(n)));
      }
    }
  }
}
