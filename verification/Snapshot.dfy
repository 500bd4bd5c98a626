/**
 * Structural sharing of API snapshots: the next snapshot is rebuilt from the objects of the previous one
 * wherever nothing has changed. A JSON object is a map from keys, so equality here is deep equality.
 */
module Snapshot {
  import opened Common

  datatype Json =
    | Null
    | Bool(b: bool)
    | Num(n: real)
    | Str(s: string)
    | Arr(items: seq<Json>)
    | Obj(fields: map<string, Json>)

  /** Where a result comes from: the very value of before, the next one as it is, or an object built anew. */
  datatype Shared = Previous | Taken(json: Json) | BuiltArr(parts: seq<Shared>) | BuiltObj(members: map<string, Shared>)

  predicate Compound(j: Json) { j.Arr? || j.Obj? }

  function Item(p: Json, i: nat): Option<Json> { if p.Arr? && i < |p.items| then Some(p.items[i]) else None }

  function Field(p: Json, key: string): Option<Json> { if p.Obj? && key in p.fields then Some(p.fields[key]) else None }

  /** shareWaiterSnapshot; no previous value stands for an index or key the previous one does not have. */
  function Share(previous: Option<Json>, next: Json): Shared
    decreases next
  {
    match previous
    case None => Taken(next)
    case Some(p) =>
      if !Compound(p) && p == next then Previous
      else if !Compound(p) || !Compound(next) || p.Arr? != next.Arr? then Taken(next)
      else if next.Arr? then
        var parts := seq(|next.items|, i requires 0 <= i < |next.items| => Share(Item(p, i), next.items[i]));
        if |p.items| == |parts| && (forall i :: 0 <= i < |parts| ==> parts[i].Previous?) then Previous
        else BuiltArr(parts)
      else
        var members := map key | key in next.fields :: Share(Field(p, key), next.fields[key]);
        if |p.fields| == |next.fields| && (forall key :: key in members ==> members[key].Previous?) then Previous
        else BuiltObj(members)
  }

  /** The value a result stands for. */
  function Value(r: Shared, previous: Option<Json>): Json
    requires r.Previous? ==> previous.Some?
    decreases r
  {
    match r
    case Previous => previous.value
    case Taken(json) => json
    case BuiltArr(parts) =>
      Arr(seq(|parts|, i requires 0 <= i < |parts| =>
        var q := if previous.Some? then Item(previous.value, i) else None;
        if parts[i].Previous? && q.None? then Null else Value(parts[i], q)))
    case BuiltObj(members) =>
      Obj(map key | key in members ::
        var q := if previous.Some? then Field(previous.value, key) else None;
        if members[key].Previous? && q.None? then Null else Value(members[key], q))
  }

  /** As many keys, all of them shared: the same keys. */
  lemma SameKeys(a: map<string, Json>, b: map<string, Json>)
    requires |a| == |b| && b.Keys <= a.Keys
    ensures a.Keys == b.Keys
  {
    if key :| key in a && key !in b {
      assert b.Keys <= a.Keys - {key};
      Smaller(b.Keys, a.Keys - {key});
    }
  }

  lemma {:induction false} Smaller(a: set<string>, b: set<string>)
    requires a <= b
    ensures |a| <= |b|
    decreases |a|
  {
    if a != {} {
      var x :| x in a;
      Smaller(a - {x}, b - {x});
    }
  }

  /** The result reads as the next snapshot, and is the previous object exactly when nothing differs. */
  lemma {:induction false} ShareIsFaithful(previous: Option<Json>, next: Json)
    ensures Share(previous, next).Previous? <==> previous == Some(next)
    ensures Value(Share(previous, next), previous) == next
    decreases next
  {
    if previous.Some? && Compound(previous.value) && Compound(next) && previous.value.Arr? == next.Arr? {
      if next.Arr? {
        ShareArray(previous.value, next);
      } else {
        ShareObject(previous.value, next);
      }
    }
  }

  lemma {:induction false} ShareArray(p: Json, next: Json)
    requires p.Arr? && next.Arr?
    ensures Share(Some(p), next).Previous? <==> p == next
    ensures Value(Share(Some(p), next), Some(p)) == next
    decreases next, 0
  {
    var parts := seq(|next.items|, i requires 0 <= i < |next.items| => Share(Item(p, i), next.items[i]));
    forall i | 0 <= i < |next.items|
      ensures (parts[i].Previous? <==> Item(p, i) == Some(next.items[i]))
              && Value(parts[i], Item(p, i)) == next.items[i]
    {
      ShareIsFaithful(Item(p, i), next.items[i]);
    }
    if |p.items| == |parts| && (forall i :: 0 <= i < |parts| ==> parts[i].Previous?) {
      assert p.items == next.items;
    } else {
      assert Share(Some(p), next) == BuiltArr(parts);
      assert Value(BuiltArr(parts), Some(p)).items == next.items;
    }
    if p == next {
      assert forall i :: 0 <= i < |parts| ==> parts[i].Previous?;
    }
  }

  lemma {:induction false} ShareObject(p: Json, next: Json)
    requires p.Obj? && next.Obj?
    ensures Share(Some(p), next).Previous? <==> p == next
    ensures Value(Share(Some(p), next), Some(p)) == next
    decreases next, 0
  {
    var members := map key | key in next.fields :: Share(Field(p, key), next.fields[key]);
    forall key | key in next.fields
      ensures (members[key].Previous? <==> Field(p, key) == Some(next.fields[key]))
              && Value(members[key], Field(p, key)) == next.fields[key]
    {
      ShareIsFaithful(Field(p, key), next.fields[key]);
    }
    if |p.fields| == |next.fields| && (forall key :: key in members ==> members[key].Previous?) {
      SameKeys(p.fields, next.fields);
      assert p.fields == next.fields;
    } else {
      assert Share(Some(p), next) == BuiltObj(members);
      assert Value(BuiltObj(members), Some(p)).fields == next.fields;
    }
    if p == next {
      assert forall key :: key in members ==> members[key].Previous?;
    }
  }

  // ---------------------------------------------------------------- everything unchanged is shared

  datatype Step = Index(i: nat) | Key(key: string)

  function Child(j: Json, s: Step): Option<Json>
  {
    match s case Index(i) => Item(j, i) case Key(key) => Field(j, key)
  }

  function Get(j: Json, path: seq<Step>): Option<Json>
  {
    if path == [] then Some(j)
    else match Child(j, path[0]) case None => None case Some(c) => Get(c, path[1..])
  }

  function Part(r: Shared, s: Step): Option<Shared>
  {
    match s
    case Index(i) => if r.BuiltArr? && i < |r.parts| then Some(r.parts[i]) else None
    case Key(key) => if r.BuiltObj? && key in r.members then Some(r.members[key]) else None
  }

  function Node(r: Shared, path: seq<Step>): Option<Shared>
  {
    if path == [] then Some(r)
    else match Part(r, path[0]) case None => None case Some(c) => Node(c, path[1..])
  }

  /** A part of the result is the sharing of the parts. */
  lemma PartIsShare(p: Json, next: Json, s: Step)
    requires Child(p, s).Some? && Child(next, s).Some? && p != next
    ensures Part(Share(Some(p), next), s) == Some(Share(Child(p, s), Child(next, s).value))
  {
    ShareIsFaithful(Some(p), next);
  }

  /** Whatever stands unchanged at some path is the previous object, or lies within one. */
  lemma {:induction false} UnchangedIsShared(p: Json, next: Json, path: seq<Step>) returns (k: nat)
    requires Get(next, path).Some? && Get(p, path) == Get(next, path)
    ensures k <= |path| && Node(Share(Some(p), next), path[..k]) == Some(Previous)
    decreases |path|
  {
    ShareIsFaithful(Some(p), next);
    if p == next {
      k := 0;
    } else {
      var s := path[0];
      PartIsShare(p, next, s);
      var rest := UnchangedIsShared(Child(p, s).value, Child(next, s).value, path[1..]);
      k := rest + 1;
      assert path[..k][1..] == path[1..][..rest];
    }
  }

  // ---------------------------------------------------------------- as it is written

  method ShareWaiterSnapshot(previous: Option<Json>, next: Json) returns (r: Shared)
    ensures r == Share(previous, next)
    decreases next, 1
  {
    if previous.None? {
      return Taken(next);
    }
    var p := previous.value;
    if !Compound(p) && p == next {
      return Previous;
    }
    if !Compound(p) || !Compound(next) || p.Arr? != next.Arr? {
      return Taken(next);
    }
    if next.Arr? {
      r := ShareItems(p, next);
    } else {
      r := ShareFields(p, next);
    }
  }

  method ShareItems(p: Json, next: Json) returns (r: Shared)
    requires p.Arr? && next.Arr?
    ensures r == Share(Some(p), next)
    decreases next, 0
  {
    var parts: seq<Shared> := [];
    var same := |p.items| == |next.items|;
    for i := 0 to |next.items|
      invariant |parts| == i && forall k :: 0 <= k < i ==> parts[k] == Share(Item(p, k), next.items[k])
      invariant same <==> |p.items| == |next.items| && forall k :: 0 <= k < i ==> parts[k].Previous?
    {
      var part := ShareWaiterSnapshot(Item(p, i), next.items[i]);
      parts := parts + [part];
      same := same && part.Previous?;
    }
    assert parts == seq(|next.items|, i requires 0 <= i < |next.items| => Share(Item(p, i), next.items[i]));
    r := if same then Previous else BuiltArr(parts);
  }

  /** Sharing member by member what the previous object has under each key. */
  function Members(p: Json, next: Json): (r: map<string, Shared>)
    requires next.Obj?
    ensures r.Keys == next.fields.Keys
    ensures forall key :: key in next.fields ==> r[key] == Share(Field(p, key), next.fields[key])
  {
    map key | key in next.fields :: Share(Field(p, key), next.fields[key])
  }

  method ShareFields(p: Json, next: Json) returns (r: Shared)
    requires p.Obj? && next.Obj?
    ensures r == Share(Some(p), next)
    decreases next, 0
  {
    ghost var all := Members(p, next);
    var members: map<string, Shared> := map[];
    var same := |p.fields| == |next.fields|;
    var left := next.fields.Keys;
    while left != {}
      invariant left <= all.Keys && members.Keys == all.Keys - left
      invariant forall key :: key in members ==> members[key] == all[key]
      invariant same <==> |p.fields| == |next.fields| && forall key :: key in members ==> members[key].Previous?
      decreases left
    {
      var key :| key in left;
      var member := ShareWaiterSnapshot(Field(p, key), next.fields[key]);
      members := members[key := member];
      left := left - {key};
      same := same && member.Previous?;
    }
    assert members == all;
    r := if same then Previous else BuiltObj(members);
  }
}
