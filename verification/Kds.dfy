/**
 * The station screen's merge of a poll into what is shown: local writes the poll cannot know yet are
 * protected, and what has not changed is handed back as the very same object.
 */
module Kds {
  import opened Common

  datatype Status = Submitted | Accepted | Preparing | Ready | Served | Cancelled

  datatype Mark = Saving | Checking

  /** fields stands for everything a poll carries besides the status: name, quantity, note, modifiers, time. */
  datatype Item = Item(id: nat, fields: nat, status: Status, pending: Option<Mark>)

  /** labels stands for table, waiter and time of the order. */
  datatype Order = Order(id: nat, labels: nat, items: seq<Item>)

  datatype Write = Write(status: Status, pending: Option<Mark>, seqNo: int)

  /** A result is the very object of before, or one made anew. */
  datatype MergedItem = KeptItem(item: Item) | MadeItem(item: Item)

  datatype MergedOrder = KeptOrder(order: Order) | MadeOrder(order: Order)

  // ---------------------------------------------------------------- the merge

  predicate Protected(writes: map<nat, Write>, poll: int, id: nat)
  {
    id in writes && (writes[id].pending.Some? || writes[id].seqNo > poll)
  }

  function FindItem(items: seq<Item>, id: nat): (r: Option<Item>)
    ensures r.Some? ==> r.value in items && r.value.id == id
    ensures r.None? ==> forall x :: x in items ==> x.id != id
  {
    if items == [] then None
    else if items[|items| - 1].id == id then Some(items[|items| - 1])
    else FindItem(items[..|items| - 1], id)
  }

  function FindOrder(orders: seq<Order>, id: nat): (r: Option<Order>)
    ensures r.Some? ==> r.value in orders && r.value.id == id
    ensures r.None? ==> forall o :: o in orders ==> o.id != id
  {
    if orders == [] then None
    else if orders[|orders| - 1].id == id then Some(orders[|orders| - 1])
    else FindOrder(orders[..|orders| - 1], id)
  }

  /** What an item looks like with the write that protects it, if any. */
  function Dressed(x: Item, writes: map<nat, Write>, poll: int): Item
  {
    if Protected(writes, poll, x.id) then x.(status := writes[x.id].status, pending := writes[x.id].pending)
    else x.(pending := None)
  }

  function MergeItem(x: Item, prior: seq<Item>, writes: map<nat, Write>, poll: int): MergedItem
  {
    var d := Dressed(x, writes, poll);
    var prev := FindItem(prior, x.id);
    if prev.Some? && prev.value.status == d.status && prev.value.pending == d.pending && prev.value.fields == x.fields
    then KeptItem(prev.value) else MadeItem(d)
  }

  /** Protected items of before that the poll does not list under this order. */
  function Missing(prior: seq<Item>, polled: seq<Item>, writes: map<nat, Write>, poll: int): seq<Item>
  {
    if prior == [] then []
    else
      var x := prior[|prior| - 1];
      Missing(prior[..|prior| - 1], polled, writes, poll)
      + if FindItem(polled, x.id).None? && Protected(writes, poll, x.id) then [x] else []
  }

  function MergeItems(xs: seq<Item>, prior: seq<Item>, writes: map<nat, Write>, poll: int): (r: seq<MergedItem>)
    ensures |r| == |xs|
    ensures forall i :: 0 <= i < |xs| ==> r[i] == MergeItem(xs[i], prior, writes, poll)
  {
    seq(|xs|, i requires 0 <= i < |xs| => MergeItem(xs[i], prior, writes, poll))
  }

  function ItemsOf(ms: seq<MergedItem>): (r: seq<Item>)
    ensures |r| == |ms|
    ensures forall i :: 0 <= i < |ms| ==> r[i] == ms[i].item
  {
    seq(|ms|, i requires 0 <= i < |ms| => ms[i].item)
  }

  /** The same objects in the same places; ids are unique within an order. */
  predicate SameObjects(ms: seq<MergedItem>, prior: seq<Item>)
  {
    |ms| == |prior| && forall i :: 0 <= i < |ms| ==> ms[i].KeptItem? && ms[i].item.id == prior[i].id
  }

  function OldItems(prior: Option<Order>): seq<Item> { if prior.Some? then prior.value.items else [] }

  function MergeOrder(o: Order, prior: Option<Order>, writes: map<nat, Write>, poll: int): MergedOrder
  {
    var was := OldItems(prior);
    var ms := MergeItems(o.items + Missing(was, o.items, writes, poll), was, writes, poll);
    if prior.Some? && SameObjects(ms, was) && prior.value.labels == o.labels then KeptOrder(prior.value)
    else MadeOrder(o.(items := ItemsOf(ms)))
  }

  predicate SomeProtected(items: seq<Item>, writes: map<nat, Write>, poll: int)
  {
    exists i :: 0 <= i < |items| && Protected(writes, poll, items[i].id)
  }

  /** Orders of before that the poll no longer lists but that still hold a protected item; their other items go. */
  function Lingering(previous: seq<Order>, polled: seq<Order>, writes: map<nat, Write>, poll: int): seq<Order>
  {
    if previous == [] then []
    else
      Lingering(previous[..|previous| - 1], polled, writes, poll)
      + if Lingers(previous[|previous| - 1], polled, writes, poll) then [previous[|previous| - 1].(items := [])] else []
  }

  predicate Lingers(o: Order, polled: seq<Order>, writes: map<nat, Write>, poll: int)
  {
    FindOrder(polled, o.id).None? && SomeProtected(o.items, writes, poll)
  }

  predicate Active(x: Item) { x.pending.Some? || x.status.Submitted? || x.status.Accepted? || x.status.Preparing? }

  predicate HasPendingWork(o: Order) { exists i :: 0 <= i < |o.items| && Active(o.items[i]) }

  function Flatten<T>(parts: seq<seq<T>>): seq<T>
  {
    if parts == [] then [] else Flatten(parts[..|parts| - 1]) + parts[|parts| - 1]
  }

  lemma {:induction false} FlattenSum<T>(a: seq<seq<T>>, b: seq<seq<T>>)
    ensures Flatten(a + b) == Flatten(a) + Flatten(b)
  {
    if b == [] {
      assert a + b == a;
    } else {
      var n := |b| - 1;
      assert (a + b)[..|a| + n] == a + b[..n];
      FlattenSum(a, b[..n]);
    }
  }

  function MergeAll(incoming: seq<Order>, previous: seq<Order>, writes: map<nat, Write>, poll: int): seq<MergedOrder>
  {
    Flatten(MergeParts(incoming, previous, writes, poll))
  }

  function MapParts<A, B>(xs: seq<A>, f: A -> seq<B>): (r: seq<seq<B>>)
    ensures |r| == |xs| && forall i :: 0 <= i < |xs| ==> r[i] == f(xs[i])
  {
    seq(|xs|, i requires 0 <= i < |xs| => f(xs[i]))
  }

  lemma MapSum<A, B>(a: seq<A>, b: seq<A>, f: A -> seq<B>)
    ensures MapParts(a + b, f) == MapParts(a, f) + MapParts(b, f)
  {
  }

  function Merger(previous: seq<Order>, writes: map<nat, Write>, poll: int): Order -> seq<MergedOrder>
  {
    (o: Order) => MergeOne(o, previous, writes, poll)
  }

  function MergeParts(incoming: seq<Order>, previous: seq<Order>, writes: map<nat, Write>, poll: int)
    : seq<seq<MergedOrder>>
  {
    MapParts(incoming, Merger(previous, writes, poll))
  }

  /** One incoming order, unless nothing in it is left to do. */
  function MergeOne(o: Order, previous: seq<Order>, writes: map<nat, Write>, poll: int): seq<MergedOrder>
  {
    var m := MergeOrder(o, FindOrder(previous, o.id), writes, poll);
    if HasPendingWork(m.order) then [m] else []
  }

  function Merge(previous: seq<Order>, polled: seq<Order>, writes: map<nat, Write>, poll: int): seq<MergedOrder>
  {
    MergeAll(polled + Lingering(previous, polled, writes, poll), previous, writes, poll)
  }

  function OrdersOf(ms: seq<MergedOrder>): (r: seq<Order>)
    ensures |r| == |ms|
    ensures forall i :: 0 <= i < |ms| ==> r[i] == ms[i].order
  {
    seq(|ms|, i requires 0 <= i < |ms| => ms[i].order)
  }

  lemma MergeSum(a: seq<Order>, b: seq<Order>, previous: seq<Order>, writes: map<nat, Write>, poll: int)
    ensures MergeAll(a + b, previous, writes, poll)
            == MergeAll(a, previous, writes, poll) + MergeAll(b, previous, writes, poll)
  {
    MapSum(a, b, Merger(previous, writes, poll));
    FlattenSum(MergeParts(a, previous, writes, poll), MergeParts(b, previous, writes, poll));
  }

  lemma MergeLast(xs: seq<Order>, o: Order, previous: seq<Order>, writes: map<nat, Write>, poll: int)
    ensures MergeAll(xs + [o], previous, writes, poll)
            == MergeAll(xs, previous, writes, poll) + MergeOne(o, previous, writes, poll)
    ensures MergeAll([], previous, writes, poll) == []
  {
    MergeSum(xs, [o], previous, writes, poll);
    var p := MergeParts([o], previous, writes, poll);
    assert p[..0] == [] && Flatten(p[..0]) == [];
  }

  // ---------------------------------------------------------------- what it shows

  ghost predicate DistinctItems(items: seq<Item>) { forall i, j :: 0 <= i < j < |items| ==> items[i].id != items[j].id }

  ghost predicate DistinctOrders(orders: seq<Order>)
  {
    forall i, j :: 0 <= i < j < |orders| ==> orders[i].id != orders[j].id
  }

  /** A screen, or a poll: orders by id, items by id within each. */
  ghost predicate Screen(orders: seq<Order>)
  {
    DistinctOrders(orders) && forall o :: o in orders ==> DistinctItems(o.items)
  }

  lemma FoundItem(items: seq<Item>, x: Item)
    requires DistinctItems(items) && x in items
    ensures FindItem(items, x.id) == Some(x)
  {
    var f := FindItem(items, x.id);
    assert f.Some?;
    var i :| 0 <= i < |items| && items[i] == x;
    var j :| 0 <= j < |items| && items[j] == f.value;
    assert i == j;
  }

  lemma FoundOrder(orders: seq<Order>, o: Order)
    requires DistinctOrders(orders) && o in orders
    ensures FindOrder(orders, o.id) == Some(o)
  {
    var f := FindOrder(orders, o.id);
    assert f.Some?;
    var i :| 0 <= i < |orders| && orders[i] == o;
    var j :| 0 <= j < |orders| && orders[j] == f.value;
    assert i == j;
  }

  /** Whether kept or made, an item shown as the source item in the write that protects it. */
  lemma ItemReads(x: Item, prior: seq<Item>, writes: map<nat, Write>, poll: int)
    ensures MergeItem(x, prior, writes, poll).item == Dressed(x, writes, poll)
  {
  }

  lemma {:induction false} MissingMembers(prior: seq<Item>, polled: seq<Item>, writes: map<nat, Write>, poll: int,
                                          x: Item)
    ensures x in Missing(prior, polled, writes, poll)
            <==> x in prior && FindItem(polled, x.id).None? && Protected(writes, poll, x.id)
  {
    if prior != [] {
      MissingMembers(prior[..|prior| - 1], polled, writes, poll, x);
      assert prior == prior[..|prior| - 1] + [prior[|prior| - 1]];
    }
  }

  lemma {:induction false} MissingDistinct(prior: seq<Item>, polled: seq<Item>, writes: map<nat, Write>, poll: int)
    requires DistinctItems(prior)
    ensures DistinctItems(Missing(prior, polled, writes, poll))
  {
    if prior != [] {
      var n := |prior| - 1;
      MissingDistinct(prior[..n], polled, writes, poll);
      var before := Missing(prior[..n], polled, writes, poll);
      forall i | 0 <= i < |before| ensures before[i].id != prior[n].id {
        MissingMembers(prior[..n], polled, writes, poll, before[i]);
      }
    }
  }

  /** The items an order is merged from: the poll's, then the protected ones it misses. */
  function Sources(o: Order, prior: seq<Item>, writes: map<nat, Write>, poll: int): seq<Item>
  {
    o.items + Missing(prior, o.items, writes, poll)
  }

  lemma SourcesDistinct(o: Order, prior: seq<Item>, writes: map<nat, Write>, poll: int)
    requires DistinctItems(o.items) && DistinctItems(prior)
    ensures DistinctItems(Sources(o, prior, writes, poll))
  {
    var missing := Missing(prior, o.items, writes, poll);
    MissingDistinct(prior, o.items, writes, poll);
    forall j | 0 <= j < |missing| ensures forall i :: 0 <= i < |o.items| ==> o.items[i].id != missing[j].id {
      MissingMembers(prior, o.items, writes, poll, missing[j]);
    }
  }

  function DressAll(xs: seq<Item>, writes: map<nat, Write>, poll: int): (r: seq<Item>)
    ensures |r| == |xs|
    ensures forall i :: 0 <= i < |xs| ==> r[i] == Dressed(xs[i], writes, poll)
  {
    seq(|xs|, i requires 0 <= i < |xs| => Dressed(xs[i], writes, poll))
  }

  /** What a merged order shown as, whoever made the object. */
  function Reads(o: Order, prior: seq<Item>, writes: map<nat, Write>, poll: int): Order
  {
    o.(items := DressAll(Sources(o, prior, writes, poll), writes, poll))
  }

  /** A kept order is one that shown as before: handed back as the same object exactly when nothing differs. */
  lemma OrderReads(o: Order, prior: Option<Order>, writes: map<nat, Write>, poll: int)
    requires prior.Some? ==> prior.value.id == o.id && DistinctItems(prior.value.items)
    requires DistinctItems(o.items)
    ensures MergeOrder(o, prior, writes, poll).order == Reads(o, OldItems(prior), writes, poll)
    ensures MergeOrder(o, prior, writes, poll).KeptOrder? <==> prior == Some(Reads(o, OldItems(prior), writes, poll))
  {
    var was := OldItems(prior);
    var xs := Sources(o, was, writes, poll);
    var ms := MergeItems(xs, was, writes, poll);
    var shown := DressAll(xs, writes, poll);
    forall i | 0 <= i < |xs| ensures ms[i].item == shown[i] { ItemReads(xs[i], was, writes, poll); }
    assert ItemsOf(ms) == shown;
    if prior.Some? {
      forall i | 0 <= i < |xs| && i < |was|
        ensures ms[i].KeptItem? && ms[i].item.id == was[i].id <==> shown[i] == was[i]
      {
        FoundItem(was, was[i]);
        if shown[i].id == was[i].id {
          assert FindItem(was, xs[i].id) == Some(was[i]);
        }
      }
      if SameObjects(ms, was) {
        assert shown == was;
      }
      if shown == was {
        assert SameObjects(ms, was);
      }
    }
  }

  lemma {:induction false} LingeringMembers(previous: seq<Order>, polled: seq<Order>, writes: map<nat, Write>,
                                            poll: int, o: Order)
    ensures o in Lingering(previous, polled, writes, poll)
            <==> exists p :: p in previous && o == p.(items := []) && FindOrder(polled, p.id).None?
                             && SomeProtected(p.items, writes, poll)
  {
    if previous != [] {
      var n := |previous| - 1;
      LingeringMembers(previous[..n], polled, writes, poll, o);
      assert previous == previous[..n] + [previous[n]];
    }
  }

  lemma {:induction false} LingeringDistinct(previous: seq<Order>, polled: seq<Order>, writes: map<nat, Write>,
                                             poll: int)
    requires DistinctOrders(previous)
    ensures DistinctOrders(Lingering(previous, polled, writes, poll))
  {
    if previous != [] {
      var n := |previous| - 1;
      LingeringDistinct(previous[..n], polled, writes, poll);
      var before := Lingering(previous[..n], polled, writes, poll);
      forall i | 0 <= i < |before| ensures before[i].id != previous[n].id {
        LingeringMembers(previous[..n], polled, writes, poll, before[i]);
      }
    }
  }

  function Incoming(previous: seq<Order>, polled: seq<Order>, writes: map<nat, Write>, poll: int): seq<Order>
  {
    polled + Lingering(previous, polled, writes, poll)
  }

  lemma IncomingScreen(previous: seq<Order>, polled: seq<Order>, writes: map<nat, Write>, poll: int)
    requires Screen(previous) && Screen(polled)
    ensures Screen(Incoming(previous, polled, writes, poll))
  {
    var l := Lingering(previous, polled, writes, poll);
    LingeringDistinct(previous, polled, writes, poll);
    forall o | o in l
      ensures o.items == [] && FindOrder(polled, o.id).None?
    {
      LingeringMembers(previous, polled, writes, poll, o);
    }
    forall j | 0 <= j < |l| ensures forall i :: 0 <= i < |polled| ==> polled[i].id != l[j].id {
      assert l[j] in l;
    }
  }

  /** What an incoming order reads as next to what was shown of it. */
  function ReadsNext(o: Order, previous: seq<Order>, writes: map<nat, Write>, poll: int): Order
  {
    Reads(o, OldItems(FindOrder(previous, o.id)), writes, poll)
  }

  lemma NextReads(o: Order, previous: seq<Order>, writes: map<nat, Write>, poll: int)
    requires Screen(previous) && DistinctItems(o.items)
    ensures MergeOrder(o, FindOrder(previous, o.id), writes, poll).order == ReadsNext(o, previous, writes, poll)
    ensures FindOrder(previous, o.id) == Some(ReadsNext(o, previous, writes, poll))
            ==> MergeOrder(o, FindOrder(previous, o.id), writes, poll)
                == KeptOrder(ReadsNext(o, previous, writes, poll))
  {
    OrderReads(o, FindOrder(previous, o.id), writes, poll);
  }

  lemma OneMember(o: Order, previous: seq<Order>, writes: map<nat, Write>, poll: int, v: Order)
    requires Screen(previous) && DistinctItems(o.items)
    ensures v in OrdersOf(MergeOne(o, previous, writes, poll))
            <==> v == ReadsNext(o, previous, writes, poll) && HasPendingWork(v)
    ensures |MergeOne(o, previous, writes, poll)| <= 1
  {
    NextReads(o, previous, writes, poll);
    var one := MergeOne(o, previous, writes, poll);
    if |one| == 1 {
      assert OrdersOf(one) == [ReadsNext(o, previous, writes, poll)];
    }
  }

  lemma {:induction false} FlattenMembers(parts: seq<seq<MergedOrder>>, v: Order)
    ensures v in OrdersOf(Flatten(parts)) <==> exists i :: 0 <= i < |parts| && v in OrdersOf(parts[i])
  {
    if parts != [] {
      var n := |parts| - 1;
      FlattenMembers(parts[..n], v);
      assert forall i :: 0 <= i < n ==> parts[..n][i] == parts[i];
      OrdersSum(Flatten(parts[..n]), parts[n]);
    }
  }

  lemma MergeMembers(incoming: seq<Order>, previous: seq<Order>, writes: map<nat, Write>, poll: int, v: Order)
    requires Screen(previous) && forall o :: o in incoming ==> DistinctItems(o.items)
    ensures v in OrdersOf(MergeAll(incoming, previous, writes, poll))
            <==> exists o :: o in incoming && v == ReadsNext(o, previous, writes, poll) && HasPendingWork(v)
  {
    var parts := MergeParts(incoming, previous, writes, poll);
    FlattenMembers(parts, v);
    forall i | 0 <= i < |incoming|
      ensures v in OrdersOf(parts[i]) <==> v == ReadsNext(incoming[i], previous, writes, poll) && HasPendingWork(v)
    {
      OneMember(incoming[i], previous, writes, poll, v);
    }
    if v in OrdersOf(MergeAll(incoming, previous, writes, poll)) {
      var i :| 0 <= i < |parts| && v in OrdersOf(parts[i]);
      assert incoming[i] in incoming;
    }
  }

  lemma OrdersGrow(incoming: seq<Order>, previous: seq<Order>, writes: map<nat, Write>, poll: int)
    requires incoming != []
    ensures OrdersOf(MergeAll(incoming, previous, writes, poll))
            == OrdersOf(MergeAll(incoming[..|incoming| - 1], previous, writes, poll))
               + OrdersOf(MergeOne(incoming[|incoming| - 1], previous, writes, poll))
  {
    assert incoming == incoming[..|incoming| - 1] + [incoming[|incoming| - 1]];
    MergeLast(incoming[..|incoming| - 1], incoming[|incoming| - 1], previous, writes, poll);
    OrdersSum(MergeAll(incoming[..|incoming| - 1], previous, writes, poll),
              MergeOne(incoming[|incoming| - 1], previous, writes, poll));
  }

  lemma {:induction false} MergeDistinct(incoming: seq<Order>, previous: seq<Order>, writes: map<nat, Write>, poll: int)
    requires Screen(previous) && Screen(incoming)
    ensures DistinctOrders(OrdersOf(MergeAll(incoming, previous, writes, poll)))
  {
    if incoming != [] {
      var n := |incoming| - 1;
      assert Screen(incoming[..n]);
      MergeDistinct(incoming[..n], previous, writes, poll);
      var before := OrdersOf(MergeAll(incoming[..n], previous, writes, poll));
      forall i | 0 <= i < |before| ensures before[i].id != incoming[n].id {
        MergeMembers(incoming[..n], previous, writes, poll, before[i]);
      }
      var one := OrdersOf(MergeOne(incoming[n], previous, writes, poll));
      forall i | 0 <= i < |one|
        ensures one[i].id == incoming[n].id
      {
        OneMember(incoming[n], previous, writes, poll, one[i]);
      }
      OneMember(incoming[n], previous, writes, poll, incoming[n]);
      OrdersGrow(incoming, previous, writes, poll);
    }
  }

  lemma DressedDistinct(xs: seq<Item>, writes: map<nat, Write>, poll: int)
    requires DistinctItems(xs)
    ensures DistinctItems(DressAll(xs, writes, poll))
  {
  }

  /** The screen after a merge: what may be shown next, with unique ids again. */
  function ShownAfter(previous: seq<Order>, polled: seq<Order>, writes: map<nat, Write>, poll: int): seq<Order>
  {
    OrdersOf(Merge(previous, polled, writes, poll))
  }

  lemma FindsScreen(previous: seq<Order>, id: nat)
    requires Screen(previous)
    ensures DistinctItems(OldItems(FindOrder(previous, id)))
  {
  }

  lemma ScreenAfter(previous: seq<Order>, polled: seq<Order>, writes: map<nat, Write>, poll: int)
    requires Screen(previous) && Screen(polled)
    ensures Screen(ShownAfter(previous, polled, writes, poll))
  {
    var incoming := Incoming(previous, polled, writes, poll);
    IncomingScreen(previous, polled, writes, poll);
    MergeDistinct(incoming, previous, writes, poll);
    forall v | v in ShownAfter(previous, polled, writes, poll) ensures DistinctItems(v.items) {
      MergeMembers(incoming, previous, writes, poll, v);
      var o :| o in incoming && v == ReadsNext(o, previous, writes, poll);
      FindsScreen(previous, o.id);
      SourcesDistinct(o, OldItems(FindOrder(previous, o.id)), writes, poll);
      DressedDistinct(Sources(o, OldItems(FindOrder(previous, o.id)), writes, poll), writes, poll);
    }
  }

  lemma {:induction false} DressMembers(xs: seq<Item>, writes: map<nat, Write>, poll: int, d: Item)
    ensures d in DressAll(xs, writes, poll) <==> exists x :: x in xs && d == Dressed(x, writes, poll)
  {
    if d in DressAll(xs, writes, poll) {
      var i :| 0 <= i < |xs| && DressAll(xs, writes, poll)[i] == d;
      assert xs[i] in xs;
    }
    if x :| x in xs && d == Dressed(x, writes, poll) {
      var i :| 0 <= i < |xs| && xs[i] == x;
      assert DressAll(xs, writes, poll)[i] == d;
    }
  }

  /** A polled item is read under its order. */
  lemma PolledIsRead(o: Order, prior: seq<Item>, writes: map<nat, Write>, poll: int, y: Item)
    requires y in o.items
    ensures Dressed(y, writes, poll) in Reads(o, prior, writes, poll).items
  {
    assert y in Sources(o, prior, writes, poll);
    DressMembers(Sources(o, prior, writes, poll), writes, poll, Dressed(y, writes, poll));
  }

  /**
   * What no local write protects is the poll's: an order that is shown has such an item exactly when the poll
   * lists it there, and then with everything as the poll has it.
   */
  lemma UnprotectedFollowsPoll(previous: seq<Order>, polled: seq<Order>, writes: map<nat, Write>, poll: int, v: Order,
                               d: Item)
    requires Screen(previous) && Screen(polled) && v in ShownAfter(previous, polled, writes, poll)
             && !Protected(writes, poll, d.id)
    ensures d in v.items
            <==> d.pending == None && exists o, x :: o in polled && o.id == v.id && x in o.items
                                                  && d == x.(pending := None)
  {
    var incoming := Incoming(previous, polled, writes, poll);
    IncomingScreen(previous, polled, writes, poll);
    MergeMembers(incoming, previous, writes, poll, v);
    var o :| o in incoming && v == ReadsNext(o, previous, writes, poll);
    var prior := OldItems(FindOrder(previous, o.id));
    DressMembers(Sources(o, prior, writes, poll), writes, poll, d);
    if d in v.items {
      var x :| x in Sources(o, prior, writes, poll) && d == Dressed(x, writes, poll);
      MissingMembers(prior, o.items, writes, poll, x);
      assert x in o.items;
      LingeringMembers(previous, polled, writes, poll, o);
    }
    if p, x :| p in polled && p.id == v.id && x in p.items && d == x.(pending := None) {
      SameOrder(incoming, o, p);
      PolledIsRead(o, prior, writes, poll, x);
      assert Dressed(x, writes, poll) == d;
    }
  }

  lemma SameOrder(orders: seq<Order>, a: Order, b: Order)
    requires DistinctOrders(orders) && a in orders && b in orders && a.id == b.id
    ensures a == b
  {
    var i :| 0 <= i < |orders| && orders[i] == a;
    var j :| 0 <= j < |orders| && orders[j] == b;
    assert i == j;
  }

  /** The order a shown item of before is merged into is among the incoming ones if a write protects the item. */
  lemma StillIncoming(previous: seq<Order>, polled: seq<Order>, writes: map<nat, Write>, poll: int, p: Order, x: Item)
      returns (o: Order)
    requires p in previous && x in p.items && Protected(writes, poll, x.id)
    ensures o in Incoming(previous, polled, writes, poll) && o.id == p.id
  {
    if FindOrder(polled, p.id).Some? {
      o := FindOrder(polled, p.id).value;
    } else {
      o := p.(items := []);
      var i :| 0 <= i < |p.items| && p.items[i] == x;
      assert Protected(writes, poll, p.items[i].id);
      LingeringMembers(previous, polled, writes, poll, o);
    }
  }

  /** A protected item of before is shown under its order, once, as the write says. */
  lemma ProtectedStays(previous: seq<Order>, polled: seq<Order>, writes: map<nat, Write>, poll: int, p: Order, x: Item)
      returns (v: Order)
    requires Screen(previous) && Screen(polled) && p in previous && x in p.items && Protected(writes, poll, x.id)
    ensures v.id == p.id
    ensures exists d :: d in v.items && d.id == x.id && d.status == writes[x.id].status
                      && d.pending == writes[x.id].pending
    ensures HasPendingWork(v) ==> v in ShownAfter(previous, polled, writes, poll)
  {
    var incoming := Incoming(previous, polled, writes, poll);
    IncomingScreen(previous, polled, writes, poll);
    var o := StillIncoming(previous, polled, writes, poll, p, x);
    FoundOrder(previous, p);
    v := ReadsNext(o, previous, writes, poll);
    MergeMembers(incoming, previous, writes, poll, v);
    var listed := FindItem(o.items, x.id);
    MissingMembers(p.items, o.items, writes, poll, x);
    var y := if listed.Some? then listed.value else x;
    assert y in Sources(o, p.items, writes, poll);
    DressMembers(Sources(o, p.items, writes, poll), writes, poll, Dressed(y, writes, poll));
  }

  /** An order shows an item. */
  ghost predicate Shows(v: Order, id: nat) { exists d :: d in v.items && d.id == id }

  /**
   * An item with a pending write, shown under one order before, is shown under that order with the write's
   * status and mark; and under no other order exactly when the poll lists it under no other.
   */
  lemma PendingShownOnce(previous: seq<Order>, polled: seq<Order>, writes: map<nat, Write>, poll: int, p: Order,
                         x: Item)
    requires Screen(previous) && Screen(polled) && p in previous && x in p.items && x.id in writes
             && writes[x.id].pending.Some?
    requires forall q :: q in previous && Shows(q, x.id) ==> q == p
    ensures exists v, d :: v in ShownAfter(previous, polled, writes, poll) && v.id == p.id && d in v.items
                           && d.id == x.id && d.status == writes[x.id].status && d.pending == writes[x.id].pending
    ensures (forall v :: v in ShownAfter(previous, polled, writes, poll) && Shows(v, x.id) ==> v.id == p.id)
            <==> forall q :: q in polled && Shows(q, x.id) ==> q.id == p.id
  {
    var v := ProtectedStays(previous, polled, writes, poll, p, x);
    var d :| d in v.items && d.id == x.id && d.status == writes[x.id].status && d.pending == writes[x.id].pending;
    PendingWorks(v, d);
    forall u | u in ShownAfter(previous, polled, writes, poll) && Shows(u, x.id) && u.id != p.id
      ensures exists q :: q in polled && Shows(q, x.id) && q.id == u.id
    {
      ElsewhereByPoll(previous, polled, writes, poll, p, x.id, u);
    }
    forall q | q in polled && Shows(q, x.id) && q.id != p.id
      ensures exists u :: u in ShownAfter(previous, polled, writes, poll) && Shows(u, x.id) && u.id == q.id
    {
      ByPollElsewhere(previous, polled, writes, poll, x.id, q);
    }
  }

  lemma PendingWorks(v: Order, d: Item)
    requires d in v.items && d.pending.Some?
    ensures HasPendingWork(v)
  {
    var i :| 0 <= i < |v.items| && v.items[i] == d;
    assert Active(v.items[i]);
  }

  lemma PriorShows(previous: seq<Order>, id: nat, y: Item)
    ensures y in OldItems(FindOrder(previous, id)) ==> exists q :: q in previous && q.id == id && Shows(q, y.id)
  {
  }

  lemma ElsewhereByPoll(previous: seq<Order>, polled: seq<Order>, writes: map<nat, Write>, poll: int, p: Order, id: nat,
                        u: Order)
    requires Screen(previous) && Screen(polled) && Protected(writes, poll, id)
    requires forall q :: q in previous && Shows(q, id) ==> q == p
    requires u in ShownAfter(previous, polled, writes, poll) && Shows(u, id) && u.id != p.id
    ensures exists q :: q in polled && Shows(q, id) && q.id == u.id
  {
    var incoming := Incoming(previous, polled, writes, poll);
    IncomingScreen(previous, polled, writes, poll);
    MergeMembers(incoming, previous, writes, poll, u);
    var o :| o in incoming && u == ReadsNext(o, previous, writes, poll);
    var prior := OldItems(FindOrder(previous, o.id));
    var d :| d in u.items && d.id == id;
    DressMembers(Sources(o, prior, writes, poll), writes, poll, d);
    var y :| y in Sources(o, prior, writes, poll) && d == Dressed(y, writes, poll);
    MissingMembers(prior, o.items, writes, poll, y);
    PriorShows(previous, o.id, y);
    assert y in o.items;
    LingeringMembers(previous, polled, writes, poll, o);
    assert Shows(o, id);
  }

  lemma ByPollElsewhere(previous: seq<Order>, polled: seq<Order>, writes: map<nat, Write>, poll: int, id: nat, q: Order)
    requires Screen(previous) && Screen(polled) && id in writes && writes[id].pending.Some? && q in polled
             && Shows(q, id)
    ensures exists u :: u in ShownAfter(previous, polled, writes, poll) && Shows(u, id) && u.id == q.id
  {
    var incoming := Incoming(previous, polled, writes, poll);
    IncomingScreen(previous, polled, writes, poll);
    var u := ReadsNext(q, previous, writes, poll);
    MergeMembers(incoming, previous, writes, poll, u);
    var y :| y in q.items && y.id == id;
    PolledIsRead(q, OldItems(FindOrder(previous, q.id)), writes, poll, y);
    PendingWorks(u, Dressed(y, writes, poll));
    assert q in incoming;
  }

  // ---------------------------------------------------------------- the same poll again

  lemma DressedTwice(x: Item, writes: map<nat, Write>, poll: int)
    ensures Dressed(Dressed(x, writes, poll), writes, poll) == Dressed(x, writes, poll)
  {
  }

  lemma {:induction false} MissingSum(a: seq<Item>, b: seq<Item>, polled: seq<Item>, writes: map<nat, Write>, poll: int)
    ensures Missing(a + b, polled, writes, poll) == Missing(a, polled, writes, poll) + Missing(b, polled, writes, poll)
  {
    if b == [] {
      assert a + b == a;
    } else {
      var n := |b| - 1;
      assert (a + b)[..|a| + n] == a + b[..n];
      MissingSum(a, b[..n], polled, writes, poll);
    }
  }

  lemma {:induction false} MissingNone(xs: seq<Item>, polled: seq<Item>, writes: map<nat, Write>, poll: int)
    requires forall x :: x in xs ==> FindItem(polled, x.id).Some?
    ensures Missing(xs, polled, writes, poll) == []
  {
    if xs != [] {
      MissingNone(xs[..|xs| - 1], polled, writes, poll);
      assert xs[|xs| - 1] in xs;
    }
  }

  lemma {:induction false} MissingAll(xs: seq<Item>, polled: seq<Item>, writes: map<nat, Write>, poll: int)
    requires forall x :: x in xs ==> FindItem(polled, x.id).None? && Protected(writes, poll, x.id)
    ensures Missing(xs, polled, writes, poll) == xs
  {
    if xs != [] {
      MissingAll(xs[..|xs| - 1], polled, writes, poll);
      assert xs[|xs| - 1] in xs;
    }
  }

  lemma FindDressed(xs: seq<Item>, polled: seq<Item>, writes: map<nat, Write>, poll: int)
    requires forall x :: x in xs ==> x in polled
    ensures forall d :: d in DressAll(xs, writes, poll) ==> FindItem(polled, d.id).Some?
  {
    forall d | d in DressAll(xs, writes, poll) ensures FindItem(polled, d.id).Some? {
      DressMembers(xs, writes, poll, d);
    }
  }

  /** Merged once, an order is missing exactly what it was missing before, as shown. */
  lemma MissingAgain(o: Order, prior: seq<Item>, writes: map<nat, Write>, poll: int)
    ensures Missing(Reads(o, prior, writes, poll).items, o.items, writes, poll)
            == DressAll(Missing(prior, o.items, writes, poll), writes, poll)
  {
    var missing := Missing(prior, o.items, writes, poll);
    var a, b := DressAll(o.items, writes, poll), DressAll(missing, writes, poll);
    assert Reads(o, prior, writes, poll).items == a + b;
    MissingSum(a, b, o.items, writes, poll);
    FindDressed(o.items, o.items, writes, poll);
    MissingNone(a, o.items, writes, poll);
    forall d | d in b ensures FindItem(o.items, d.id).None? && Protected(writes, poll, d.id) {
      DressMembers(missing, writes, poll, d);
      var x :| x in missing && d == Dressed(x, writes, poll);
      MissingMembers(prior, o.items, writes, poll, x);
    }
    MissingAll(b, o.items, writes, poll);
  }

  lemma DressAllTwice(xs: seq<Item>, writes: map<nat, Write>, poll: int)
    ensures DressAll(DressAll(xs, writes, poll), writes, poll) == DressAll(xs, writes, poll)
  {
    forall i | 0 <= i < |xs|
      ensures Dressed(Dressed(xs[i], writes, poll), writes, poll) == Dressed(xs[i], writes, poll)
    {
      DressedTwice(xs[i], writes, poll);
    }
  }

  lemma DressSum(a: seq<Item>, b: seq<Item>, writes: map<nat, Write>, poll: int)
    ensures DressAll(a + b, writes, poll) == DressAll(a, writes, poll) + DressAll(b, writes, poll)
  {
  }

  /** Reading an order next to its own merged form gives that form again. */
  lemma ReadsAgain(o: Order, prior: seq<Item>, writes: map<nat, Write>, poll: int)
    ensures Reads(o, Reads(o, prior, writes, poll).items, writes, poll) == Reads(o, prior, writes, poll)
  {
    var missing := Missing(prior, o.items, writes, poll);
    MissingAgain(o, prior, writes, poll);
    DressSum(o.items, DressAll(missing, writes, poll), writes, poll);
    DressSum(o.items, missing, writes, poll);
    DressAllTwice(missing, writes, poll);
  }

  /** An order that had no work left has none when it is read without what was shown of it. */
  lemma StillNoWork(o: Order, prior: seq<Item>, writes: map<nat, Write>, poll: int)
    requires !HasPendingWork(Reads(o, prior, writes, poll))
    ensures !HasPendingWork(Reads(o, [], writes, poll))
  {
    var long, short := Reads(o, prior, writes, poll).items, Reads(o, [], writes, poll).items;
    assert Missing([], o.items, writes, poll) == [];
    forall i | 0 <= i < |short| ensures !Active(short[i]) {
      assert short[i] == long[i];
    }
  }

  lemma NotAfter(o: Order, incoming: seq<Order>, previous: seq<Order>, after: seq<Order>, writes: map<nat, Write>,
                 poll: int)
    requires Screen(previous) && Screen(incoming) && o in incoming
    requires after == OrdersOf(MergeAll(incoming, previous, writes, poll))
             && !HasPendingWork(ReadsNext(o, previous, writes, poll))
    ensures FindOrder(after, o.id).None?
  {
    var f := FindOrder(after, o.id);
    if f.Some? {
      MergeMembers(incoming, previous, writes, poll, f.value);
      var p :| p in incoming && f.value == ReadsNext(p, previous, writes, poll);
      SameOrder(incoming, o, p);
    }
  }

  /** One incoming order, merged against the screen it has led to: kept if it is shown, left out if it was. */
  lemma MergedAgain(o: Order, incoming: seq<Order>, previous: seq<Order>, after: seq<Order>, writes: map<nat, Write>,
                    poll: int)
    requires Screen(previous) && Screen(incoming) && o in incoming && Screen(after)
    requires after == OrdersOf(MergeAll(incoming, previous, writes, poll))
    ensures var v := ReadsNext(o, previous, writes, poll);
            MergeOne(o, after, writes, poll) == if HasPendingWork(v) then [KeptOrder(v)] else []
  {
    var prior := OldItems(FindOrder(previous, o.id));
    var v := ReadsNext(o, previous, writes, poll);
    if HasPendingWork(v) {
      MergeMembers(incoming, previous, writes, poll, v);
      FoundOrder(after, v);
      ReadsAgain(o, prior, writes, poll);
      OrderReads(o, Some(v), writes, poll);
    } else {
      NotAfter(o, incoming, previous, after, writes, poll);
      OrderReads(o, None, writes, poll);
      StillNoWork(o, prior, writes, poll);
    }
  }

  function KeepAll(orders: seq<Order>): (r: seq<MergedOrder>)
    ensures |r| == |orders| && forall i :: 0 <= i < |orders| ==> r[i] == KeptOrder(orders[i])
  {
    seq(|orders|, i requires 0 <= i < |orders| => KeptOrder(orders[i]))
  }

  lemma KeepMore(a: seq<MergedOrder>, b: seq<MergedOrder>)
    ensures KeepAll(OrdersOf(a + b)) == KeepAll(OrdersOf(a)) + KeepAll(OrdersOf(b))
  {
  }

  lemma KeepOne(o: Order, previous: seq<Order>, writes: map<nat, Write>, poll: int)
    requires Screen(previous) && DistinctItems(o.items)
    ensures var v := ReadsNext(o, previous, writes, poll);
            KeepAll(OrdersOf(MergeOne(o, previous, writes, poll))) == if HasPendingWork(v) then [KeptOrder(v)] else []
  {
    NextReads(o, previous, writes, poll);
  }

  lemma KeptMore(xs: seq<Order>, o: Order, previous: seq<Order>, after: seq<Order>, writes: map<nat, Write>, poll: int)
    requires MergeAll(xs, after, writes, poll) == KeepAll(OrdersOf(MergeAll(xs, previous, writes, poll)))
    requires MergeOne(o, after, writes, poll) == KeepAll(OrdersOf(MergeOne(o, previous, writes, poll)))
    ensures MergeAll(xs + [o], after, writes, poll) == KeepAll(OrdersOf(MergeAll(xs + [o], previous, writes, poll)))
  {
    MergeLast(xs, o, previous, writes, poll);
    MergeLast(xs, o, after, writes, poll);
    KeepMore(MergeAll(xs, previous, writes, poll), MergeOne(o, previous, writes, poll));
  }

  /** Incoming orders merged against the screen they have led to: the very same objects. */
  lemma {:induction false} MergeAgain(xs: seq<Order>, incoming: seq<Order>, previous: seq<Order>, after: seq<Order>,
                                      writes: map<nat, Write>, poll: int)
    requires Screen(previous) && Screen(incoming) && Screen(after) && forall o :: o in xs ==> o in incoming
    requires after == OrdersOf(MergeAll(incoming, previous, writes, poll))
    ensures MergeAll(xs, after, writes, poll) == KeepAll(OrdersOf(MergeAll(xs, previous, writes, poll)))
  {
    if xs != [] {
      var o, before := xs[|xs| - 1], xs[..|xs| - 1];
      assert xs == before + [o];
      MergeAgain(before, incoming, previous, after, writes, poll);
      MergedAgain(o, incoming, previous, after, writes, poll);
      KeepOne(o, previous, writes, poll);
      KeptMore(before, o, previous, after, writes, poll);
    }
  }

  lemma {:induction false} LingeringSum(a: seq<Order>, b: seq<Order>, polled: seq<Order>, writes: map<nat, Write>,
                                        poll: int)
    ensures Lingering(a + b, polled, writes, poll)
            == Lingering(a, polled, writes, poll) + Lingering(b, polled, writes, poll)
  {
    if b == [] {
      assert a + b == a;
    } else {
      var n := |b| - 1;
      assert (a + b)[..|a| + n] == a + b[..n];
      LingeringSum(a, b[..n], polled, writes, poll);
    }
  }

  lemma {:induction false} LingeringNone(orders: seq<Order>, polled: seq<Order>, writes: map<nat, Write>, poll: int)
    requires forall o :: o in orders ==> FindOrder(polled, o.id).Some?
    ensures Lingering(orders, polled, writes, poll) == []
  {
    if orders != [] {
      LingeringNone(orders[..|orders| - 1], polled, writes, poll);
      assert orders[|orders| - 1] in orders;
    }
  }

  function Emptied(orders: seq<Order>): (r: seq<Order>)
    ensures |r| == |orders| && forall i :: 0 <= i < |orders| ==> r[i] == orders[i].(items := [])
  {
    seq(|orders|, i requires 0 <= i < |orders| => orders[i].(items := []))
  }

  lemma {:induction false} LingeringAll(orders: seq<Order>, polled: seq<Order>, writes: map<nat, Write>, poll: int)
    requires forall i :: 0 <= i < |orders| ==> Lingers(orders[i], polled, writes, poll)
    ensures Lingering(orders, polled, writes, poll) == Emptied(orders)
  {
    if orders != [] {
      var n := |orders| - 1;
      LingeringAll(orders[..n], polled, writes, poll);
      assert Lingers(orders[n], polled, writes, poll);
      assert Emptied(orders) == Emptied(orders[..n]) + [orders[n].(items := [])];
    }
  }

  /** A shown order the poll does not list consists of protected items alone, and comes in again as it did. */
  lemma LingersAgain(q: Order, previous: seq<Order>, polled: seq<Order>, writes: map<nat, Write>, poll: int)
    requires Screen(previous)
    requires q in OrdersOf(MergeAll(Lingering(previous, polled, writes, poll), previous, writes, poll))
    ensures FindOrder(polled, q.id).None? && SomeProtected(q.items, writes, poll)
    ensures q.(items := []) in Lingering(previous, polled, writes, poll) && HasPendingWork(q)
            && q == ReadsNext(q.(items := []), previous, writes, poll)
  {
    var l := Lingering(previous, polled, writes, poll);
    forall o | o in l ensures DistinctItems(o.items) { LingeringMembers(previous, polled, writes, poll, o); }
    MergeMembers(l, previous, writes, poll, q);
    var o :| o in l && q == ReadsNext(o, previous, writes, poll);
    LingeringMembers(previous, polled, writes, poll, o);
    var prior := OldItems(FindOrder(previous, o.id));
    var missing := Missing(prior, [], writes, poll);
    assert Sources(o, prior, writes, poll) == missing;
    MissingMembers(prior, [], writes, poll, missing[0]);
    assert Protected(writes, poll, q.items[0].id);
  }

  lemma {:induction false} FlattenSingles<T>(parts: seq<seq<T>>, xs: seq<T>)
    requires |parts| == |xs| && forall i :: 0 <= i < |xs| ==> parts[i] == [xs[i]]
    ensures Flatten(parts) == xs
  {
    if xs != [] {
      var n := |xs| - 1;
      FlattenSingles(parts[..n], xs[..n]);
    }
  }

  lemma KeptAgain(orders: seq<Order>, after: seq<Order>, writes: map<nat, Write>, poll: int)
    requires forall q :: q in orders ==> MergeOne(q.(items := []), after, writes, poll) == [KeptOrder(q)]
    ensures MergeAll(Emptied(orders), after, writes, poll) == KeepAll(orders)
  {
    var parts := MergeParts(Emptied(orders), after, writes, poll);
    forall i | 0 <= i < |orders| ensures parts[i] == [KeepAll(orders)[i]] { assert orders[i] in orders; }
    FlattenSingles(parts, KeepAll(orders));
  }

  lemma OrdersSum(a: seq<MergedOrder>, b: seq<MergedOrder>)
    ensures OrdersOf(a + b) == OrdersOf(a) + OrdersOf(b)
  {
  }

  /** What lingers after a merge is what lingered before it and is still shown. */
  lemma LingeringAfter(previous: seq<Order>, polled: seq<Order>, writes: map<nat, Write>, poll: int)
    requires Screen(previous) && Screen(polled)
    ensures var l := Lingering(previous, polled, writes, poll);
            Lingering(ShownAfter(previous, polled, writes, poll), polled, writes, poll)
            == Emptied(OrdersOf(MergeAll(l, previous, writes, poll)))
  {
    var l := Lingering(previous, polled, writes, poll);
    var a, b := OrdersOf(MergeAll(polled, previous, writes, poll)), OrdersOf(MergeAll(l, previous, writes, poll));
    MergeSum(polled, l, previous, writes, poll);
    OrdersSum(MergeAll(polled, previous, writes, poll), MergeAll(l, previous, writes, poll));
    LingeringSum(a, b, polled, writes, poll);
    forall v | v in a ensures FindOrder(polled, v.id).Some? { MergeMembers(polled, previous, writes, poll, v); }
    LingeringNone(a, polled, writes, poll);
    forall i | 0 <= i < |b| ensures Lingers(b[i], polled, writes, poll) {
      LingersAgain(b[i], previous, polled, writes, poll);
    }
    LingeringAll(b, polled, writes, poll);
  }

  /**
   * Merging the same poll again changes nothing and makes nothing: every order handed back is the very object
   * that is shown, in the same order.
   */
  lemma MergeIsFixpoint(previous: seq<Order>, polled: seq<Order>, writes: map<nat, Write>, poll: int)
    requires Screen(previous) && Screen(polled)
    ensures var after := ShownAfter(previous, polled, writes, poll);
            Merge(after, polled, writes, poll) == KeepAll(after)
  {
    var l, incoming := Lingering(previous, polled, writes, poll), Incoming(previous, polled, writes, poll);
    var after := ShownAfter(previous, polled, writes, poll);
    var b := OrdersOf(MergeAll(l, previous, writes, poll));
    IncomingScreen(previous, polled, writes, poll);
    ScreenAfter(previous, polled, writes, poll);
    LingeringAfter(previous, polled, writes, poll);
    MergeAgain(polled, incoming, previous, after, writes, poll);
    forall q | q in b ensures MergeOne(q.(items := []), after, writes, poll) == [KeptOrder(q)] {
      LingersAgain(q, previous, polled, writes, poll);
      MergedAgain(q.(items := []), incoming, previous, after, writes, poll);
    }
    KeptAgain(b, after, writes, poll);
    MergeSum(polled, Emptied(b), after, writes, poll);
    MergeSum(polled, l, previous, writes, poll);
    KeepMore(MergeAll(polled, previous, writes, poll), MergeAll(l, previous, writes, poll));
  }

  // ---------------------------------------------------------------- the merge as it is written

  /** The poll's orders, then those of before that must linger. */
  method CollectIncoming(previous: seq<Order>, polled: seq<Order>, writes: map<nat, Write>, poll: int)
      returns (incoming: seq<Order>)
    ensures incoming == Incoming(previous, polled, writes, poll)
  {
    incoming := polled;
    for i := 0 to |previous|
      invariant incoming == polled + Lingering(previous[..i], polled, writes, poll)
    {
      assert previous[..i + 1][..i] == previous[..i];
      if Lingers(previous[i], polled, writes, poll) {
        incoming := incoming + [previous[i].(items := [])];
      }
    }
    assert previous[..|previous|] == previous;
  }

  method MergeStationOrders(previous: seq<Order>, polled: seq<Order>, writes: map<nat, Write>, poll: int)
      returns (merged: seq<MergedOrder>)
    ensures merged == Merge(previous, polled, writes, poll)
  {
    var incoming := CollectIncoming(previous, polled, writes, poll);
    merged := [];
    ghost var parts := MergeParts(incoming, previous, writes, poll);
    for i := 0 to |incoming|
      invariant merged == Flatten(parts[..i])
    {
      assert parts[..i + 1][..i] == parts[..i];
      var one := MergeOneOrNone(incoming[i], previous, writes, poll);
      merged := merged + one;
    }
    assert parts[..|incoming|] == parts;
  }

  method MergeOneOrNone(o: Order, previous: seq<Order>, writes: map<nat, Write>, poll: int)
      returns (one: seq<MergedOrder>)
    ensures one == MergeOne(o, previous, writes, poll)
  {
    var m := MergeOneOrder(o, FindOrder(previous, o.id), writes, poll);
    one := if HasPendingWork(m.order) then [m] else [];
  }

  method MergeOneOrder(o: Order, prior: Option<Order>, writes: map<nat, Write>, poll: int) returns (m: MergedOrder)
    ensures m == MergeOrder(o, prior, writes, poll)
  {
    var was := OldItems(prior);
    var sources := o.items;
    for i := 0 to |was|
      invariant sources == o.items + Missing(was[..i], o.items, writes, poll)
    {
      assert was[..i + 1][..i] == was[..i];
      if FindItem(o.items, was[i].id).None? && Protected(writes, poll, was[i].id) {
        sources := sources + [was[i]];
      }
    }
    assert was[..|was|] == was;
    var items := MergeItems(sources, was, writes, poll);
    if prior.Some? && SameObjects(items, was) && prior.value.labels == o.labels {
      m := KeptOrder(prior.value);
    } else {
      m := MadeOrder(o.(items := ItemsOf(items)));
    }
  }
}
