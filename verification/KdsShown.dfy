/**
 * What a merge puts on the station screen, told from the poll, the screen before and the local writes alone:
 * which orders stay, with which items, and how each item reads.
 */
module KdsShown {
  import opened Common
  import opened Kds

  /** A local write holds the item: it is still under way, or newer than the poll. */
  predicate Held(writes: map<nat, Write>, poll: int, id: nat)
  {
    id in writes && (writes[id].pending.Some? || poll < writes[id].seqNo)
  }

  /** There is still something to do about an item in this status. */
  predicate ToDo(s: Status) { s == Submitted || s == Accepted || s == Preparing }

  ghost predicate Listed(orders: seq<Order>, k: nat, x: Item) { exists o :: o in orders && o.id == k && x in o.items }

  /** d is item x with the status and mark of the write that holds it, or else as x is, unmarked. */
  predicate ReadsAs(x: Item, writes: map<nat, Write>, poll: int, d: Item)
  {
    d.id == x.id && d.fields == x.fields
    && if Held(writes, poll, x.id) then d.status == writes[x.id].status && d.pending == writes[x.id].pending
       else d.status == x.status && d.pending == None
  }

  /** The item comes from the poll, or from the screen before if a write holds it and the poll misses it there. */
  ghost predicate Belongs(previous: seq<Order>, polled: seq<Order>, writes: map<nat, Write>, poll: int, k: nat, x: Item)
  {
    Listed(polled, k, x)
    || (Listed(previous, k, x) && Held(writes, poll, x.id) && forall y :: Listed(polled, k, y) ==> y.id != x.id)
  }

  ghost predicate OnOrder(previous: seq<Order>, polled: seq<Order>, writes: map<nat, Write>, poll: int, k: nat, d: Item)
  {
    exists x :: Belongs(previous, polled, writes, poll, k, x) && ReadsAs(x, writes, poll, d)
  }

  lemma DressedReads(x: Item, writes: map<nat, Write>, poll: int, d: Item)
    ensures d == Dressed(x, writes, poll) <==> ReadsAs(x, writes, poll, d)
  {
  }

  /** In a list with unique ids, an order's items are those listed under its id. */
  lemma ListedUnder(orders: seq<Order>, o: Order, x: Item)
    requires DistinctOrders(orders) && o in orders
    ensures Listed(orders, o.id, x) <==> x in o.items
  {
    if p :| p in orders && p.id == o.id && x in p.items {
      SameOrder(orders, o, p);
    }
  }

  lemma ListedBefore(previous: seq<Order>, k: nat, x: Item)
    requires DistinctOrders(previous)
    ensures x in OldItems(FindOrder(previous, k)) <==> Listed(previous, k, x)
  {
    if FindOrder(previous, k).Some? {
      ListedUnder(previous, FindOrder(previous, k).value, x);
    }
  }

  /** What an incoming order lists: the poll's items, or none if it only lingers. */
  lemma ListedIncoming(previous: seq<Order>, polled: seq<Order>, writes: map<nat, Write>, poll: int, o: Order, x: Item)
    requires DistinctOrders(polled) && o in Incoming(previous, polled, writes, poll)
    ensures x in o.items <==> Listed(polled, o.id, x)
  {
    if o in polled {
      ListedUnder(polled, o, x);
    } else {
      LingeringMembers(previous, polled, writes, poll, o);
    }
  }

  lemma SourceBelongs(previous: seq<Order>, polled: seq<Order>, writes: map<nat, Write>, poll: int, o: Order, x: Item)
    requires Screen(previous) && Screen(polled) && o in Incoming(previous, polled, writes, poll)
    ensures x in Sources(o, OldItems(FindOrder(previous, o.id)), writes, poll)
            <==> Belongs(previous, polled, writes, poll, o.id, x)
  {
    var prior := OldItems(FindOrder(previous, o.id));
    MissingMembers(prior, o.items, writes, poll, x);
    ListedBefore(previous, o.id, x);
    forall y ensures y in o.items <==> Listed(polled, o.id, y) { ListedIncoming(previous, polled, writes, poll, o, y); }
    assert FindItem(o.items, x.id).None? <==> forall y :: y in o.items ==> y.id != x.id;
  }

  lemma ReadsOnOrder(previous: seq<Order>, polled: seq<Order>, writes: map<nat, Write>, poll: int, o: Order, d: Item)
    requires Screen(previous) && Screen(polled) && o in Incoming(previous, polled, writes, poll)
    ensures d in ReadsNext(o, previous, writes, poll).items <==> OnOrder(previous, polled, writes, poll, o.id, d)
  {
    var xs := Sources(o, OldItems(FindOrder(previous, o.id)), writes, poll);
    DressMembers(xs, writes, poll, d);
    forall x ensures x in xs <==> Belongs(previous, polled, writes, poll, o.id, x) {
      SourceBelongs(previous, polled, writes, poll, o, x);
    }
    forall x ensures d == Dressed(x, writes, poll) <==> ReadsAs(x, writes, poll, d) {
      DressedReads(x, writes, poll, d);
    }
  }

  /** An order some item belongs to is merged. */
  lemma BelongsIncoming(previous: seq<Order>, polled: seq<Order>, writes: map<nat, Write>, poll: int, k: nat, x: Item)
    returns (o: Order)
    requires Belongs(previous, polled, writes, poll, k, x)
    ensures o in Incoming(previous, polled, writes, poll) && o.id == k
  {
    if Listed(polled, k, x) {
      o :| o in polled && o.id == k && x in o.items;
    } else {
      var p :| p in previous && p.id == k && x in p.items;
      o := StillIncoming(previous, polled, writes, poll, p, x);
    }
  }

  /** An item of the order that is marked, or still to be done. */
  predicate Keeps(d: Item) { d.pending.Some? || ToDo(d.status) }

  lemma KeepsWork(v: Order)
    ensures HasPendingWork(v) <==> exists d :: d in v.items && Keeps(d)
  {
    if d :| d in v.items && Keeps(d) {
      var i :| 0 <= i < |v.items| && v.items[i] == d;
      assert Active(v.items[i]);
    }
    if HasPendingWork(v) {
      var i :| 0 <= i < |v.items| && Active(v.items[i]);
      assert Keeps(v.items[i]);
    }
  }

  /** What is read of an order that stays on the screen. */
  lemma ShownItems(previous: seq<Order>, polled: seq<Order>, writes: map<nat, Write>, poll: int, v: Order)
    requires Screen(previous) && Screen(polled) && v in ShownAfter(previous, polled, writes, poll)
    ensures forall d :: d in v.items <==> OnOrder(previous, polled, writes, poll, v.id, d)
    ensures exists d :: d in v.items && Keeps(d)
    ensures forall o :: o in polled && o.id == v.id ==> v.labels == o.labels
    ensures FindOrder(polled, v.id).None? ==> exists p :: p in previous && p.id == v.id && v.labels == p.labels
  {
    var incoming := Incoming(previous, polled, writes, poll);
    IncomingScreen(previous, polled, writes, poll);
    MergeMembers(incoming, previous, writes, poll, v);
    var o :| o in incoming && v == ReadsNext(o, previous, writes, poll) && HasPendingWork(v);
    forall d ensures d in v.items <==> OnOrder(previous, polled, writes, poll, v.id, d) {
      ReadsOnOrder(previous, polled, writes, poll, o, d);
    }
    KeepsWork(v);
    forall p | p in polled && p.id == v.id ensures v.labels == p.labels { SameOrder(incoming, o, p); }
    if FindOrder(polled, v.id).None? {
      LingeringMembers(previous, polled, writes, poll, o);
    }
  }

  lemma StaysShown(previous: seq<Order>, polled: seq<Order>, writes: map<nat, Write>, poll: int, k: nat, d: Item)
    requires Screen(previous) && Screen(polled) && OnOrder(previous, polled, writes, poll, k, d) && Keeps(d)
    ensures exists v :: v in ShownAfter(previous, polled, writes, poll) && v.id == k
  {
    var incoming := Incoming(previous, polled, writes, poll);
    IncomingScreen(previous, polled, writes, poll);
    var x :| Belongs(previous, polled, writes, poll, k, x) && ReadsAs(x, writes, poll, d);
    var o := BelongsIncoming(previous, polled, writes, poll, k, x);
    var v := ReadsNext(o, previous, writes, poll);
    ReadsOnOrder(previous, polled, writes, poll, o, d);
    KeepsWork(v);
    MergeMembers(incoming, previous, writes, poll, v);
  }

  /**
   * The screen, exactly. An order is on it if and only if one of its items is marked or still submitted, accepted or
   * being prepared; its items are the poll's under that order, and those a write holds that the poll misses there;
   * each reads as the write that holds it says, and otherwise as the poll has it.
   */
  lemma ScreenExactly(previous: seq<Order>, polled: seq<Order>, writes: map<nat, Write>, poll: int, k: nat)
    requires Screen(previous) && Screen(polled)
    ensures (exists v :: v in ShownAfter(previous, polled, writes, poll) && v.id == k)
            <==> exists d :: OnOrder(previous, polled, writes, poll, k, d) && Keeps(d)
    ensures forall v, d :: v in ShownAfter(previous, polled, writes, poll) && v.id == k ==>
              (d in v.items <==> OnOrder(previous, polled, writes, poll, k, d))
  {
    forall v | v in ShownAfter(previous, polled, writes, poll) && v.id == k
      ensures forall d :: d in v.items <==> OnOrder(previous, polled, writes, poll, k, d)
      ensures exists d :: d in v.items && Keeps(d)
    {
      ShownItems(previous, polled, writes, poll, v);
    }
    if d :| OnOrder(previous, polled, writes, poll, k, d) && Keeps(d) {
      StaysShown(previous, polled, writes, poll, k, d);
    }
  }

  /** Whatever the poll lists as submitted, accepted or being prepared, and no write holds, is shown under its order. */
  lemma NewWorkIsShown(previous: seq<Order>, polled: seq<Order>, writes: map<nat, Write>, poll: int, o: Order, x: Item)
    requires Screen(previous) && Screen(polled) && o in polled && x in o.items
    requires !Held(writes, poll, x.id) && (x.status == Submitted || x.status == Accepted || x.status == Preparing)
    ensures exists v :: v in ShownAfter(previous, polled, writes, poll) && v.id == o.id
                      && x.(pending := None) in v.items
  {
    var d := x.(pending := None);
    assert Belongs(previous, polled, writes, poll, o.id, x) && ReadsAs(x, writes, poll, d);
    assert OnOrder(previous, polled, writes, poll, o.id, d) && Keeps(d);
    ScreenExactly(previous, polled, writes, poll, o.id);
    var v :| v in ShownAfter(previous, polled, writes, poll) && v.id == o.id;
    assert d in v.items;
  }
}
