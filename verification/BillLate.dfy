/**
 * Writes that land too late. Each lemma gives, for every order that a payment can close, a run of the desk in
 * which a write is checked in time, the order is paid and completed, and the write then lands on it by id.
 */
module BillLate {
  import opened Common
  import opened Sums
  import opened Bill
  import opened BillStore
  import opened BillLaws
  import opened BillWrites
  import opened BillSettlement
  import opened BillClosing
  import opened BillDesk
  import opened BillRuns

  /** The order after the payment of everything unpaid. */
  function Closed(o: Order, key: nat): Order { PaySplit(o, Everything(o, key), true, true).0 }

  /** An order in service that a payment under this key can close. */
  ghost predicate Closable(o: Order, key: nat)
  {
    Good(o) && o.status.InService? && PaymentFor(o.payments, key).None? && CanClose(o)
  }

  lemma SameIndex(a: seq<Item>, b: seq<Item>, id: nat)
    requires |a| == |b| && forall i :: 0 <= i < |a| ==> a[i].id == b[i].id
    ensures IndexOf(a, id) == IndexOf(b, id)
  {
    var i, j := IndexOf(a, id), IndexOf(b, id);
    if i < |a| {
      FirstIndex(b, id, i);
    }
    if j < |b| {
      FirstIndex(a, id, j);
    }
  }

  lemma {:induction false} FirstIndex(items: seq<Item>, id: nat, i: nat)
    requires i < |items| && items[i].id == id
    ensures IndexOf(items, id) <= i
  {
    if i > 0 && items[0].id != id {
      FirstIndex(items[1..], id, i - 1);
    }
  }

  /** Paying everything completes the order, keeps the books, and only raises what is paid. */
  lemma ClosedIs(o: Order, key: nat)
    requires Closable(o, key)
    ensures var c := Closed(o, key);
            Good(c) && c.status.Completed? && Settled(c.items) && c.discount == o.discount
            && SharesTaken(c.payments) == o.discount
            && c.payments != [] && |c.items| == |o.items|
            && forall i :: 0 <= i < |o.items| ==> c.items[i] == o.items[i].(paid := c.items[i].paid)
  {
    var r := Everything(o, key);
    EverythingCloses(o, key);
    var call := BillSettlement.Call(r, true, true);
    CallCommits(o, call);
    BillSettlement.CallKeeps(o, call);
  }

  /** Whatever is ready to be written: call, pay everything alone, and then the write. */
  lemma LateLanding(d: Desk, key: nat, w: Write) returns (steps: seq<Step>)
    requires Closable(d.order, key) && d.holder == None && w in d.ready && Land(Closed(d.order, key), w).Some?
    ensures RunDesk(d, steps).Some? && RunDesk(d, steps).value.order == Land(Closed(d.order, key), w).value
  {
    var r, i := Everything(d.order, key), |d.callers|;
    var called := d.(callers := d.callers + [Arrived(Split(r))]);
    RunOne(d, BillDesk.Call(Split(r)));
    var pay := AloneAsSequential(called, i, r, true, true);
    RunThen(d, [BillDesk.Call(Split(r))], pay);
    var paid := RunDesk(called, pay).value;
    assert Free(paid, w);
    RunOne(paid, Other(w));
    RunThen(d, [BillDesk.Call(Split(r))] + pay, [Other(w)]);
    steps := [BillDesk.Call(Split(r))] + pay + [Other(w)];
  }

  /** The status is seen, then what the write needs is checked. */
  lemma Checking(o: Order, w: Write) returns (steps: seq<Step>, d: Desk)
    requires (o.status.InService? || o.status.Unsent?) && StatusChecked(o.status, w) && RowsChecked(o.items, w)
    ensures RunDesk(OpenDesk(o), steps) == Some(d) && d.order == o && d.holder == None && w in d.ready
    ensures d.sawUnsent == o.status.Unsent? && d.sawService == o.status.InService?
  {
    var sighted := SightStep(OpenDesk(o));
    RunOne(OpenDesk(o), Sight);
    d := LookStep(sighted, w).value;
    RunOne(sighted, Look(w));
    RunThen(OpenDesk(o), [Sight], [Look(w)]);
    steps := [Sight] + [Look(w)];
  }

  /** A write checked in time, landing on the order once it has been paid and completed. */
  lemma CheckedThenLate(o: Order, key: nat, w: Write) returns (steps: seq<Step>)
    requires Closable(o, key) && StatusChecked(o.status, w) && RowsChecked(o.items, w) && Land(Closed(o, key), w).Some?
    ensures RunDesk(OpenDesk(o), steps).Some?
    ensures RunDesk(OpenDesk(o), steps).value.order == Land(Closed(o, key), w).value
  {
    var check, d := Checking(o, w);
    var late := LateLanding(d, key, w);
    RunThen(OpenDesk(o), check, late);
    steps := check + late;
  }

  /** A discount approved in time is written on a completed order, which no longer has the shares for it. */
  lemma LateDiscountRun(o: Order, key: nat, amount: nat) returns (steps: seq<Step>)
    requires Closable(o, key) && amount != o.discount
    ensures RunDesk(OpenDesk(o), steps).Some?
    ensures var n := RunDesk(OpenDesk(o), steps).value.order;
            n.status.Completed? && n.discount == amount && SharesTaken(n.payments) == o.discount && !Good(n)
  {
    ClosedIs(o, key);
    steps := CheckedThenLate(o, key, Discount(amount));
  }

  /** A line added in time is written on a completed order, where it can be neither sent nor paid. */
  lemma LateAddRun(o: Order, key: nat, row: Item) returns (steps: seq<Step>)
    requires Closable(o, key) && row.status.Draft? && row.paid == 0 && 0 < row.quantity
             && IndexOf(o.items, row.id) == |o.items|
    ensures RunDesk(OpenDesk(o), steps).Some?
    ensures var n := RunDesk(OpenDesk(o), steps).value.order; n.status.Completed? && HasDraft(n.items) && !Good(n)
  {
    ClosedIs(o, key);
    var c := Closed(o, key);
    SameIndex(o.items, c.items, row.id);
    steps := CheckedThenLate(o, key, Add(row));
    var n := AddDraft(c, row).value;
    assert n.items[|c.items|].status.Draft? && !Done(n.items[|c.items|]);
  }

  // ---------------------------------------------------------------- drafts that have been sent since

  /** An unsent order whose first submission sends these drafts, after which a payment can close it. */
  ghost predicate SentClosable(o: Order, sends: map<nat, Sending>, key: nat)
  {
    o.status.Unsent? && AllDraft(o.items, sends.Keys) && SubmitRows(o, sends, true).Some?
    && Closable(SubmitRows(o, sends, true).value, key)
  }

  /** The order once its drafts have been sent and everything has been paid. */
  function SentAndClosed(o: Order, sends: map<nat, Sending>, key: nat): Order
    requires SubmitRows(o, sends, true).Some?
  {
    Closed(SubmitRows(o, sends, true).value, key)
  }

  lemma FirstSubmission(d: Desk, sends: map<nat, Sending>) returns (e: Desk)
    requires d.order.status.Unsent? && d.sawUnsent && d.holder == None
    requires AllDraft(d.order.items, sends.Keys) && SubmitRows(d.order, sends, true).Some?
    ensures var first := Submit(sends, true);
            RunDesk(d, [Look(first)] + [Other(first)]) == Some(e) && e.order == SubmitRows(d.order, sends, true).value
            && e.holder == None && d.ready <= e.ready
  {
    var first := Submit(sends, true);
    RunOne(d, Look(first));
    var looked := LookStep(d, first).value;
    RunOne(looked, Other(first));
    RunThen(d, [Look(first)], [Other(first)]);
    e := OtherStep(looked, first).value;
  }

  /** Both writes are checked on the unsent order; the first then sends it, and the second waits. */
  lemma SentInBetween(o: Order, sends: map<nat, Sending>, w: Write) returns (steps: seq<Step>, d: Desk)
    requires o.status.Unsent? && AllDraft(o.items, sends.Keys) && SubmitRows(o, sends, true).Some?
    requires StatusChecked(Unsent, w) && RowsChecked(o.items, w)
    ensures RunDesk(OpenDesk(o), steps) == Some(d) && d.order == SubmitRows(o, sends, true).value
    ensures d.holder == None && w in d.ready
  {
    var check, looked := Checking(o, w);
    d := FirstSubmission(looked, sends);
    var sent := [Look(Submit(sends, true))] + [Other(Submit(sends, true))];
    RunThen(OpenDesk(o), check, sent);
    steps := check + sent;
  }

  lemma SentThenLate(o: Order, sends: map<nat, Sending>, key: nat, w: Write) returns (steps: seq<Step>)
    requires SentClosable(o, sends, key) && StatusChecked(Unsent, w) && RowsChecked(o.items, w)
    requires Land(SentAndClosed(o, sends, key), w).Some?
    ensures RunDesk(OpenDesk(o), steps).Some?
    ensures RunDesk(OpenDesk(o), steps).value.order == Land(SentAndClosed(o, sends, key), w).value
  {
    var sent, d := SentInBetween(o, sends, w);
    var late := LateLanding(d, key, w);
    RunThen(OpenDesk(o), sent, late);
    steps := sent + late;
  }

  /** What becomes of a draft row that is sent and then settled. */
  lemma SentRowSettled(was: seq<Item>, sends: map<nat, Sending>, now: seq<Item>, id: nat)
    requires |now| == |was| && Settled(now) && AllDraft(was, {id}) && id in sends
    requires forall i :: 0 <= i < |was| ==> now[i] == SendRow(was[i], sends).(paid := now[i].paid)
    ensures var i := IndexOf(was, id);
            i < |was| && IndexOf(now, id) == i && Billable(now[i]) && now[i].paid == now[i].quantity == was[i].quantity
            && now[i].price == SendRow(was[i], sends).price
  {
    assert id in {id};
    SameIndex(was, now, id);
    assert Done(now[IndexOf(was, id)]);
  }

  lemma SentAndClosedIs(o: Order, sends: map<nat, Sending>, key: nat)
    requires SentClosable(o, sends, key)
    ensures var c := SentAndClosed(o, sends, key);
            Good(c) && c.status.Completed? && c.payments != [] && |c.items| == |o.items| && Settled(c.items)
            && forall i :: 0 <= i < |o.items| ==> c.items[i] == SendRow(o.items[i], sends).(paid := c.items[i].paid)
  {
    ClosedIs(SubmitRows(o, sends, true).value, key);
  }

  /** A quantity checked on a draft row is written below what has since been paid of it. */
  lemma LateQuantityRun(o: Order, sends: map<nat, Sending>, key: nat, id: nat, q: nat) returns (steps: seq<Step>)
    requires SentClosable(o, sends, key)
    requires id in sends && AllDraft(o.items, {id}) && IndexOf(o.items, id) < |o.items|
    requires 0 < q < o.items[IndexOf(o.items, id)].quantity
    ensures RunDesk(OpenDesk(o), steps).Some?
    ensures var n, i := RunDesk(OpenDesk(o), steps).value.order, IndexOf(o.items, id);
            n.status.Completed? && i < |n.items| && n.items[i].quantity == q < n.items[i].paid && !Good(n)
  {
    SentAndClosedIs(o, sends, key);
    OverwrittenLate(o.items, sends, SentAndClosed(o, sends, key), id, q);
    steps := SentThenLate(o, sends, key, Requantify(id, q));
  }

  lemma OverwrittenLate(was: seq<Item>, sends: map<nat, Sending>, c: Order, id: nat, q: nat)
    requires |c.items| == |was| && Settled(c.items) && id in sends && AllDraft(was, {id}) && IndexOf(was, id) < |was|
    requires forall i :: 0 <= i < |was| ==> c.items[i] == SendRow(was[i], sends).(paid := c.items[i].paid)
    requires 0 < q < was[IndexOf(was, id)].quantity
    ensures SetQuantity(c, id, q).Some?
    ensures var n, i := SetQuantity(c, id, q).value, IndexOf(was, id);
            n.status == c.status && i < |n.items| && n.items[i].quantity == q < n.items[i].paid && !Good(n)
  {
    var i := IndexOf(was, id);
    SentRowSettled(was, sends, c.items, id);
    OverpaidBreaks(SetQuantity(c, id, q).value, i);
  }

  lemma OverpaidBreaks(o: Order, i: nat)
    requires i < |o.items| && o.items[i].quantity < o.items[i].paid
    ensures !Good(o)
  {
    assert !RowOk(o.items[i]);
  }

  /** On a settled order a submission of its rows still lands exactly if no station has seen them. */
  lemma LateSubmitLands(was: seq<Item>, c: Order, again: map<nat, Sending>, first: bool)
    requires AllDraft(was, again.Keys) && again != map[] && Settled(c.items) && |c.items| == |was|
    requires forall i :: 0 <= i < |was| ==> c.items[i].id == was[i].id
    ensures SubmitRows(c, again, first).Some? <==> forall id :: id in again ==> !again[id].station
  {
    if id :| id in again && again[id].station {
      var i := IndexOf(was, id);
      assert id in again.Keys;
      assert c.items[i].id == id && Done(c.items[i]);
    }
  }

  /**
   * A second first submission, checked before the first landed, takes a paid and completed order back, where none
   * of its rows goes to a station; and where the menu has changed in between it also reprices rows that are paid.
   */
  lemma LateSubmitRun(o: Order, sends: map<nat, Sending>, key: nat, again: map<nat, Sending>) returns (steps: seq<Step>)
    requires SentClosable(o, sends, key) && AllDraft(o.items, again.Keys)
    requires again != map[] && forall id :: id in again ==> !again[id].station
    ensures RunDesk(OpenDesk(o), steps).Some?
    ensures var c, n := SentAndClosed(o, sends, key), RunDesk(OpenDesk(o), steps).value.order;
            c.status.Completed? && n.status.InService? && n.payments == c.payments != []
    ensures SomeRepriced(o.items, sends, again) ==> !Good(RunDesk(OpenDesk(o), steps).value.order)
  {
    SentAndClosedIs(o, sends, key);
    SubmittedAgain(o.items, sends, SentAndClosed(o, sends, key), again);
    steps := SentThenLate(o, sends, key, Submit(again, true));
  }

  /** The second submission has another price for a row than the first. */
  ghost predicate SomeRepriced(was: seq<Item>, sends: map<nat, Sending>, again: map<nat, Sending>)
  {
    exists id :: id in again && id in sends && again[id].tariff.Some?
                 && again[id].tariff.value.price != SentPrice(was, sends, id)
  }

  /** The price a row has once it has been sent. */
  function SentPrice(items: seq<Item>, sends: map<nat, Sending>, id: nat): nat
  {
    if IndexOf(items, id) < |items| then SendRow(items[IndexOf(items, id)], sends).price else 0
  }

  lemma SubmittedAgain(was: seq<Item>, sends: map<nat, Sending>, c: Order, again: map<nat, Sending>)
    requires Good(c) && |c.items| == |was| && Settled(c.items) && AllDraft(was, again.Keys)
    requires forall i :: 0 <= i < |was| ==> c.items[i] == SendRow(was[i], sends).(paid := c.items[i].paid)
    requires again != map[] && forall id :: id in again ==> !again[id].station
    ensures SubmitRows(c, again, true).Some?
    ensures var n := SubmitRows(c, again, true).value;
            n.status.InService? && n.payments == c.payments && (SomeRepriced(was, sends, again) ==> !Good(n))
  {
    LateSubmitLands(was, c, again, true);
    if SomeRepriced(was, sends, again) {
      var i := RepricedRow(was, sends, c.items, again);
      RepricedLate(c, again, i);
    }
  }

  lemma RepricedRow(was: seq<Item>, sends: map<nat, Sending>, now: seq<Item>, again: map<nat, Sending>) returns (i: nat)
    requires |now| == |was| && Settled(now) && AllDraft(was, again.Keys) && SomeRepriced(was, sends, again)
    requires forall i :: 0 <= i < |was| ==> now[i] == SendRow(was[i], sends).(paid := now[i].paid)
    ensures i < |now| && Billable(now[i]) && now[i].paid == now[i].quantity
    ensures now[i].id in again && again[now[i].id].tariff.Some? && again[now[i].id].tariff.value.price != now[i].price
  {
    var id :| id in again && id in sends && again[id].tariff.Some?
              && again[id].tariff.value.price != SentPrice(was, sends, id);
    i := IndexOf(was, id);
    assert AllDraft(was, {id});
    SentRowSettled(was, sends, now, id);
  }

  lemma RepricedLate(c: Order, again: map<nat, Sending>, i: nat)
    requires Good(c) && SubmitRows(c, again, true).Some? && i < |c.items|
    requires Billable(c.items[i]) && c.items[i].paid == c.items[i].quantity
    requires var id := c.items[i].id;
             id in again && again[id].tariff.Some? && again[id].tariff.value.price != c.items[i].price
    ensures !Good(SubmitRows(c, again, true).value)
  {
    assert RowOk(c.items[i]);
    RepricedBreaks(c, i, SendRows(c.items, again));
  }
}
