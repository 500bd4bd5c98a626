/**
 * The order row with its items and payments, updated in place by the billing services.
 * Every method runs as one transaction: it either leaves the state it promises or changes nothing.
 */
module BillStore {
  import opened Common
  import opened Sums
  import opened Money
  import opened Bill

  /** The first k requested lines as a map, once all ids are known to differ. */
  function Requested(lines: seq<ReqLine>, k: nat): map<nat, nat>
    requires k <= |lines|
  {
    if k == 0 then map[] else Requested(lines, k - 1)[lines[k - 1].itemId := lines[k - 1].quantity]
  }

  ghost predicate DistinctLines(lines: seq<ReqLine>)
  {
    forall i, j :: 0 <= i < j < |lines| ==> lines[i].itemId != lines[j].itemId
  }

  lemma {:induction false} RequestedIds(lines: seq<ReqLine>, k: nat)
    requires k <= |lines|
    ensures forall id :: id in Requested(lines, k) <==> exists j :: 0 <= j < k && lines[j].itemId == id
  {
    if k > 0 {
      RequestedIds(lines, k - 1);
    }
  }

  /** Collecting succeeds exactly on distinct ids, and then yields every line's quantity. */
  lemma {:induction false} CollectFrom(lines: seq<ReqLine>, k: nat)
    requires k <= |lines|
    requires forall i, j :: 0 <= i < j < k ==> lines[i].itemId != lines[j].itemId
    ensures CollectLines(lines[k..], Requested(lines, k)).Ok? <==> DistinctLines(lines)
    ensures DistinctLines(lines) ==> CollectLines(lines[k..], Requested(lines, k)) == Ok(Requested(lines, |lines|))
    decreases |lines| - k
  {
    RequestedIds(lines, k);
    if k < |lines| {
      assert lines[k..][1..] == lines[k + 1..];
      if lines[k].itemId in Requested(lines, k) {
        var j :| 0 <= j < k && lines[j].itemId == lines[k].itemId;
      } else {
        CollectFrom(lines, k + 1);
      }
    }
  }

  lemma {:induction false} WantIs(lines: seq<ReqLine>, k: nat, i: nat)
    requires i < k <= |lines| && DistinctLines(lines)
    ensures Want(Requested(lines, k), lines[i].itemId) == lines[i].quantity
  {
    if i < k - 1 {
      WantIs(lines, k - 1, i);
    }
  }

  lemma FindAt(items: seq<Item>, i: nat)
    requires DistinctIds(items) && i < |items|
    ensures Find(items, items[i].id) == Some(items[i]) && IndexOf(items, items[i].id) == i
  {
    var f := Find(items, items[i].id);
    assert f.Some?;
    var j :| 0 <= j < |items| && items[j] == f.value;
    assert items[j].id == items[i].id;
  }

  function Credit(items: seq<Item>, i: nat, q: nat): seq<Item>
    requires i < |items|
  {
    items[i := items[i].(paid := items[i].paid + q)]
  }

  /** Adding one more requested line moves exactly that row. */
  lemma {:induction false} PayOneMore(items: seq<Item>, lines: seq<ReqLine>, k: nat, i: nat)
    requires DistinctIds(items) && DistinctLines(lines) && k < |lines|
    requires i < |items| && items[i].id == lines[k].itemId
    ensures PaidUp(items, Requested(lines, k))[i] == items[i]
    ensures PaidUp(items, Requested(lines, k + 1)) == Credit(PaidUp(items, Requested(lines, k)), i, lines[k].quantity)
  {
    RequestedIds(lines, k);
    RequestedIds(lines, k + 1);
    var before, after := PaidUp(items, Requested(lines, k)), PaidUp(items, Requested(lines, k + 1));
    forall j | 0 <= j < |items|
      ensures after[j] == Credit(before, i, lines[k].quantity)[j]
    {
      assert j != i ==> items[j].id != items[i].id;
    }
  }

  /** computeOrderTotals as the loop it is. */
  method ComputeOrderTotals(lines: seq<PricedLine>, discount: nat) returns (t: Totals)
    ensures t == TotalsOf(lines, discount)
  {
    var subtotal, tax := 0, 0;
    for i := 0 to |lines|
      invariant subtotal == Sum(lines[..i], LineValue)
      invariant tax == Sum(lines[..i], LineTax)
    {
      assert lines[..i + 1] == lines[..i] + [lines[i]];
      SumAppend(lines[..i], lines[i], LineValue);
      SumAppend(lines[..i], lines[i], LineTax);
      subtotal := subtotal + LineValue(lines[i]);
      tax := tax + LineTax(lines[i]);
    }
    assert lines[..|lines|] == lines;
    var rounded := HalfUp(tax, RATE_SCALE);
    t := Totals(subtotal, rounded, discount, subtotal + rounded - discount);
  }

  method CollectRequest(lines: seq<ReqLine>) returns (r: Result<map<nat, nat>, BillError>)
    ensures r == RequestMap(lines)
    ensures r.Ok? ==> DistinctLines(lines) && r.value == Requested(lines, |lines|)
  {
    var req: map<nat, nat> := map[];
    var i := 0;
    while i < |lines|
      invariant 0 <= i <= |lines|
      invariant forall a, b :: 0 <= a < b < i ==> lines[a].itemId != lines[b].itemId
      invariant req == Requested(lines, i)
      invariant CollectLines(lines, map[]) == CollectLines(lines[i..], req)
    {
      assert lines[i..][1..] == lines[i + 1..];
      RequestedIds(lines, i);
      if lines[i].itemId in req {
        return Err(DuplicateLine);
      }
      req := req[lines[i].itemId := lines[i].quantity];
      i := i + 1;
    }
    RequestedIds(lines, |lines|);
    assert lines != [] ==> lines[0].itemId in req;
    if |req| == 0 {
      return Err(NoLines);
    }
    return Ok(req);
  }

  class OrderStore {
    var items: seq<Item>
    var status: OrderStatus
    var tableFree: bool
    var discount: nat
    var payments: seq<Payment>
    var deducted: multiset<nat>

    ghost function Now(): Order
      reads this
    {
      Order(items, status, tableFree, discount, payments, deducted)
    }

    /** The locked validation: every line against its fresh row, in request order. */
    method CheckLines(lines: seq<ReqLine>) returns (error: Option<BillError>, payLines: seq<PayLine>)
      ensures error == LinesError(items, lines)
      ensures error.None? ==> payLines == PayLines(items, lines)
    {
      payLines := [];
      var i := 0;
      while i < |lines|
        invariant 0 <= i <= |lines| == i + |lines[i..]|
        invariant LinesError(items, lines) == LinesError(items, lines[i..])
        invariant |payLines| == i
        invariant forall j :: 0 <= j < i ==> LineError(items, lines[j]).None?
        invariant forall j :: 0 <= j < i ==>
          payLines[j] == PayLine(Find(items, lines[j].itemId).value, lines[j].quantity)
      {
        assert lines[i..][1..] == lines[i + 1..];
        error := LineError(items, lines[i]);
        if error.Some? {
          return;
        }
        payLines := payLines + [PayLine(Find(items, lines[i].itemId).value, lines[i].quantity)];
        i := i + 1;
      }
      error := None;
    }

    /** The pro-rata part of the discount; the aggregate queries run only when there is a discount. */
    method ComputeShare(subtotal: nat, final: bool) returns (share: nat)
      ensures share == ShareOf(Now(), subtotal, final)
    {
      share := 0;
      if discount != 0 {
        var taken := SharesTaken(payments);
        var rest := if taken < discount then discount - taken else 0;
        if final {
          share := rest;
        } else {
          var due := ComputeOrderTotals(PricedAll(UnpaidLines(items)), 0);
          if due.subtotal != 0 {
            share := HalfUp(rest * subtotal, due.subtotal);
          }
        }
      }
    }

    /** What this payment charges, decided from the rows as they are now. */
    method PlanSplit(r: PayRequest, req: map<nat, nat>) returns (plan: Result<Plan, BillError>)
      requires StatusError(status).None? && RequestMap(r.lines) == Ok(req)
      ensures plan == PlanPayment(Now(), r)
    {
      var error, payLines := CheckLines(r.lines);
      if error.Some? {
        return Err(error.value);
      }
      var plain := ComputeOrderTotals(PricedAll(payLines), 0);
      var final := Settles(items, req);
      var share := ComputeShare(plain.subtotal, final);
      var totals := ComputeOrderTotals(PricedAll(payLines), share);
      plan := Charge(payLines, req, totals, r.cash, final);
    }

    /** The guarded increments, one row after the other; nothing else moves. */
    method PayRows(lines: seq<ReqLine>, payLines: seq<PayLine>)
      requires DistinctIds(items) && DistinctLines(lines)
      requires LinesError(items, lines).None? && payLines == PayLines(items, lines)
      modifies this`items
      ensures items == PaidUp(old(items), Requested(lines, |lines|))
    {
      ghost var was := items;
      for k := 0 to |payLines|
        invariant items == PaidUp(was, Requested(lines, k))
      {
        var line := payLines[k];
        assert LineError(was, lines[k]).None?;
        var i := IndexOf(items, line.item.id);
        assert i < |was| by {
          var j :| 0 <= j < |was| && was[j] == line.item;
          assert items[j].id == line.item.id;
        }
        PayOneMore(was, lines, k, i);
        FindAt(was, i);
        FindAt(items, i);
        if !Unchanged(items, line.item) {
          assert false;
        }
        items := Credit(items, i, line.quantity);
      }
    }

    method PayUnderLock(r: PayRequest, req: map<nat, nat>, stockOk: bool) returns (out: Outcome)
      requires DistinctIds(items) && StatusError(status).None?
      requires RequestMap(r.lines) == Ok(req) && DistinctLines(r.lines) && req == Requested(r.lines, |r.lines|)
      modifies this
      ensures (Now(), out) == PayLocked(old(Now()), r, stockOk)
    {
      var planned := PlanSplit(r, req);
      if planned.Err? {
        return Refused(planned.error);
      }
      var plan, before := planned.value, items;
      PayRows(r.lines, plan.lines);
      if !stockOk {
        items := before;
        return Refused(StockRefused);
      }
      var p := Book(plan, r.key);
      out := Paid(p, plan.final);
    }

    /** The payment, its stock, and the closing of a settled order. */
    method Book(plan: Plan, key: nat) returns (p: Payment)
      modifies this`payments, this`deducted, this`status, this`tableFree
      ensures p == SplitPayment(plan, key) && payments == old(payments) + [p]
              && deducted == Deduct(old(deducted), plan.lines)
      ensures status == (if plan.final then Completed else old(status)) && tableFree == (plan.final || old(tableFree))
    {
      p := SplitPayment(plan, key);
      payments := payments + [p];
      deducted := Deduct(deducted, plan.lines);
      if plan.final {
        status := Completed;
        tableFree := true;
      }
    }

    method PaySplitBill(r: PayRequest, shiftOpen: bool, stockOk: bool) returns (out: Outcome)
      requires DistinctIds(items)
      modifies this
      ensures (Now(), out) == PaySplit(old(Now()), r, shiftOpen, stockOk)
    {
      var earlier := PaymentFor(payments, r.key);
      if earlier.Some? {
        return Paid(earlier.value, status.Completed?);
      }
      if StatusError(status).Some? {
        return Refused(StatusError(status).value);
      }
      var request := CollectRequest(r.lines);
      if request.Err? {
        return Refused(request.error);
      }
      if !shiftOpen {
        return Refused(NoShift);
      }
      out := PayUnderLock(r, request.value, stockOk);
    }

    /** Every billable row becomes fully paid. */
    method SettleRows()
      modifies this`items
      ensures items == SettleAll(old(items))
    {
      ghost var was := items;
      for i := 0 to |items|
        invariant |items| == |was|
        invariant forall j :: 0 <= j < i ==> items[j] == SettleAll(was)[j]
        invariant forall j :: i <= j < |was| ==> items[j] == was[j]
      {
        if Billable(items[i]) {
          items := items[i := items[i].(paid := items[i].quantity)];
        }
      }
    }

    /** The whole bill as one payment, or why it cannot be charged as one. */
    method PlanWhole(cash: Option<nat>) returns (p: Result<Payment, BillError>)
      ensures p == WholePayment(Now(), cash)
    {
      if HasDraft(items) {
        return Err(UnsentItems);
      }
      var lines := WholeLines(items);
      if lines == [] {
        return Err(NothingPayable);
      }
      if AnyPaid(lines) {
        return Err(PartlyPaid);
      }
      var totals := ComputeOrderTotals(PricedAll(lines), discount);
      var tendered, change := totals.total, 0;
      if cash.Some? {
        tendered := cash.value;
        if tendered < totals.total {
          return Err(CashTooSmall);
        }
        change := tendered - totals.total;
      }
      p := Ok(Payment(None, false, LedgerRows(lines), totals.subtotal, totals.tax, totals.discount,
                      totals.total, tendered, change));
    }

    method CompletePayment(cash: Option<nat>, shiftOpen: bool, stockOk: bool) returns (out: Outcome)
      modifies this
      ensures (Now(), out) == PayWhole(old(Now()), cash, shiftOpen, stockOk)
    {
      if StatusError(status).Some? {
        return Refused(StatusError(status).value);
      }
      if !shiftOpen {
        return Refused(NoShift);
      }
      var planned := PlanWhole(cash);
      if planned.Err? {
        return Refused(planned.error);
      }
      var before := items;
      SettleRows();
      if !stockOk {
        items := before;
        return Refused(StockRefused);
      }
      payments := payments + [planned.value];
      deducted := Deduct(deducted, WholeLines(before));
      status := Completed;
      tableFree := true;
      out := Paid(planned.value, true);
    }

    /** The check reads the status before the write, and the write looks at nothing. */
    method ApplyOrderDiscount(seen: OrderStatus, amount: int) returns (error: Option<BillError>)
      modifies this`discount
      ensures match ApplyDiscount(seen, old(Now()), amount)
              case Ok(o) => error == None && Now() == o
              case Err(e) => error == Some(e) && Now() == old(Now())
      ensures error == if seen == Completed || seen == Abandoned then Some(OrderClosed)
                       else if amount < 0 then Some(NegativeDiscount) else None
      ensures Now() == if error.None? && 0 <= amount then old(Now()).(discount := amount) else old(Now())
    {
      if seen.Completed? || seen.Abandoned? {
        return Some(OrderClosed);
      }
      if amount < 0 {
        return Some(NegativeDiscount);
      }
      discount := amount;
      error := None;
    }

    /** voidOrderItem: exactly what is unpaid of a sent row can go, and only if the row is still as it was read. */
    method VoidOrderItem(id: nat, q: nat) returns (error: Option<BillError>)
      requires 0 < q
      modifies this`items
      ensures error == VoidError(old(Now()), id, q)
      ensures error.None? <==> CanVoid(old(Now()), id, q)
      ensures error.Some? ==> Now() == old(Now())
      ensures error.None? ==>
        var it := old(items)[IndexOf(old(items), id)];
        VoidWrite(old(Now()), id, it.quantity, it.paid, it.status.stage, q) == Some(Now())
    {
      if status.Completed? || status.Abandoned? {
        return Some(OrderClosed);
      }
      if status.Unsent? {
        return Some(NotSent);
      }
      var i := IndexOf(items, id);
      if i == |items| {
        return Some(UnknownItem);
      }
      var it := items[i];
      if !Billable(it) {
        return Some(NotVoidable);
      }
      if it.quantity < it.paid + q {
        return Some(MoreThanUnpaid);
      }
      var left := it.quantity - q;
      items := items[i := it.(quantity := left, status := if left == 0 then Cancelled else it.status)];
      error := None;
    }
  }

  /** The row is there, has been sent, and has this much unpaid; the order is in service. */
  predicate CanVoid(o: Order, id: nat, q: nat)
  {
    var i := IndexOf(o.items, id);
    o.status.InService? && i < |o.items| && Billable(o.items[i]) && o.items[i].paid + q <= o.items[i].quantity
  }

  /** Why a void is refused. */
  function VoidError(o: Order, id: nat, q: nat): (e: Option<BillError>)
    ensures e.None? <==> CanVoid(o, id, q)
  {
    var i := IndexOf(o.items, id);
    if o.status.Completed? || o.status.Abandoned? then Some(OrderClosed)
    else if o.status.Unsent? then Some(NotSent)
    else if i == |o.items| then Some(UnknownItem)
    else if !Billable(o.items[i]) then Some(NotVoidable)
    else if o.items[i].quantity < o.items[i].paid + q then Some(MoreThanUnpaid)
    else None
  }
}
