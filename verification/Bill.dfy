/**
 * One order as the billing services see it: its item rows, its fixed order-level discount, the
 * payments taken so far with their payment-item ledger, the stock deducted, and what each
 * billing operation does to that state. Money is in hundredths, tax rates in hundredths of a percent.
 */
module Bill {
  import opened Common
  import opened Sums
  import opened Money

  datatype Stage = Submitted | Accepted | Preparing | Ready | Served

  datatype ItemStatus = Draft | Sent(stage: Stage) | Cancelled

  datatype OrderStatus = Unsent | InService(stage: Stage) | Completed | Abandoned

  datatype Item = Item(id: nat, menuItem: Option<nat>, price: nat, rate: nat,
                       quantity: nat, paid: nat, status: ItemStatus)

  /** A payment-item row: how much of which order row one payment covered, at the frozen price. */
  datatype LedgerRow = LedgerRow(itemId: nat, menuItem: Option<nat>, quantity: nat, unitPrice: nat, rate: nat)

  datatype Payment = Payment(key: Option<nat>, split: bool, rows: seq<LedgerRow>, subtotal: nat, tax: nat,
                             discount: nat, amount: int, tendered: int, change: int)

  datatype Order = Order(items: seq<Item>, status: OrderStatus, tableFree: bool, discount: nat,
                         payments: seq<Payment>, deducted: multiset<nat>)

  datatype BillError =
    | AlreadyPaid | OrderCancelled | NotSent | DuplicateLine | NoLines | NoShift
    | UnknownItem | ItemCancelled | MoreThanUnpaid | NegativeTotal | CashTooSmall | ItemChanged | StockRefused
    | UnsentItems | NothingPayable | PartlyPaid | OrderClosed | NegativeDiscount | NotVoidable

  datatype ReqLine = ReqLine(itemId: nat, quantity: nat)

  datatype PayRequest = PayRequest(key: nat, cash: Option<nat>, lines: seq<ReqLine>)

  // ---------------------------------------------------------------- totals

  datatype PricedLine = PricedLine(price: nat, rate: nat, quantity: nat)

  datatype Totals = Totals(subtotal: nat, tax: nat, discount: nat, total: int)

  const RATE_SCALE: nat := 10000

  function LineValue(l: PricedLine): nat { l.price * l.quantity }

  function LineTax(l: PricedLine): nat { l.price * l.rate * l.quantity }

  /** computeOrderTotals: sums first, one rounding of the tax at the end, discount taken after tax. */
  function TotalsOf(lines: seq<PricedLine>, discount: nat): Totals
  {
    var subtotal := Sum(lines, LineValue);
    var tax := HalfUp(Sum(lines, LineTax), RATE_SCALE);
    Totals(subtotal, tax, discount, subtotal + tax - discount)
  }

  // ---------------------------------------------------------------- rows

  /** The row with the given id, if the order has one. */
  function Find(items: seq<Item>, id: nat): (r: Option<Item>)
    ensures r.Some? ==> r.value in items && r.value.id == id
    ensures r.None? ==> forall i :: 0 <= i < |items| ==> items[i].id != id
  {
    if items == [] then None
    else if items[0].id == id then Some(items[0])
    else Find(items[1..], id)
  }

  ghost predicate DistinctIds(items: seq<Item>)
  {
    forall i, j :: 0 <= i < j < |items| ==> items[i].id != items[j].id
  }

  predicate Billable(it: Item) { it.status.Sent? }

  /** What is still unpaid of a row that has been sent; draft and cancelled rows are not on the bill. */
  function Unpaid(it: Item): nat
  {
    if Billable(it) && it.paid < it.quantity then it.quantity - it.paid else 0
  }

  function Due(it: Item): nat { it.price * Unpaid(it) }

  function DueTotal(items: seq<Item>): nat { Sum(items, Due) }

  predicate HasDraft(items: seq<Item>) { exists i :: 0 <= i < |items| && items[i].status.Draft? }

  datatype PayLine = PayLine(item: Item, quantity: nat)

  function Priced(l: PayLine): PricedLine { PricedLine(l.item.price, l.item.rate, l.quantity) }

  function PricedAll(lines: seq<PayLine>): (r: seq<PricedLine>)
    ensures |r| == |lines|
  {
    seq(|lines|, i requires 0 <= i < |lines| => Priced(lines[i]))
  }

  /** unpaidLines: the sent rows that are not fully paid, each with its remaining quantity. */
  function UnpaidLines(items: seq<Item>): seq<PayLine>
  {
    if items == [] then []
    else
      var it := items[|items| - 1];
      UnpaidLines(items[..|items| - 1]) + if Unpaid(it) > 0 then [PayLine(it, Unpaid(it))] else []
  }

  // ---------------------------------------------------------------- a payment request

  function Want(req: map<nat, nat>, id: nat): nat { if id in req then req[id] else 0 }

  /** The requested quantity per row; a row named twice, or no row at all, is refused. */
  function RequestMap(lines: seq<ReqLine>): Result<map<nat, nat>, BillError>
  {
    if lines == [] then Err(NoLines) else CollectLines(lines, map[])
  }

  function CollectLines(lines: seq<ReqLine>, req: map<nat, nat>): Result<map<nat, nat>, BillError>
  {
    if lines == [] then Ok(req)
    else if lines[0].itemId in req then Err(DuplicateLine)
    else CollectLines(lines[1..], req[lines[0].itemId := lines[0].quantity])
  }

  function StatusError(s: OrderStatus): Option<BillError>
  {
    match s
    case Completed => Some(AlreadyPaid)
    case Abandoned => Some(OrderCancelled)
    case Unsent => Some(NotSent)
    case InService(_) => None
  }

  function LineError(items: seq<Item>, l: ReqLine): Option<BillError>
  {
    match Find(items, l.itemId)
    case None => Some(UnknownItem)
    case Some(it) =>
      if it.status.Cancelled? then Some(ItemCancelled)
      else if it.quantity < it.paid + l.quantity then Some(MoreThanUnpaid)
      else None
  }

  /** The first refusal in request order, as the locked validation reports it. */
  function LinesError(items: seq<Item>, lines: seq<ReqLine>): (r: Option<BillError>)
    ensures r.None? <==> forall i :: 0 <= i < |lines| ==> LineError(items, lines[i]).None?
  {
    if lines == [] then None
    else if LineError(items, lines[0]).Some? then LineError(items, lines[0])
    else
      var rest := LinesError(items, lines[1..]);
      assert forall i :: 0 <= i < |lines[1..]| ==> lines[1..][i] == lines[i + 1];
      assert rest.Some? ==> exists i :: 1 <= i < |lines| && LineError(items, lines[i]).Some? by {
        if rest.Some? {
          var i :| 0 <= i < |lines[1..]| && LineError(items, lines[1..][i]).Some?;
          assert LineError(items, lines[i + 1]).Some?;
        }
      }
      rest
  }

  function PayLines(items: seq<Item>, lines: seq<ReqLine>): (r: seq<PayLine>)
    requires LinesError(items, lines).None?
    ensures |r| == |lines|
    ensures forall i :: 0 <= i < |lines| ==> r[i] == PayLine(Find(items, lines[i].itemId).value, lines[i].quantity)
  {
    seq(|lines|, i requires 0 <= i < |lines| =>
      assert LineError(items, lines[i]).None?;
      PayLine(Find(items, lines[i].itemId).value, lines[i].quantity))
  }

  // ---------------------------------------------------------------- planning under the lock

  function ShareOfPayment(p: Payment): nat { p.discount }

  function SharesTaken(payments: seq<Payment>): nat { Sum(payments, ShareOfPayment) }

  /** This payment's part of the order discount: pro rata, except that the closing payment takes the rest. */
  function DiscountShare(discount: nat, taken: nat, subtotal: nat, due: nat, final: bool): nat
  {
    if discount == 0 then 0
    else
      var rest := if taken < discount then discount - taken else 0;
      if final then rest else if due == 0 then 0 else HalfUp(rest * subtotal, due)
  }

  function ShareOf(o: Order, subtotal: nat, final: bool): nat
  {
    var due := TotalsOf(PricedAll(UnpaidLines(o.items)), 0).subtotal;
    DiscountShare(o.discount, SharesTaken(o.payments), subtotal, due, final)
  }

  /** Does this request settle everything that is still unpaid, with nothing left unsent? */
  predicate Settles(items: seq<Item>, req: map<nat, nat>)
  {
    !HasDraft(items) && forall l :: l in UnpaidLines(items) ==> Want(req, l.item.id) >= l.quantity
  }

  datatype Plan = Plan(lines: seq<PayLine>, req: map<nat, nat>, totals: Totals, tendered: int, change: int, final: bool)

  /** The last checks on the amount, and the cash to hand back. */
  function Charge(lines: seq<PayLine>, req: map<nat, nat>, t: Totals, cash: Option<nat>, final: bool)
    : Result<Plan, BillError>
  {
    if t.total < 0 then Err(NegativeTotal)
    else if cash.Some? && cash.value < t.total then Err(CashTooSmall)
    else
      var tendered := if cash.Some? then cash.value else t.total;
      Ok(Plan(lines, req, t, tendered, tendered - t.total, final))
  }

  /** Everything paySplitBill decides from the locked read, before it touches a row. */
  function PlanPayment(o: Order, r: PayRequest): Result<Plan, BillError>
  {
    if StatusError(o.status).Some? then Err(StatusError(o.status).value)
    else
      match RequestMap(r.lines)
      case Err(e) => Err(e)
      case Ok(req) =>
        if LinesError(o.items, r.lines).Some? then Err(LinesError(o.items, r.lines).value)
        else
          var lines := PayLines(o.items, r.lines);
          var final := Settles(o.items, req);
          var share := ShareOf(o, TotalsOf(PricedAll(lines), 0).subtotal, final);
          Charge(lines, req, TotalsOf(PricedAll(lines), share), r.cash, final)
  }

  // ---------------------------------------------------------------- guards and commit

  /** The per-row guard of the update: the row still is what the locked read saw. */
  predicate Unchanged(items: seq<Item>, seen: Item)
  {
    match Find(items, seen.id)
    case None => false
    case Some(now) => now.quantity == seen.quantity && now.paid == seen.paid && !now.status.Cancelled?
  }

  function PaidUp(items: seq<Item>, req: map<nat, nat>): (r: seq<Item>)
    ensures |r| == |items|
    ensures forall i :: 0 <= i < |items| ==> r[i] == items[i].(paid := items[i].paid + Want(req, items[i].id))
  {
    seq(|items|, i requires 0 <= i < |items| => items[i].(paid := items[i].paid + Want(req, items[i].id)))
  }

  function Ledger(l: PayLine): LedgerRow
  {
    LedgerRow(l.item.id, l.item.menuItem, l.quantity, l.item.price, l.item.rate)
  }

  function LedgerRows(lines: seq<PayLine>): (r: seq<LedgerRow>)
    ensures |r| == |lines|
    ensures forall i :: 0 <= i < |lines| ==> r[i] == Ledger(lines[i])
  {
    seq(|lines|, i requires 0 <= i < |lines| => Ledger(lines[i]))
  }

  /** Stock taken off for exactly the quantities of this payment; rows without a menu item take none. */
  function Deduct(stock: multiset<nat>, lines: seq<PayLine>): multiset<nat>
  {
    if lines == [] then stock
    else
      var l := lines[|lines| - 1];
      var before := Deduct(stock, lines[..|lines| - 1]);
      match l.item.menuItem
      case None => before
      case Some(m) => before[m := before[m] + l.quantity]
  }

  function SplitPayment(p: Plan, key: nat): Payment
  {
    Payment(Some(key), true, LedgerRows(p.lines), p.totals.subtotal, p.totals.tax, p.totals.discount,
            p.totals.total, p.tendered, p.change)
  }

  /** The committed effect of a planned split payment on the order as it is at commit time. */
  function CommitSplit(o: Order, p: Plan, key: nat): Order
  {
    Order(PaidUp(o.items, p.req),
          if p.final then Completed else o.status,
          if p.final then true else o.tableFree,
          o.discount,
          o.payments + [SplitPayment(p, key)],
          Deduct(o.deducted, p.lines))
  }

  function PaymentFor(payments: seq<Payment>, key: nat): (r: Option<Payment>)
    ensures r.Some? ==> r.value in payments && r.value.key == Some(key)
    ensures r.None? ==> forall p :: p in payments ==> p.key != Some(key)
  {
    if payments == [] then None
    else if payments[0].key == Some(key) then Some(payments[0])
    else PaymentFor(payments[1..], key)
  }

  datatype Outcome = Paid(payment: Payment, final: bool) | Refused(error: BillError)

  /** The transaction: planned from the locked read, committed unless the stock side refuses. */
  function PayLocked(o: Order, r: PayRequest, stockOk: bool): (Order, Outcome)
  {
    match PlanPayment(o, r)
    case Err(e) => (o, Refused(e))
    case Ok(p) =>
      if !stockOk then (o, Refused(StockRefused))
      else (CommitSplit(o, p, r.key), Paid(SplitPayment(p, r.key), p.final))
  }

  /** paySplitBill with nothing else in between. */
  function PaySplit(o: Order, r: PayRequest, shiftOpen: bool, stockOk: bool): (Order, Outcome)
  {
    var earlier := PaymentFor(o.payments, r.key);
    if earlier.Some? then (o, Paid(earlier.value, o.status.Completed?))
    else if Precheck(o, r, shiftOpen).Some? then (o, Refused(Precheck(o, r, shiftOpen).value))
    else PayLocked(o, r, stockOk)
  }

  /** The unlocked validation before the transaction opens. */
  function Precheck(o: Order, r: PayRequest, shiftOpen: bool): Option<BillError>
  {
    if StatusError(o.status).Some? then StatusError(o.status)
    else if RequestMap(r.lines).Err? then Some(RequestMap(r.lines).error)
    else if !shiftOpen then Some(NoShift)
    else None
  }

  // ---------------------------------------------------------------- whole-bill payment

  function WholeLines(items: seq<Item>): seq<PayLine>
  {
    if items == [] then []
    else
      var it := items[|items| - 1];
      WholeLines(items[..|items| - 1]) + if Billable(it) then [PayLine(it, it.quantity)] else []
  }

  predicate AnyPaid(lines: seq<PayLine>) { exists i :: 0 <= i < |lines| && lines[i].item.paid != 0 }

  function SettleAll(items: seq<Item>): (r: seq<Item>)
    ensures |r| == |items|
    ensures forall i :: 0 <= i < |items| ==>
      r[i] == if Billable(items[i]) then items[i].(paid := items[i].quantity) else items[i]
  {
    seq(|items|, i requires 0 <= i < |items| =>
      if Billable(items[i]) then items[i].(paid := items[i].quantity) else items[i])
  }

  /** What completePayment would charge for the rows as they are. */
  function WholePayment(o: Order, cash: Option<nat>): Result<Payment, BillError>
  {
    if HasDraft(o.items) then Err(UnsentItems)
    else
      var lines := WholeLines(o.items);
      if lines == [] then Err(NothingPayable)
      else if AnyPaid(lines) then Err(PartlyPaid)
      else
        var t := TotalsOf(PricedAll(lines), o.discount);
        if cash.Some? && cash.value < t.total then Err(CashTooSmall)
        else
          var tendered := if cash.Some? then cash.value else t.total;
          var change := tendered - t.total;
          Ok(Payment(None, false, LedgerRows(lines), t.subtotal, t.tax, t.discount, t.total, tendered, change))
  }

  function CommitWhole(o: Order, p: Payment): Order
  {
    Order(SettleAll(o.items), Completed, true, o.discount, o.payments + [p], Deduct(o.deducted, WholeLines(o.items)))
  }

  /** completePayment: the whole bill at once, only while nothing on it has been paid. */
  function PayWhole(o: Order, cash: Option<nat>, shiftOpen: bool, stockOk: bool): (Order, Outcome)
  {
    if StatusError(o.status).Some? then (o, Refused(StatusError(o.status).value))
    else if !shiftOpen then (o, Refused(NoShift))
    else
      match WholePayment(o, cash)
      case Err(e) => (o, Refused(e))
      case Ok(p) => if !stockOk then (o, Refused(StockRefused)) else (CommitWhole(o, p), Paid(p, true))
  }

  // ---------------------------------------------------------------- the other writers of the same rows

  function IndexOf(items: seq<Item>, id: nat): (r: nat)
    ensures r <= |items|
    ensures r < |items| ==> items[r].id == id
    ensures r == |items| ==> forall i :: 0 <= i < |items| ==> items[i].id != id
  {
    if items == [] then 0 else if items[0].id == id then 0 else 1 + IndexOf(items[1..], id)
  }

  /**
   * The guarded write of voidOrderItem: it lands only if quantity and paid quantity are as it read them, and
   * writes back the stage it read. It reads sent rows only, and a row that was sent is never a draft again.
   */
  function VoidWrite(o: Order, id: nat, readQuantity: nat, readPaid: nat, readStage: Stage, q: nat): Option<Order>
  {
    var i := IndexOf(o.items, id);
    if i == |o.items| || q == 0 || readQuantity < readPaid + q then None
    else
      var it := o.items[i];
      if it.status.Draft? || it.quantity != readQuantity || it.paid != readPaid then None
      else
        var left := it.quantity - q;
        var status := if left == 0 then Cancelled else Sent(readStage);
        Some(o.(items := o.items[i := it.(quantity := left, status := status)]))
  }

  /** The write of a transfer to another table: the whole untouched row leaves, or its quantity is lowered. */
  function MoveOutWrite(o: Order, id: nat, readQuantity: nat, readPaid: nat, q: nat): Option<Order>
  {
    var i := IndexOf(o.items, id);
    if i == |o.items| || q == 0 || readQuantity < readPaid + q then None
    else
      var it := o.items[i];
      if it.status.Cancelled? || it.quantity != readQuantity || it.paid != readPaid then None
      else if it.paid == 0 && q == it.quantity then Some(o.(items := Without(o.items, i)))
      else Some(o.(items := o.items[i := it.(quantity := it.quantity - q)]))
  }

  predicate OpenOrder(s: OrderStatus) { s.Unsent? || s.InService? }

  /**
   * A row transferred from another table. The transfer holds the table that a closing payment must free, so
   * its check of the order cannot go stale under it.
   */
  function AddRow(o: Order, row: Item): Option<Order>
  {
    if OpenOrder(o.status) && row.paid == 0 && 0 < row.quantity && !row.status.Cancelled?
      && IndexOf(o.items, row.id) == |o.items|
    then Some(o.(items := o.items + [row])) else None
  }

  // The next five write by id alone: what their callers had checked may no longer hold when they land.

  /** addItem: a new draft row, whatever the order has become. */
  function AddDraft(o: Order, row: Item): Option<Order>
  {
    if row.status.Draft? && row.paid == 0 && 0 < row.quantity && IndexOf(o.items, row.id) == |o.items|
    then Some(o.(items := o.items + [row])) else None
  }

  /** updateItem: the quantity, whatever the row has become. */
  function SetQuantity(o: Order, id: nat, q: nat): Option<Order>
  {
    var i := IndexOf(o.items, id);
    if i == |o.items| || q == 0 then None
    else Some(o.(items := o.items[i := o.items[i].(quantity := q)]))
  }

  /** updateItemModifiers: the price, whatever the row has become. */
  function SetPrice(o: Order, id: nat, price: nat): Option<Order>
  {
    var i := IndexOf(o.items, id);
    if i == |o.items| then None else Some(o.(items := o.items[i := o.items[i].(price := price)]))
  }

  /** A payment item refers to this row, which the database then does not let go. */
  predicate Referenced(payments: seq<Payment>, id: nat)
  {
    exists p, k :: 0 <= p < |payments| && 0 <= k < |payments[p].rows| && payments[p].rows[k].itemId == id
  }

  /** removeItem: the row goes, whatever it has become, unless a payment refers to it. */
  function RemoveRow(o: Order, id: nat): Option<Order>
  {
    var i := IndexOf(o.items, id);
    if i == |o.items| || Referenced(o.payments, id) then None else Some(o.(items := Without(o.items, i)))
  }

  datatype Tariff = Tariff(price: nat, rate: nat)

  /** What sending writes on a row: what the menu charges, if that has changed; and whether a station prepares it. */
  datatype Sending = Sending(tariff: Option<Tariff>, station: bool)

  /** Where a sent row starts: at its station, or served at once. */
  function FirstStage(s: Sending): Stage { if s.station then Submitted else Served }

  function SendRow(it: Item, sends: map<nat, Sending>): Item
  {
    if it.id !in sends then it
    else
      match sends[it.id].tariff
      case None => it.(status := Sent(FirstStage(sends[it.id])))
      case Some(t) => it.(price := t.price, rate := t.rate, status := Sent(FirstStage(sends[it.id])))
  }

  function SendRows(items: seq<Item>, sends: map<nat, Sending>): (r: seq<Item>)
    ensures |r| == |items|
    ensures forall i :: 0 <= i < |items| ==> r[i] == SendRow(items[i], sends)
  {
    seq(|items|, i requires 0 <= i < |items| => SendRow(items[i], sends))
  }

  /** A row that was sent once has its entry at the station, which does not take a second. */
  predicate EnteredTwice(items: seq<Item>, sends: map<nat, Sending>)
  {
    exists i :: 0 <= i < |items| && items[i].id in sends && sends[items[i].id].station && !items[i].status.Draft?
  }

  /**
   * submitOrder: the rows it read as drafts are repriced and sent by id, whatever they have become, unless one of
   * them would enter its station twice; the first submission also sets the order's status by id.
   */
  function SubmitRows(o: Order, sends: map<nat, Sending>, first: bool): Option<Order>
  {
    if sends == map[] || EnteredTwice(o.items, sends) then None
    else
      var status := if first then InService(Submitted) else o.status;
      Some(o.(items := SendRows(o.items, sends), status := status))
  }

  /** The kitchen or bar moves a sent row along. */
  function AdvanceRow(o: Order, id: nat, stage: Stage): Option<Order>
  {
    var i := IndexOf(o.items, id);
    if i == |o.items| || !Billable(o.items[i]) then None
    else Some(o.(items := o.items[i := o.items[i].(status := Sent(stage))]))
  }

  /** applyOrderDiscount: checked against the status it read, written on the order as it is by then. */
  function ApplyDiscount(seen: OrderStatus, o: Order, amount: int): Result<Order, BillError>
  {
    if seen.Completed? || seen.Abandoned? then Err(OrderClosed)
    else if amount < 0 then Err(NegativeDiscount)
    else Ok(o.(discount := amount))
  }
}
