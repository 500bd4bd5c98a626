/**
 * What a payment is answered, told from the order and the request alone: exactly when it is accepted, what it
 * charges, what it takes in cash and hands back, and what each refusal means.
 */
module BillAnswers {
  import opened Common
  import opened Sums
  import opened Money
  import opened Bill
  import opened BillStore
  import opened BillLaws
  import opened BillSettlement

  // ---------------------------------------------------------------- cash

  /** Cash is at least the amount, is recorded as given, and the rest is handed back; otherwise just the amount. */
  predicate Tendered(p: Payment, cash: Option<nat>)
  {
    match cash
    case None => p.tendered == p.amount && p.change == 0
    case Some(c) => p.amount <= c && p.tendered == c && p.change == c - p.amount
  }

  lemma PlanCash(o: Order, r: PayRequest)
    ensures PlanPayment(o, r).Ok? ==>
              Tendered(SplitPayment(PlanPayment(o, r).value, r.key), r.cash)
  {
  }

  /** A split payment just made has taken and handed back what its cash says. */
  lemma SplitCash(o: Order, r: PayRequest, shiftOpen: bool, stockOk: bool)
    requires PaymentFor(o.payments, r.key).None? && PaySplit(o, r, shiftOpen, stockOk).1.Paid?
    ensures Tendered(PaySplit(o, r, shiftOpen, stockOk).1.payment, r.cash)
  {
    PlanCash(o, r);
  }

  /** The payment with this much cash on the table. */
  function WithCash(p: Payment, c: nat): Payment { p.(tendered := c, change := c - p.amount) }

  /** The request without cash, and the same with it. */
  lemma PlanCashDecides(o: Order, r: PayRequest, c: nat)
    ensures PlanPayment(o, r.(cash := Some(c)))
            == match PlanPayment(o, r.(cash := None))
               case Err(e) => Err(e)
               case Ok(p) =>
                 if c < p.totals.total then Err(CashTooSmall) else Ok(p.(tendered := c, change := c - p.totals.total))
  {
  }

  /** The order with its latest payment made in cash. */
  function LastInCash(o: Order, c: nat): Order
    requires o.payments != []
  {
    var n := |o.payments| - 1;
    o.(payments := o.payments[n := WithCash(o.payments[n], c)])
  }

  /** An order and an answer as they are without cash, once this much cash is on the table. */
  function InCash(o: Order, unpaid: (Order, Outcome), c: nat): (Order, Outcome)
    requires unpaid.1.Paid? ==> unpaid.0.payments != []
  {
    match unpaid.1
    case Refused(_) => (o, unpaid.1)
    case Paid(p, final) =>
      if c < p.amount then (o, Refused(CashTooSmall)) else (LastInCash(unpaid.0, c), Paid(WithCash(p, c), final))
  }

  /**
   * Cash decides nothing but itself: under a fresh key a request is answered in cash as it is without, except that
   * too little is refused with the order unchanged, and enough is recorded with its change.
   */
  lemma SplitCashDecides(o: Order, r: PayRequest, c: nat, shiftOpen: bool)
    requires PaymentFor(o.payments, r.key).None?
    ensures var unpaid := PaySplit(o, r.(cash := None), shiftOpen, true);
            (unpaid.1.Paid? ==> unpaid.0.payments != [])
            && PaySplit(o, r.(cash := Some(c)), shiftOpen, true) == InCash(o, unpaid, c)
  {
    PlanCashDecides(o, r, c);
    if PlanPayment(o, r.(cash := None)).Ok? {
      var p := PlanPayment(o, r.(cash := None)).value;
      var q := p.(tendered := c, change := c - p.totals.total);
      assert SplitPayment(q, r.key) == WithCash(SplitPayment(p, r.key), c);
      assert (o.payments + [SplitPayment(p, r.key)])[|o.payments| := SplitPayment(q, r.key)]
             == o.payments + [SplitPayment(q, r.key)];
    }
  }

  lemma WholeCash(o: Order, cash: Option<nat>, shiftOpen: bool, stockOk: bool)
    requires PayWhole(o, cash, shiftOpen, stockOk).1.Paid?
    ensures Tendered(PayWhole(o, cash, shiftOpen, stockOk).1.payment, cash)
  {
  }

  /** The same of the whole-bill payment. */
  lemma WholeCashDecides(o: Order, c: nat, shiftOpen: bool)
    ensures var unpaid := PayWhole(o, None, shiftOpen, true);
            (unpaid.1.Paid? ==> unpaid.0.payments != [])
            && PayWhole(o, Some(c), shiftOpen, true) == InCash(o, unpaid, c)
  {
    if WholePayment(o, None).Ok? {
      var p := WholePayment(o, None).value;
      assert (o.payments + [p])[|o.payments| := WithCash(p, c)] == o.payments + [WithCash(p, c)];
    }
  }

  // ---------------------------------------------------------------- what is charged

  function OfLine(id: nat): ReqLine -> nat { (l: ReqLine) => if l.itemId == id then l.quantity else 0 }

  /** How much of a row is asked for. */
  function AskedOf(r: PayRequest, id: nat): nat { Sum(r.lines, OfLine(id)) }

  function ValueAsked(r: PayRequest): Item -> nat { (it: Item) => it.price * AskedOf(r, it.id) }

  function TaxAsked(r: PayRequest): Item -> nat { (it: Item) => it.price * it.rate * AskedOf(r, it.id) }

  function UnpaidOf(it: Item): nat { if it.status.Sent? && it.paid < it.quantity then it.quantity - it.paid else 0 }

  function UnpaidWorth(it: Item): nat { it.price * UnpaidOf(it) }

  /** No row is unsent, and every sent row is asked for as far as it is unpaid. */
  ghost predicate AsksForAll(o: Order, r: PayRequest)
  {
    forall i :: 0 <= i < |o.items| ==> !o.items[i].status.Draft? && UnpaidOf(o.items[i]) <= AskedOf(r, o.items[i].id)
  }

  /** The part of the discount: all that is left when everything is asked for, else in proportion, rounded half up. */
  ghost predicate SharesIn(o: Order, r: PayRequest, share: nat)
  {
    var rest := if SharesTaken(o.payments) < o.discount then o.discount - SharesTaken(o.payments) else 0;
    var due := Sum(o.items, UnpaidWorth);
    if o.discount == 0 then share == 0
    else if AsksForAll(o, r) then share == rest
    else if due == 0 then share == 0
    else
      var exact := rest * Sum(o.items, ValueAsked(r));
      2 * due * share <= 2 * exact + due < 2 * due * share + 2 * due
  }

  lemma {:induction false} AskedIs(items: seq<Item>, lines: seq<ReqLine>, pay: seq<PayLine>, id: nat)
    requires |pay| == |lines|
    requires forall k :: 0 <= k < |lines| ==> pay[k].item.id == lines[k].itemId && pay[k].quantity == lines[k].quantity
    ensures LineQuantity(pay, id) == Sum(lines, OfLine(id))
  {
    SumSame(lines, pay, OfLine(id), LineOf(id));
  }

  lemma PlanAsked(o: Order, r: PayRequest, p: Plan)
    requires Asks(o, r, p)
    ensures forall id :: LineQuantity(p.lines, id) == AskedOf(r, id) == Want(p.req, id)
  {
    forall k | 0 <= k < |r.lines|
      ensures p.lines[k].item.id == r.lines[k].itemId && p.lines[k].quantity == r.lines[k].quantity
    {
      assert LineError(o.items, r.lines[k]).None?;
    }
    forall id ensures LineQuantity(p.lines, id) == AskedOf(r, id) == Want(p.req, id) {
      AskedIs(o.items, r.lines, p.lines, id);
    }
  }

  lemma AskedWeighs(o: Order, r: PayRequest, p: Plan, w: Weight, f: Item -> nat)
    requires DistinctIds(o.items) && Asks(o, r, p)
    requires forall it: Item :: f(it) == w.Of(it) * AskedOf(r, it.id)
    ensures Sum(p.lines, LinePart(w)) == Sum(o.items, f)
  {
    PlanAsked(o, r, p);
    forall k | 0 <= k < |p.lines| ensures Has(o.items, p.lines[k].item, w) {
      assert LineError(o.items, r.lines[k]).None?;
      var i :| 0 <= i < |o.items| && o.items[i] == p.lines[k].item;
    }
    CountLinesOrRows(o.items, p.lines, w);
    SumSame(o.items, o.items, f, ByLines(w, p.lines));
  }

  /** The figures of a plan, row by row of the order. */
  ghost predicate Charges(o: Order, r: PayRequest, t: Totals)
  {
    && t.subtotal == Sum(o.items, ValueAsked(r))
    && 20000 * t.tax <= 2 * Sum(o.items, TaxAsked(r)) + 10000 < 20000 * t.tax + 20000
    && SharesIn(o, r, t.discount)
    && t.total == t.subtotal + t.tax - t.discount
  }

  lemma SettlesAsked(o: Order, r: PayRequest, p: Plan)
    requires Asks(o, r, p)
    ensures Settles(o.items, p.req) <==> AsksForAll(o, r)
  {
    PlanAsked(o, r, p);
    SettlesMeans(o.items, p.req);
    forall i | 0 <= i < |o.items| ensures UnpaidOf(o.items[i]) == Unpaid(o.items[i]) {}
  }

  lemma SharesAre(o: Order, r: PayRequest, p: Plan, subtotal: nat, share: nat)
    requires Asks(o, r, p) && subtotal == Sum(o.items, ValueAsked(r))
    requires var final := Settles(o.items, p.req);
             share == DiscountShare(o.discount, SharesTaken(o.payments), subtotal, DueTotal(o.items), final)
    ensures SharesIn(o, r, share)
  {
    SettlesAsked(o, r, p);
    SumSame(o.items, o.items, Due, UnpaidWorth);
  }

  /** What a request that names payable rows comes to, before the last checks on the amount. */
  function Figures(o: Order, r: PayRequest): Totals
    requires LinesError(o.items, r.lines).None? && RequestMap(r.lines).Ok?
  {
    var lines := PayLines(o.items, r.lines);
    var final := Settles(o.items, RequestMap(r.lines).value);
    TotalsOf(PricedAll(lines), ShareOf(o, TotalsOf(PricedAll(lines), 0).subtotal, final))
  }

  lemma FiguresCharge(o: Order, r: PayRequest)
    requires DistinctIds(o.items) && LinesError(o.items, r.lines).None? && RequestMap(r.lines).Ok?
    ensures Charges(o, r, Figures(o, r))
  {
    var lines, req := PayLines(o.items, r.lines), RequestMap(r.lines).value;
    var p := Plan(lines, req, Figures(o, r), 0, 0, false);
    RequestAsks(o, r, p);
    AskedWeighs(o, r, p, ByPrice, ValueAsked(r));
    AskedWeighs(o, r, p, ByTax, TaxAsked(r));
    LinesTotals(lines);
    LinesTotals(UnpaidLines(o.items));
    UnpaidValue(o.items);
    SharesAre(o, r, p, Sum(o.items, ValueAsked(r)), Figures(o, r).discount);
  }

  // ---------------------------------------------------------------- what is accepted

  /** The requested line names a row that is not cancelled and has this much unpaid. */
  ghost predicate Payable(o: Order, l: ReqLine)
  {
    exists i :: 0 <= i < |o.items| && o.items[i].id == l.itemId && !o.items[i].status.Cancelled?
                && o.items[i].paid + l.quantity <= o.items[i].quantity
  }

  ghost predicate Proper(o: Order, r: PayRequest)
  {
    o.status.InService? && r.lines != [] && DistinctLines(r.lines)
    && forall k :: 0 <= k < |r.lines| ==> Payable(o, r.lines[k])
  }

  lemma PayableMeans(o: Order, l: ReqLine)
    requires DistinctIds(o.items)
    ensures LineError(o.items, l).None? <==> Payable(o, l)
  {
    if Payable(o, l) {
      var i :| 0 <= i < |o.items| && o.items[i].id == l.itemId && !o.items[i].status.Cancelled?
               && o.items[i].paid + l.quantity <= o.items[i].quantity;
      FindAt(o.items, i);
    }
    if LineError(o.items, l).None? {
      var i :| 0 <= i < |o.items| && o.items[i] == Find(o.items, l.itemId).value;
    }
  }

  lemma ProperMeans(o: Order, r: PayRequest)
    requires DistinctIds(o.items)
    ensures Proper(o, r)
            <==> StatusError(o.status).None? && RequestMap(r.lines).Ok? && LinesError(o.items, r.lines).None?
  {
    assert r.lines[0..] == r.lines;
    CollectFrom(r.lines, 0);
    forall k | 0 <= k < |r.lines| ensures LineError(o.items, r.lines[k]).None? <==> Payable(o, r.lines[k]) {
      PayableMeans(o, r.lines[k]);
    }
  }

  /** The charge can be taken: not negative, and covered by the cash. */
  predicate Covers(cash: Option<nat>, amount: int) { 0 <= amount && (cash.Some? ==> amount <= cash.value) }

  lemma PlanAccepted(o: Order, r: PayRequest)
    requires DistinctIds(o.items)
    ensures PlanPayment(o, r).Ok? <==> Proper(o, r) && exists t :: Charges(o, r, t) && Covers(r.cash, t.total)
    ensures PlanPayment(o, r).Ok? ==> Charges(o, r, PlanPayment(o, r).value.totals)
  {
    ProperMeans(o, r);
    if Proper(o, r) {
      FiguresCharge(o, r);
      forall t | Charges(o, r, t) ensures t == Figures(o, r) { OneCharge(o, r, t, Figures(o, r)); }
    }
  }

  lemma OneCharge(o: Order, r: PayRequest, t: Totals, u: Totals)
    requires Charges(o, r, t) && Charges(o, r, u)
    ensures t == u
  {
    var due := Sum(o.items, UnpaidWorth);
    OneShare(due, t.discount, u.discount);
    OneShare(due, u.discount, t.discount);
  }

  /** There is one half-up quotient only. */
  lemma OneShare(due: nat, a: nat, b: nat)
    ensures a < b ==> 2 * due * a + 2 * due <= 2 * due * b
  {
    if a < b {
      MulAtMost(a + 1, b, 2 * due);
      Distribute(2 * due, a, 1);
    }
  }

  /**
   * Exactly when a split payment under a fresh key is accepted: the order is in service, the request names at least
   * one row and none twice, each is there, not cancelled and has that much unpaid, a shift is open, the stock side
   * agrees, and the charge is not negative and covered by the cash. It then takes exactly that charge; a refusal
   * leaves the order as it was.
   */
  lemma SplitAcceptedExactly(o: Order, r: PayRequest, shiftOpen: bool, stockOk: bool)
    requires DistinctIds(o.items) && PaymentFor(o.payments, r.key).None?
    ensures var (n, out) := PaySplit(o, r, shiftOpen, stockOk);
            (out.Paid? <==> Proper(o, r) && shiftOpen && stockOk
                            && exists t :: Charges(o, r, t) && Covers(r.cash, t.total))
            && (out.Paid? ==> Takes(o, n, r, out.payment) && (out.final <==> AsksForAll(o, r)))
            && (out.Refused? ==> n == o)
  {
    PlanAccepted(o, r);
    ProperMeans(o, r);
    if PlanPayment(o, r).Ok? {
      PlanIsPlanned(o, r);
      PlanTakes(o, r, PlanPayment(o, r).value);
    }
  }

  /** What an accepted payment does to the order: nothing but this. */
  ghost predicate Takes(o: Order, n: Order, r: PayRequest, p: Payment)
  {
    && Charges(o, r, Totals(p.subtotal, p.tax, p.discount, p.amount)) && Tendered(p, r.cash)
    && p.key == Some(r.key) && p.split && n.payments == o.payments + [p] && n.discount == o.discount
    && |n.items| == |o.items|
    && (forall i :: 0 <= i < |o.items| ==>
          n.items[i] == o.items[i].(paid := o.items[i].paid + AskedOf(r, o.items[i].id)))
    && n.status == (if AsksForAll(o, r) then Completed else o.status)
    && n.tableFree == (AsksForAll(o, r) || o.tableFree)
  }

  lemma PlanTakes(o: Order, r: PayRequest, p: Plan)
    requires PlanPayment(o, r) == Ok(p) && Planned(o, r, p) && Charges(o, r, p.totals)
    ensures Takes(o, CommitSplit(o, p, r.key), r, SplitPayment(p, r.key)) && (p.final <==> AsksForAll(o, r))
  {
    SettlesAsked(o, r, p);
    PlanAsked(o, r, p);
    PlanCash(o, r);
  }

  /** A key that has been used is answered with its payment, whatever is asked this time, and changes nothing. */
  lemma KnownKeyIsReplayed(o: Order, r: PayRequest, shiftOpen: bool, stockOk: bool)
    requires KeysOk(o.payments)
    ensures forall p :: p in o.payments && p.key == Some(r.key) ==>
              PaySplit(o, r, shiftOpen, stockOk) == (o, Paid(p, o.status.Completed?))
  {
    forall p | p in o.payments && p.key == Some(r.key)
      ensures PaySplit(o, r, shiftOpen, stockOk) == (o, Paid(p, o.status.Completed?))
    {
      var f := PaymentFor(o.payments, r.key);
      assert f.Some?;
      var i :| 0 <= i < |o.payments| && o.payments[i] == f.value;
      var j :| 0 <= j < |o.payments| && o.payments[j] == p;
      assert i == j;
    }
  }

  /** What each refusal of a split payment says of the order and the request. */
  ghost predicate Explains(o: Order, r: PayRequest, shiftOpen: bool, stockOk: bool, e: BillError)
  {
    match e
    case AlreadyPaid => o.status.Completed?
    case OrderCancelled => o.status.Abandoned?
    case NotSent => o.status.Unsent?
    case NoLines => r.lines == []
    case DuplicateLine => !DistinctLines(r.lines)
    case NoShift => !shiftOpen
    case UnknownItem => exists k :: 0 <= k < |r.lines| && Unknown(o, r.lines[k])
    case ItemCancelled => exists k :: 0 <= k < |r.lines| && NamesCancelled(o, r.lines[k])
    case MoreThanUnpaid => exists k :: 0 <= k < |r.lines| && PastUnpaid(o, r.lines[k])
    case NegativeTotal => exists t :: Charges(o, r, t) && t.total < 0
    case CashTooSmall => r.cash.Some? && exists t :: Charges(o, r, t) && r.cash.value < t.total
    case StockRefused => !stockOk
    case _ => false
  }

  ghost predicate Unknown(o: Order, l: ReqLine) { forall i :: 0 <= i < |o.items| ==> o.items[i].id != l.itemId }

  ghost predicate NamesCancelled(o: Order, l: ReqLine)
  {
    exists i :: 0 <= i < |o.items| && o.items[i].id == l.itemId && o.items[i].status.Cancelled?
  }

  ghost predicate PastUnpaid(o: Order, l: ReqLine)
  {
    exists i :: 0 <= i < |o.items| && o.items[i].id == l.itemId && !o.items[i].status.Cancelled?
                && o.items[i].quantity < o.items[i].paid + l.quantity
  }

  lemma {:induction false} FirstError(items: seq<Item>, lines: seq<ReqLine>) returns (k: nat)
    requires LinesError(items, lines).Some?
    ensures k < |lines| && LineError(items, lines[k]) == LinesError(items, lines)
    ensures forall j :: 0 <= j < k ==> LineError(items, lines[j]).None?
    decreases |lines|
  {
    if LineError(items, lines[0]).Some? {
      k := 0;
    } else {
      var j := FirstError(items, lines[1..]);
      k := j + 1;
      assert forall i :: 1 <= i < k ==> lines[i] == lines[1..][i - 1];
    }
  }

  lemma LineExplained(o: Order, l: ReqLine)
    requires LineError(o.items, l).Some?
    ensures match LineError(o.items, l).value
            case UnknownItem => Unknown(o, l)
            case ItemCancelled => NamesCancelled(o, l)
            case MoreThanUnpaid => PastUnpaid(o, l)
            case _ => false
  {
    var f := Find(o.items, l.itemId);
    if f.Some? {
      var i :| 0 <= i < |o.items| && o.items[i] == f.value;
    }
  }

  lemma LinesExplained(o: Order, r: PayRequest, shiftOpen: bool, stockOk: bool)
    requires LinesError(o.items, r.lines).Some?
    ensures Explains(o, r, shiftOpen, stockOk, LinesError(o.items, r.lines).value)
  {
    var k := FirstError(o.items, r.lines);
    LineExplained(o, r.lines[k]);
  }

  lemma FiguresExplained(o: Order, r: PayRequest, shiftOpen: bool, stockOk: bool)
    requires DistinctIds(o.items) && PlanPayment(o, r).Err?
    requires StatusError(o.status).None? && RequestMap(r.lines).Ok? && LinesError(o.items, r.lines).None?
    ensures Explains(o, r, shiftOpen, stockOk, PlanPayment(o, r).error)
  {
    FiguresCharge(o, r);
    assert PlanPayment(o, r).error == if Figures(o, r).total < 0 then NegativeTotal else CashTooSmall;
  }

  lemma RequestExplained(o: Order, r: PayRequest, shiftOpen: bool, stockOk: bool)
    requires RequestMap(r.lines).Err?
    ensures Explains(o, r, shiftOpen, stockOk, RequestMap(r.lines).error)
  {
    assert r.lines[0..] == r.lines;
    CollectFrom(r.lines, 0);
    CollectRefusal(r.lines, map[]);
  }

  lemma PlanExplained(o: Order, r: PayRequest, shiftOpen: bool, stockOk: bool)
    requires DistinctIds(o.items) && PlanPayment(o, r).Err?
    ensures Explains(o, r, shiftOpen, stockOk, PlanPayment(o, r).error)
  {
    if StatusError(o.status).None? {
      if RequestMap(r.lines).Err? {
        RequestExplained(o, r, shiftOpen, stockOk);
      } else if LinesError(o.items, r.lines).Some? {
        LinesExplained(o, r, shiftOpen, stockOk);
      } else {
        FiguresExplained(o, r, shiftOpen, stockOk);
      }
    }
  }

  /** Every refusal of a split payment is true. */
  lemma SplitRefusalIsTrue(o: Order, r: PayRequest, shiftOpen: bool, stockOk: bool)
    requires DistinctIds(o.items) && PaymentFor(o.payments, r.key).None?
    requires PaySplit(o, r, shiftOpen, stockOk).1.Refused?
    ensures Explains(o, r, shiftOpen, stockOk, PaySplit(o, r, shiftOpen, stockOk).1.error)
  {
    if RequestMap(r.lines).Err? {
      RequestExplained(o, r, shiftOpen, stockOk);
    } else if PlanPayment(o, r).Err? {
      PlanExplained(o, r, shiftOpen, stockOk);
    }
  }

  // ---------------------------------------------------------------- the whole bill

  function SentWorth(it: Item): nat { if it.status.Sent? then it.price * it.quantity else 0 }

  function SentTax(it: Item): nat { if it.status.Sent? then it.price * it.rate * it.quantity else 0 }

  /** The figures of the whole bill, row by row. */
  ghost predicate ChargesWhole(o: Order, t: Totals)
  {
    && t.subtotal == Sum(o.items, SentWorth)
    && 20000 * t.tax <= 2 * Sum(o.items, SentTax) + 10000 < 20000 * t.tax + 20000
    && t.discount == o.discount && t.total == t.subtotal + t.tax - t.discount
  }

  /** Something has been sent, nothing is unsent, and nothing sent has been paid. */
  ghost predicate Untouched(o: Order)
  {
    && o.status.InService?
    && AnySent(o.items) && !AnySentPaid(o.items)
    && forall i :: 0 <= i < |o.items| ==> !o.items[i].status.Draft?
  }

  lemma {:induction false} WholeSums(items: seq<Item>)
    ensures Sum(WholeLines(items), LinePart(ByPrice)) == Sum(items, SentWorth)
    ensures Sum(WholeLines(items), LinePart(ByTax)) == Sum(items, SentTax)
  {
    if items != [] {
      var it, before := items[|items| - 1], WholeLines(items[..|items| - 1]);
      WholeSums(items[..|items| - 1]);
      if Billable(it) {
        SumAppend(before, PayLine(it, it.quantity), LinePart(ByPrice));
        SumAppend(before, PayLine(it, it.quantity), LinePart(ByTax));
      } else {
        assert WholeLines(items) == before;
      }
    }
  }

  lemma WholeFigures(o: Order)
    ensures ChargesWhole(o, TotalsOf(PricedAll(WholeLines(o.items)), o.discount))
  {
    LinesTotals(WholeLines(o.items));
    WholeSums(o.items);
  }

  ghost predicate AnySent(items: seq<Item>) { exists i :: 0 <= i < |items| && items[i].status.Sent? }

  ghost predicate AnySentPaid(items: seq<Item>)
  {
    exists i :: 0 <= i < |items| && items[i].status.Sent? && items[i].paid > 0
  }

  lemma WholeLinesAre(items: seq<Item>)
    ensures WholeLines(items) != [] <==> AnySent(items)
    ensures AnyPaid(WholeLines(items)) <==> AnySentPaid(items)
  {
    var lines := WholeLines(items);
    forall i | 0 <= i < |items| && items[i].status.Sent?
      ensures exists k :: 0 <= k < |lines| && lines[k].item == items[i]
    {
      WholeMembers(items, PayLine(items[i], items[i].quantity));
    }
    forall k | 0 <= k < |lines|
      ensures exists i :: 0 <= i < |items| && items[i] == lines[k].item && Billable(items[i])
    {
      WholeMembers(items, lines[k]);
    }
    if AnyPaid(lines) {
      var k :| 0 <= k < |lines| && lines[k].item.paid != 0;
    }
  }

  /** What an accepted whole-bill payment does to the order. */
  ghost predicate TakesWhole(o: Order, n: Order, cash: Option<nat>, p: Payment)
  {
    && ChargesWhole(o, Totals(p.subtotal, p.tax, p.discount, p.amount)) && Tendered(p, cash)
    && p.key == None && !p.split && n.payments == o.payments + [p] && n.discount == o.discount
    && n.status.Completed? && n.tableFree && |n.items| == |o.items|
    && (forall i :: 0 <= i < |o.items| ==>
          n.items[i] == if o.items[i].status.Sent? then o.items[i].(paid := o.items[i].quantity) else o.items[i])
  }

  /** Exactly when the whole bill is accepted as one payment, and what it then takes and leaves. */
  lemma WholeAcceptedExactly(o: Order, cash: Option<nat>, shiftOpen: bool, stockOk: bool)
    ensures var (n, out) := PayWhole(o, cash, shiftOpen, stockOk);
            (out.Paid? <==> Untouched(o) && shiftOpen && stockOk
                            && forall t :: ChargesWhole(o, t) && cash.Some? ==> t.total <= cash.value)
            && (out.Paid? ==> TakesWhole(o, n, cash, out.payment) && out.final)
            && (out.Refused? ==> n == o)
  {
    WholeFigures(o);
    WholeLinesAre(o.items);
  }

  /** Each refusal of the whole-bill payment is true. */
  lemma WholeRefusalIsTrue(o: Order, cash: Option<nat>, shiftOpen: bool, stockOk: bool)
    requires PayWhole(o, cash, shiftOpen, stockOk).1.Refused?
    ensures match PayWhole(o, cash, shiftOpen, stockOk).1.error
            case AlreadyPaid => o.status.Completed?
            case OrderCancelled => o.status.Abandoned?
            case NotSent => o.status.Unsent?
            case NoShift => !shiftOpen
            case UnsentItems => exists i :: 0 <= i < |o.items| && o.items[i].status.Draft?
            case NothingPayable => forall i :: 0 <= i < |o.items| ==> o.items[i].status.Cancelled?
            case PartlyPaid => AnySentPaid(o.items)
            case CashTooSmall => cash.Some? && exists t :: ChargesWhole(o, t) && cash.value < t.total
            case StockRefused => !stockOk
            case _ => false
  {
    WholeFigures(o);
    WholeLinesAre(o.items);
  }

  // ---------------------------------------------------------------- voids

  /** A void of what may be voided changes its own row only: that much less, and cancelled when nothing is left. */
  lemma VoidDoesJustThat(o: Order, id: nat, q: nat)
    requires CanVoid(o, id, q) && 0 < q
    ensures var i := IndexOf(o.items, id);
            var it := o.items[i];
            var n := VoidWrite(o, id, it.quantity, it.paid, it.status.stage, q);
            n.Some? && n.value == o.(items := n.value.items) && |n.value.items| == |o.items|
            && (forall j :: 0 <= j < |o.items| && j != i ==> n.value.items[j] == o.items[j])
            && n.value.items[i].quantity + q == it.quantity
            && n.value.items[i] == it.(quantity := n.value.items[i].quantity, status := n.value.items[i].status)
            && (n.value.items[i].quantity > 0 ==> n.value.items[i].status == it.status)
            && (n.value.items[i].quantity == 0 ==> n.value.items[i].status == Cancelled)
  {
  }

  /** Every refusal of a void is true. */
  lemma VoidRefusalIsTrue(o: Order, id: nat, q: nat)
    requires DistinctIds(o.items) && VoidError(o, id, q).Some?
    ensures match VoidError(o, id, q).value
            case OrderClosed => o.status.Completed? || o.status.Abandoned?
            case NotSent => o.status.Unsent?
            case UnknownItem => forall i :: 0 <= i < |o.items| ==> o.items[i].id != id
            case NotVoidable => exists i :: 0 <= i < |o.items| && o.items[i].id == id && !o.items[i].status.Sent?
            case MoreThanUnpaid =>
              exists i :: 0 <= i < |o.items| && o.items[i].id == id && o.items[i].quantity < o.items[i].paid + q
            case _ => false
  {
    var i := IndexOf(o.items, id);
    assert i < |o.items| ==> o.items[i].id == id;
  }
}
