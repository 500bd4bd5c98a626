/**
 * The agent's call of the Windows print API: the height asked of the driver is measured and grown until the
 * content fits, and the outcome says whether the document was submitted.
 */
module PageHeight {
  import opened Common
  import opened PrintServer

  /** What the driver makes of a requested height. */
  datatype Page = Page(width: int, height: int, printableWidth: real, printableHeight: real)

  type Driver = int -> Page

  function Ceil(x: real): (r: int)
    ensures r as real - 1.0 < x <= r as real
  {
    -((-x).Floor)
  }

  /** ComputeFinalHeightUnits: the content plus the driver's measured margin, rounded up. */
  function FinalHeight(content: int, height: int, printable: real): (r: int)
    ensures content <= r && content as real + (height as real - printable) <= r as real
    ensures r == content || (r - 1) as real < content as real + (height as real - printable)
  {
    var inset := height as real - printable;
    content + Ceil(if inset < 0.0 then 0.0 else inset)
  }

  const MAX_ATTEMPTS: nat := 4

  datatype Sizing = Sizing(height: int, attempts: nat, page: Page)

  /** The heights tried one after the other, from the probe on. */
  function HeightAt(d: Driver, content: int, probe: int, k: nat): int
  {
    var h := if k == 0 then probe else HeightAt(d, content, probe, k - 1);
    if k == 0 then h else FinalHeight(content, d(h).height, d(h).printableHeight)
  }

  predicate Fits(p: Page, imageHeight: real) { imageHeight <= p.printableHeight }

  /** The driver took the requested size, give or take two hundredths of an inch. */
  predicate Accepted(p: Page, width: int, height: int)
  {
    -2 <= p.width - width <= 2 && -2 <= p.height - height <= 2
  }

  /** The attempt at which the loop stops: the first that fits, or the last it makes. */
  ghost predicate StopsAt(d: Driver, content: int, probe: int, imageHeight: real, k: nat)
  {
    && 1 <= k <= MAX_ATTEMPTS
    && (forall i :: 1 <= i < k ==> !Fits(d(HeightAt(d, content, probe, i)), imageHeight))
    && (k < MAX_ATTEMPTS ==> Fits(d(HeightAt(d, content, probe, k)), imageHeight))
  }

  /** Every height up to the k-th was taken by the driver, to within two hundredths of an inch. */
  ghost predicate TakenUpTo(d: Driver, width: int, content: int, probe: int, k: nat)
  {
    forall i :: 1 <= i <= k ==>
      var h := HeightAt(d, content, probe, i);
      width - 2 <= d(h).width <= width + 2 && h - 2 <= d(h).height <= h + 2
  }

  /** There is one height at which the loop stops. */
  lemma StopsOnce(d: Driver, content: int, probe: int, imageHeight: real, k: nat, n: nat)
    requires StopsAt(d, content, probe, imageHeight, k) && StopsAt(d, content, probe, imageHeight, n)
    ensures k == n
  {
  }

  method Size(d: Driver, width: int, content: int, probe: int, imageHeight: real) returns (s: Option<Sizing>)
    ensures s.Some? ==> StopsAt(d, content, probe, imageHeight, s.value.attempts)
                        && s.value.height == HeightAt(d, content, probe, s.value.attempts)
                        && s.value.page == d(s.value.height)
    ensures s.Some? ==> content <= s.value.height
    ensures s.Some? <==> exists k :: StopsAt(d, content, probe, imageHeight, k)
                                     && TakenUpTo(d, width, content, probe, k)
  {
    var height := FinalHeight(content, d(probe).height, d(probe).printableHeight);
    var attempt := 1;
    while true
      invariant 1 <= attempt <= MAX_ATTEMPTS && height == HeightAt(d, content, probe, attempt) && content <= height
      invariant forall i :: 1 <= i < attempt ==> !Fits(d(HeightAt(d, content, probe, i)), imageHeight)
      invariant TakenUpTo(d, width, content, probe, attempt - 1)
      decreases MAX_ATTEMPTS - attempt
    {
      var page := d(height);
      if !Accepted(page, width, height) {
        assert forall k :: StopsAt(d, content, probe, imageHeight, k) ==> attempt <= k;
        return None;
      }
      if page.printableHeight >= imageHeight || attempt >= MAX_ATTEMPTS {
        assert StopsAt(d, content, probe, imageHeight, attempt);
        return Some(Sizing(height, attempt, page));
      }
      height := FinalHeight(content, page.height, page.printableHeight);
      attempt := attempt + 1;
    }
  }

  datatype Outcome = PreflightOnly | Reported(report: Report)

  /** The height at which the search stops was taken, and the image fits the page that comes with it. */
  ghost predicate Printable(d: Driver, width: int, content: int, probe: int, imageWidth: real, imageHeight: real)
  {
    exists k :: StopsAt(d, content, probe, imageHeight, k) && TakenUpTo(d, width, content, probe, k)
                && imageHeight <= d(HeightAt(d, content, probe, k)).printableHeight
                && imageWidth <= d(HeightAt(d, content, probe, k)).printableWidth
  }

  /**
   * WindowsPrinter.Print: the document is submitted exactly when the printer is ready, the image fits and it is no
   * dry run; whatever throws before the document is submitted is a failure before submission, and
   * whatever throws after is unknown; the page that is submitted is never below the content.
   */
  method Print(ready: bool, d: Driver, width: int, content: int, probe: int, imageWidth: real, imageHeight: real,
               dryRun: bool, throws: bool) returns (out: Outcome, called: bool, height: int)
    ensures out == Reported(FailedBefore) ==> !called
    ensures called <==> out == Reported(SubmittedToSpooler) || out == Reported(SubmissionUnknown)
    ensures called ==> !dryRun && content <= height
                       && imageHeight <= d(height).printableHeight && imageWidth <= d(height).printableWidth
    ensures called ==> (out == Reported(SubmissionUnknown) <==> throws)
    ensures called ==> exists k :: StopsAt(d, content, probe, imageHeight, k)
                                   && height == HeightAt(d, content, probe, k)
    ensures called <==> ready && !dryRun && Printable(d, width, content, probe, imageWidth, imageHeight)
    ensures out == PreflightOnly <==> ready && dryRun && Printable(d, width, content, probe, imageWidth, imageHeight)
    ensures !called && out != PreflightOnly ==> out == Reported(FailedBefore)
  {
    var submissionStarted := false;
    height := 0;
    if !ready {
      return Reported(FailedBefore), false, height;
    }
    var sizing := Size(d, width, content, probe, imageHeight);
    if sizing.None? {
      return Reported(FailedBefore), false, height;
    }
    var page := sizing.value.page;
    height := sizing.value.height;
    forall k | StopsAt(d, content, probe, imageHeight, k) ensures k == sizing.value.attempts {
      StopsOnce(d, content, probe, imageHeight, k, sizing.value.attempts);
    }
    if page.printableWidth < imageWidth || page.printableHeight < imageHeight {
      return Reported(FailedBefore), false, height;
    }
    if dryRun {
      return PreflightOnly, false, height;
    }
    submissionStarted := true;
    called := true;
    if throws {
      out := Reported(if submissionStarted then SubmissionUnknown else FailedBefore);
    } else {
      out := Reported(SubmittedToSpooler);
    }
  }

  // ---------------------------------------------------------------- a margin that grows with the height

  /** The margin of a driver that takes every height and keeps a + h/q of it for itself. */
  function Margin(a: int, q: int, h: int): int
    requires 0 < q
  {
    a + h / q
  }

  ghost predicate Keeps(d: Driver, a: int, q: int)
    requires 0 < q
  {
    forall h {:trigger d(h)} :: d(h).height == h && d(h).printableHeight == (h - Margin(a, q, h)) as real
  }

  /** How much of the content does not fit at the k-th height. */
  function Shortfall(d: Driver, a: int, q: int, content: int, probe: int, k: nat): int
    requires 0 < q
  {
    content - (HeightAt(d, content, probe, k) - Margin(a, q, HeightAt(d, content, probe, k)))
  }

  lemma NextHeight(d: Driver, a: int, q: int, content: int, probe: int, k: nat)
    requires 0 < q && Keeps(d, a, q)
    ensures var m := Margin(a, q, HeightAt(d, content, probe, k));
            HeightAt(d, content, probe, k + 1) == content + if m < 0 then 0 else m
  {
    var h := HeightAt(d, content, probe, k);
    var m := Margin(a, q, h);
    assert d(h).height as real - d(h).printableHeight == m as real;
  }

  lemma MulMore(q: int, m: int, n: int)
    requires 0 < q && m <= n
    ensures q * m <= q * n
  {
  }

  lemma QuotientBounds(n: int, q: int)
    requires 0 < q
    ensures q * (n / q) <= n < q * (n / q) + q
  {
  }

  lemma DivSteps(h: int, s: int, q: int)
    requires 0 < q && 0 <= s
    ensures 0 <= (h + s) / q - h / q <= (s + q - 1) / q
  {
    var x, y, z := h / q, (s + q - 1) / q, (h + s) / q;
    QuotientBounds(h, q);
    QuotientBounds(s + q - 1, q);
    QuotientBounds(h + s, q);
    assert q * (x + y + 1) == q * x + q * y + q;
    assert q * (z + 1) == q * z + q;
    if x + y + 1 <= z {
      MulMore(q, x + y + 1, z);
    }
    if z + 1 <= x {
      MulMore(q, z + 1, x);
    }
  }

  /** One attempt on: the height grows by the shortfall, and falls short by what the margin grew. */
  lemma NextShortfall(d: Driver, a: int, q: int, content: int, probe: int, k: nat)
    requires 0 < q && Keeps(d, a, q) && 0 <= Margin(a, q, HeightAt(d, content, probe, k))
    ensures var h, s := HeightAt(d, content, probe, k), Shortfall(d, a, q, content, probe, k);
            HeightAt(d, content, probe, k + 1) == h + s
            && Shortfall(d, a, q, content, probe, k + 1) == (h + s) / q - h / q
  {
    NextHeight(d, a, q, content, probe, k);
  }

  /** The shortfall shrinks by a factor of about q with every attempt. */
  lemma ShortfallShrinks(d: Driver, a: int, q: int, content: int, probe: int, k: nat)
    requires 0 < q && Keeps(d, a, q) && 0 <= Margin(a, q, HeightAt(d, content, probe, k))
    requires 0 <= Shortfall(d, a, q, content, probe, k)
    ensures 0 <= Shortfall(d, a, q, content, probe, k + 1) <= (Shortfall(d, a, q, content, probe, k) + q - 1) / q
  {
    NextShortfall(d, a, q, content, probe, k);
    DivSteps(HeightAt(d, content, probe, k), Shortfall(d, a, q, content, probe, k), q);
  }

  lemma SmallQuotients(q: int, s: int)
    requires 2 <= q && 0 <= s <= q
    ensures (s + q - 1) / q <= 1
  {
    QuotientBounds(s + q - 1, q);
    if 2 <= (s + q - 1) / q {
      MulMore(q, 2, (s + q - 1) / q);
    }
  }

  /** Two steps of one in a row cannot both raise the quotient. */
  lemma OneStepOnly(h: int, q: int)
    requires 2 <= q && (h + 1) / q - h / q == 1
    ensures (h + 2) / q == (h + 1) / q
  {
    QuotientBounds(h, q);
    QuotientBounds(h + 1, q);
    QuotientBounds(h + 2, q);
    var y, z := (h + 1) / q, (h + 2) / q;
    assert q * y == q * (h / q) + q;
    assert q * (y + 1) == q * y + q && q * (z + 1) == q * z + q;
    if y + 1 <= z {
      MulMore(q, y + 1, z);
    }
    if z + 1 <= y {
      MulMore(q, z + 1, y);
    }
  }

  ghost predicate MarginsNotNegative(d: Driver, a: int, q: int, content: int, probe: int)
    requires 0 < q
  {
    forall k: nat :: 0 <= Margin(a, q, HeightAt(d, content, probe, k))
  }

  /** Four attempts are enough for a first shortfall of up to q. */
  lemma FourAreEnough(d: Driver, a: int, q: int, content: int, probe: int)
    requires 2 <= q && Keeps(d, a, q) && MarginsNotNegative(d, a, q, content, probe)
    requires Shortfall(d, a, q, content, probe, 1) <= q
    ensures exists k :: 1 <= k <= MAX_ATTEMPTS && Shortfall(d, a, q, content, probe, k) <= 0
  {
    var s1, s2, s3, s4 := Shortfall(d, a, q, content, probe, 1), Shortfall(d, a, q, content, probe, 2),
                          Shortfall(d, a, q, content, probe, 3), Shortfall(d, a, q, content, probe, 4);
    if s1 > 0 && s2 > 0 && s3 > 0 {
      ShortfallShrinks(d, a, q, content, probe, 1);
      ShortfallShrinks(d, a, q, content, probe, 2);
      SmallQuotients(q, s1);
      SmallQuotients(q, s2);
      NextShortfall(d, a, q, content, probe, 2);
      NextShortfall(d, a, q, content, probe, 3);
      OneStepOnly(HeightAt(d, content, probe, 2), q);
      assert s4 == 0;
    }
  }

  /** With such a driver, a first shortfall of up to q and an image no taller than the content, the ticket fits. */
  lemma TallTicketFits(d: Driver, a: int, q: int, content: int, probe: int, imageHeight: real, k: nat)
    requires 2 <= q && Keeps(d, a, q) && MarginsNotNegative(d, a, q, content, probe) && imageHeight <= content as real
    requires Shortfall(d, a, q, content, probe, 1) <= q && StopsAt(d, content, probe, imageHeight, k)
    ensures Fits(d(HeightAt(d, content, probe, k)), imageHeight)
  {
    FourAreEnough(d, a, q, content, probe);
    var n :| 1 <= n <= MAX_ATTEMPTS && Shortfall(d, a, q, content, probe, n) <= 0;
    var h := HeightAt(d, content, probe, n);
    assert d(h).printableHeight == (h - Margin(a, q, h)) as real;
    assert Fits(d(h), imageHeight);
  }
}
