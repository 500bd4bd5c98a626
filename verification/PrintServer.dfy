/**
 * One print job on the server: the conditional updates that claim it, permit a submission, accept a
 * result, offer it again, sweep it, suppress it, or let an operator settle it. None means refused.
 */
module PrintServer {
  import opened Common

  datatype Status = Pending | Printing | Printed | Failed | Unknown | Suppressed

  datatype Report = TransportCompleted | SubmittedToSpooler | FailedBefore | SubmissionUnknown

  /** minted counts the attempts given out so far, so that every claim gets a number never used before. */
  datatype Job = Job(status: Status, automatic: bool, attempt: Option<nat>, holder: Option<nat>, started: bool,
                     outcome: Option<Report>, confirmed: bool, minted: nat)

  const NEW_JOB: Job := Job(Pending, true, None, None, false, None, false, 0)

  /** beginPrintAttempt */
  function Claim(j: Job, who: nat): Option<Job>
  {
    if j.status.Pending? then
      Some(j.(status := Printing, attempt := Some(j.minted), holder := Some(who), started := false, outcome := None,
              minted := j.minted + 1))
    else None
  }

  /** startPrintSubmission; inLease says whether the claim is younger than the lease and the printer enabled. */
  function Start(j: Job, who: nat, attempt: nat, inLease: bool): Option<Job>
  {
    if j.status.Printing? && j.attempt == Some(attempt) && j.holder == Some(who) && !j.started && inLease
    then Some(j.(started := true)) else None
  }

  function StatusAfter(r: Report): Status
  {
    match r
    case TransportCompleted => Printed
    case SubmittedToSpooler => Printed
    case FailedBefore => Failed
    case SubmissionUnknown => Unknown
  }

  /** confirmPrintResult: only for the current attempt; repeating the same result is accepted, another is not. */
  function Finish(j: Job, who: nat, attempt: nat, r: Report): Option<Job>
  {
    if j.attempt != Some(attempt) || j.holder != Some(who) then None
    else if j.outcome.Some? then (if j.outcome == Some(r) then Some(j) else None)
    else if !j.status.Printing? && !j.status.Unknown? then None
    else if !r.FailedBefore? && !j.started then None
    else Some(j.(status := StatusAfter(r), outcome := Some(r)))
  }

  /** retryPrintJob: only what is known not to have been submitted. */
  function Retry(j: Job, automatic: bool): Option<Job>
  {
    if j.status.Failed? && j.outcome == Some(FailedBefore)
    then Some(j.(status := Pending, attempt := None, holder := None, started := false, outcome := None,
                 automatic := j.automatic && automatic))
    else None
  }

  /** The sweep of claims that were never started. */
  function SweepUnstarted(j: Job): Option<Job>
  {
    if j.status.Printing? && j.attempt.Some? && !j.started
    then Some(j.(status := Pending, attempt := None, holder := None)) else None
  }

  /** The sweep of submissions that were started and never reported. */
  function SweepStarted(j: Job): Option<Job>
  {
    if j.status.Printing? && j.started then Some(j.(status := Unknown)) else None
  }

  /** suppressAutomaticJobs */
  function Suppress(j: Job): Option<Job>
  {
    if j.automatic && (j.status.Pending? || (j.status.Printing? && !j.started)) then Some(j.(status := Suppressed))
    else None
  }

  /** The write of an operator's "it was printed", which does not look at the job again. */
  function Confirm(j: Job): Job
  {
    j.(status := Printed, outcome := Some(SubmittedToSpooler), confirmed := true)
  }

  /** Steps the server takes on its own or for its staff. */
  datatype Upkeep = Sweep | SweepLate | Offer(automatic: bool) | Hush | Settle

  function Keep(j: Job, u: Upkeep): Option<Job>
  {
    match u
    case Sweep => SweepUnstarted(j)
    case SweepLate => SweepStarted(j)
    case Offer(automatic) => Retry(j, automatic)
    case Hush => Suppress(j)
    case Settle => Some(Confirm(j))
  }

  /** The job is with this attempt, which may have put something on paper. */
  predicate Holds(j: Job, attempt: nat)
  {
    j.attempt == Some(attempt) && j.started && j.outcome != Some(FailedBefore) && attempt < j.minted
    && (j.status.Printing? || j.status.Unknown? || j.status.Printed?)
  }

  /** Nothing the server does on its own takes the job away from an attempt that may have printed. */
  lemma KeepHolds(j: Job, u: Upkeep, attempt: nat)
    requires Holds(j, attempt) && Keep(j, u).Some?
    ensures Holds(Keep(j, u).value, attempt)
  {
  }

  /** The only result that can take it away is an honest or dishonest "failed before submission". */
  lemma FinishHolds(j: Job, who: nat, a: nat, r: Report, attempt: nat)
    requires Holds(j, attempt) && Finish(j, who, a, r).Some?
    ensures Holds(Finish(j, who, a, r).value, attempt) <==> !(r.FailedBefore?)
  {
  }

  /**
   * A job is offered again only after an attempt that was never started, or one that is known to have
   * ended before submission; what became unknown is never offered again.
   */
  lemma OfferedAgain(j: Job, u: Upkeep)
    requires Keep(j, u).Some? && Keep(j, u).value.status.Pending?
    ensures (j.status.Printing? && !j.started) || (j.status.Failed? && j.outcome == Some(FailedBefore))
  {
  }

  /** A repeated result changes nothing, and a different one is refused. */
  lemma FinishTwice(j: Job, who: nat, attempt: nat, r: Report, again: Report)
    requires Finish(j, who, attempt, r).Some?
    ensures var k := Finish(j, who, attempt, r).value;
            Finish(k, who, attempt, again) == if again == r then Some(k) else None
  {
  }
}
