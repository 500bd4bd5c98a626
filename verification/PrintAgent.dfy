/**
 * The print agent's durable table: one row per job, overwritten ahead of every step that cannot be
 * taken back. The rows are what a restart sees.
 */
module PrintAgent {
  import opened Common
  import opened PrintServer

  datatype RowState = Received | SubmissionStarted | PrintInvoked | ResultKnown | Acked

  datatype Row = Row(attempt: nat, state: RowState, result: Option<Report>, ackedAt: Option<int>)

  function RowReceived(attempt: nat): Row { Row(attempt, Received, None, None) }

  // Each of these is an UPDATE of the job's row, and does nothing when there is none.

  function MarkStarted(row: Option<Row>): Option<Row>
  {
    match row case None => None case Some(r) => Some(r.(state := SubmissionStarted))
  }

  function MarkInvoked(row: Option<Row>): Option<Row>
  {
    match row case None => None case Some(r) => Some(r.(state := PrintInvoked))
  }

  function MarkResult(row: Option<Row>, out: Report): Option<Row>
  {
    match row case None => None case Some(r) => Some(r.(state := ResultKnown, result := Some(out)))
  }

  function MarkAcked(row: Option<Row>, now: int): Option<Row>
  {
    match row case None => None case Some(r) => Some(r.(state := Acked, ackedAt := Some(now)))
  }

  predicate Prunable(row: Row, cutoff: int) { row.state.Acked? && row.ackedAt.Some? && row.ackedAt.value < cutoff }

  function Unresolved(rows: map<nat, Row>): set<nat> { set job | job in rows && !rows[job].state.Acked? }

  class AgentDatabase {
    var rows: map<nat, Row>

    /** The row of one job, if any. */
    function At(job: nat): Option<Row>
      reads this
    {
      if job in rows then Some(rows[job]) else None
    }

    ghost predicate OthersKept(was: map<nat, Row>, job: nat)
      reads this
    {
      forall other :: other != job ==> (other in rows <==> other in was) && (other in was ==> rows[other] == was[other])
    }

    constructor ()
      ensures rows == map[]
    {
      rows := map[];
    }

    method RecordReceived(job: nat, attempt: nat)
      modifies this
      ensures At(job) == Some(RowReceived(attempt)) && OthersKept(old(rows), job)
    {
      rows := rows[job := RowReceived(attempt)];
    }

    method RecordSubmissionStarted(job: nat)
      modifies this
      ensures At(job) == MarkStarted(old(At(job))) && OthersKept(old(rows), job)
    {
      if job in rows {
        rows := rows[job := rows[job].(state := SubmissionStarted)];
      }
    }

    method RecordPrintInvoked(job: nat)
      modifies this
      ensures At(job) == MarkInvoked(old(At(job))) && OthersKept(old(rows), job)
    {
      if job in rows {
        rows := rows[job := rows[job].(state := PrintInvoked)];
      }
    }

    method RecordResultKnown(job: nat, result: Report)
      modifies this
      ensures At(job) == MarkResult(old(At(job)), result) && OthersKept(old(rows), job)
    {
      if job in rows {
        rows := rows[job := rows[job].(state := ResultKnown, result := Some(result))];
      }
    }

    method RecordAcked(job: nat, now: int)
      modifies this
      ensures At(job) == MarkAcked(old(At(job)), now) && OthersKept(old(rows), job)
      ensures Unresolved(rows) == old(Unresolved(rows)) - {job}
    {
      if job in rows {
        rows := rows[job := rows[job].(state := Acked, ackedAt := Some(now))];
      }
    }

    /** Everything the server has not acknowledged, each job once. */
    method GetUnresolved() returns (found: map<nat, Row>)
      ensures found.Keys == Unresolved(rows)
      ensures forall job :: job in found ==> Some(found[job]) == At(job)
    {
      found := map[];
      var left := rows.Keys;
      while left != {}
        invariant left <= rows.Keys
        invariant found.Keys == Unresolved(rows) - left
        invariant forall job :: job in found ==> job in rows && found[job] == rows[job]
      {
        var job :| job in left;
        if !rows[job].state.Acked? {
          found := found[job := rows[job]];
        }
        left := left - {job};
      }
    }

    /** Housekeeping: only acknowledged rows go, and nothing unresolved with them. */
    method PruneAcked(cutoff: int)
      modifies this
      ensures Unresolved(rows) == old(Unresolved(rows))
      ensures forall job ::
                At(job) == match old(At(job))
                           case None => None
                           case Some(r) =>
                             if r.state == Acked && r.ackedAt.Some? && r.ackedAt.value < cutoff then None else Some(r)
    {
      rows := map job | job in rows && !Prunable(rows[job], cutoff) :: rows[job];
    }
  }
}
