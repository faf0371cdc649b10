/** The jobs table and the repository calls on it. */
module JobStore {
  import opened Text
  import opened Errors
  import opened Jobs

  type Rows = map<JobId, Job>

  /** Any failure of the database driver, as the repository wraps it. */
  const DB_ERROR: Err := Wrap(Plain)

  function GetJob(rows: Rows, id: JobId, ok: bool): Result<Job> {
    if !ok then Fail(DB_ERROR)
    else if id !in rows then Fail(Wrap(Sentinel(JobNotFound)))
    else Ok(rows[id])
  }

  /** A job with this provider task id. */
  ghost function ByTask(rows: Rows, task: string): (found: Option<JobId>)
    ensures found.Some? ==> found.value in rows && rows[found.value].taskId == Some(task)
    ensures found.None? ==> forall id :: id in rows ==> rows[id].taskId != Some(task)
  {
    if exists id :: id in rows && rows[id].taskId == Some(task) then
      var id :| id in rows && rows[id].taskId == Some(task);
      Some(id)
    else None
  }

  ghost function GetJobByTask(rows: Rows, task: string, ok: bool): Result<Job> {
    if !ok then Fail(DB_ERROR)
    else if ByTask(rows, task).None? then Fail(Wrap(Sentinel(JobNotFound)))
    else Ok(rows[ByTask(rows, task).value])
  }

  /** The columns the update statement sets; identity and parameters stay. */
  function Patched(stored: Job, j: Job): Job {
    stored.(status := j.status, taskId := j.taskId, error := j.error,
            attempts := j.attempts, startedAt := j.startedAt, finishedAt := j.finishedAt)
  }

  /** The unique index on task ids, and the row to update, must allow the statement. */
  predicate Writable(rows: Rows, j: Job) {
    j.id in rows && forall k :: k in rows && k != j.id && j.taskId.Some? ==> rows[k].taskId != j.taskId
  }

  function Written(rows: Rows, j: Job, how: WriteOutcome): Rows {
    if how != NotWritten && Writable(rows, j) then rows[j.id := Patched(rows[j.id], j)] else rows
  }

  function WriteResult(rows: Rows, j: Job, how: WriteOutcome): Result<Job> {
    if how == WrittenRead && Writable(rows, j) then Ok(Patched(rows[j.id], j)) else Fail(DB_ERROR)
  }

  /** No two jobs share a task id, so a callback always reaches the same job. */
  ghost predicate TasksUnique(rows: Rows) {
    forall a, b :: a in rows && b in rows && a != b && rows[a].taskId.Some? ==> rows[a].taskId != rows[b].taskId
  }

  lemma ByTaskIs(rows: Rows, id: JobId, task: string)
    requires TasksUnique(rows) && id in rows && rows[id].taskId == Some(task)
    ensures ByTask(rows, task) == Some(id)
  {
  }

  /** The update is allowed if and only if the row is there and task ids stay unique. */
  lemma WritableIff(rows: Rows, j: Job)
    requires TasksUnique(rows)
    ensures Writable(rows, j) <==> j.id in rows && TasksUnique(rows[j.id := rows[j.id].(taskId := j.taskId)])
  {
    if j.id in rows {
      var rows' := rows[j.id := rows[j.id].(taskId := j.taskId)];
      assert j.id in rows' && rows'[j.id].taskId == j.taskId;
      assert forall k :: k in rows && k != j.id ==> k in rows' && rows'[k] == rows[k];
    }
  }

  lemma WriteKeepsTasksUnique(rows: Rows, j: Job, how: WriteOutcome)
    requires TasksUnique(rows)
    ensures TasksUnique(Written(rows, j, how))
  {
  }

  class JobRepo {
    var rows: Rows

    constructor ()
      ensures rows == map[]
    {
      rows := map[];
    }

    /** Insert, then read back. The primary key refuses an id that is in the table. */
    method CreateJob(j: Job, inserted: bool, readOk: bool) returns (r: Result<Job>)
      modifies this
      ensures rows == if inserted && j.id !in old(rows) then old(rows)[j.id := j] else old(rows)
      ensures r == if inserted && j.id !in old(rows) && readOk then Ok(j) else Fail(DB_ERROR)
    {
      if !inserted || j.id in rows {
        return Fail(DB_ERROR);
      }
      rows := rows[j.id := j];
      r := Get(j.id, readOk);
    }

    /** Update, then read back: the write may land although the call fails. */
    method UpdateJob(j: Job, how: WriteOutcome) returns (r: Result<Job>)
      modifies this
      ensures rows == Written(old(rows), j, how)
      ensures r == WriteResult(old(rows), j, how)
      ensures rows == if how == NotWritten || !Writable(old(rows), j) then old(rows)
                      else old(rows)[j.id := j.(id := old(rows)[j.id].id, user := old(rows)[j.id].user,
                                                params := old(rows)[j.id].params)]
      ensures r.Ok? <==> how == WrittenRead && Writable(old(rows), j)
      ensures r == if r.Ok? then Ok(rows[j.id]) else Fail(Wrap(Plain))
    {
      if how == NotWritten || !Writable(rows, j) {
        return Fail(DB_ERROR);
      }
      rows := rows[j.id := Patched(rows[j.id], j)];
      r := Get(j.id, how == WrittenRead);
    }

    method Get(id: JobId, ok: bool) returns (r: Result<Job>)
      ensures r == GetJob(rows, id, ok)
      ensures r == if !ok then Fail(Wrap(Plain))
                   else if id in rows then Ok(rows[id])
                   else Fail(Wrap(Sentinel(JobNotFound)))
    {
      if !ok {
        return Fail(DB_ERROR);
      }
      if id !in rows {
        return Fail(Wrap(Sentinel(JobNotFound)));
      }
      return Ok(rows[id]);
    }

    method GetBySunoTask(task: string, ok: bool) returns (r: Result<Job>)
      requires TasksUnique(rows)
      ensures r == GetJobByTask(rows, task, ok)
      ensures !ok ==> r == Fail(Wrap(Plain))
      ensures ok ==> forall id :: id in rows && rows[id].taskId == Some(task) ==> r == Ok(rows[id])
      ensures ok && (forall id :: id in rows ==> rows[id].taskId != Some(task)) ==>
                r == Fail(Wrap(Sentinel(JobNotFound)))
    {
      if !ok {
        return Fail(DB_ERROR);
      }
      if id :| id in rows && rows[id].taskId == Some(task) {
        ByTaskIs(rows, id, task);
        return Ok(rows[id]);
      }
      return Fail(Wrap(Sentinel(JobNotFound)));
    }
  }
}
