/** Processing-job records over an in-memory table: rows keyed by job id,
    queried with equality filters. Timestamps are milliseconds read from a
    clock that is passed in; job ids are supplied fresh by the caller. */
module ProcessingJobs {
  import opened Common

  /** The job statuses the service writes. */
  datatype JobStatus = Pending | Processing | Completed | Failed | Cancelled {
    function Name(): string {
      match this
      case Pending => "pending"
      case Processing => "processing"
      case Completed => "completed"
      case Failed => "failed"
      case Cancelled => "cancelled"
    }
  }

  /** What the table reports when a single-row query finds no row. */
  const NoSingleRowMessage := "JSON object requested, multiple (or no) rows returned"

  const UserIdRequired := "User ID is required"
  const JobIdRequired := "Job ID is required"

  /** One row of the job table. `status` is free text: updates store what
      the caller passes. */
  datatype Job = Job(id: string, userId: string, status: string,
                     fileName: Option<string>, fileSize: Option<int>, totalPages: Option<int>,
                     chunksTotal: Option<int>, chunksProcessed: int,
                     totalTransactions: int, validatedTransactions: int, finalTransactions: int,
                     progressPercentage: real,
                     startedAt: int, createdAt: int, updatedAt: int, completedAt: Option<int>)

  /** The fields a caller may give when creating a job; `None` is absent. */
  datatype NewJob = NewJob(userId: Option<string>, fileName: Option<string>, fileSize: Option<int>,
                           totalPages: Option<int>, chunksTotal: Option<int>)

  /** `x || null` for text. */
  function TextOrNull(x: Option<string>): (r: Option<string>)
    ensures r.Some? <==> x.Some? && x.value != ""
    ensures r.Some? ==> r == x
  {
    if x.Some? && x.value != "" then x else None
  }

  /** `x || null` for numbers. */
  function NumberOrNull(x: Option<int>): (r: Option<int>)
    ensures r.Some? <==> x.Some? && x.value != 0
    ensures r.Some? ==> r == x
  {
    if x.Some? && x.value != 0 then x else None
  }

  /** The row `createProcessingJob` inserts, or the error it throws. */
  function NewJobRecord(data: NewJob, id: string, now: int): Result<Job> {
    if data.userId.None? || data.userId.value == "" then Err(UserIdRequired)
    else Ok(Job(id, data.userId.value, Pending.Name(),
                TextOrNull(data.fileName), NumberOrNull(data.fileSize), NumberOrNull(data.totalPages),
                NumberOrNull(data.chunksTotal), 0,
                0, 0, 0,
                0.0,
                now, now, now, None))
  }

  /** A job cannot be created without an owner; a new job is pending, under
      the given id and owner, with every counter and the progress at zero,
      all three timestamps now, no completion time, and each optional field
      kept only when it is truthy. */
  lemma NewJobRecordProperties(data: NewJob, id: string, now: int)
    ensures NewJobRecord(data, id, now).Err? <==> data.userId.None? || data.userId.value == ""
    ensures NewJobRecord(data, id, now).Err? ==> NewJobRecord(data, id, now).message == UserIdRequired
    ensures NewJobRecord(data, id, now).Ok? ==>
      var job := NewJobRecord(data, id, now).value;
      && job.id == id && Some(job.userId) == data.userId && job.status == "pending"
      && job.chunksProcessed == 0 && job.totalTransactions == 0
      && job.validatedTransactions == 0 && job.finalTransactions == 0 && job.progressPercentage == 0.0
      && job.startedAt == now && job.createdAt == now && job.updatedAt == now && job.completedAt.None?
      && (job.fileName.Some? <==> data.fileName.Some? && data.fileName.value != "")
      && (job.fileSize.Some? <==> data.fileSize.Some? && data.fileSize.value != 0)
      && (job.totalPages.Some? <==> data.totalPages.Some? && data.totalPages.value != 0)
      && (job.chunksTotal.Some? <==> data.chunksTotal.Some? && data.chunksTotal.value != 0)
  {
  }

  /** The columns an update may carry, every column of a row but its id;
      `None` is a key the caller left out. */
  datatype Patch = Patch(userId: Option<string>, status: Option<string>,
                         fileName: Option<string>, fileSize: Option<int>, totalPages: Option<int>,
                         chunksTotal: Option<int>, chunksProcessed: Option<int>,
                         totalTransactions: Option<int>, validatedTransactions: Option<int>,
                         finalTransactions: Option<int>, progressPercentage: Option<real>,
                         startedAt: Option<int>, createdAt: Option<int>, updatedAt: Option<int>,
                         completedAt: Option<int>)

  /** `toFixed(2)` on a non-negative amount, read back as a number: the
      nearest hundredth, halves rounded up. */
  function Round2(x: real): real {
    ((x * 100.0 + 0.5).Floor as real) / 100.0
  }

  /** The stored progress: processed over total, in percent, when total is positive. */
  function Progress(processed: int, total: int): real {
    if total > 0 then Round2(processed as real / total as real * 100.0) else 0.0
  }

  lemma Round2Bounds(x: real)
    requires 0.0 <= x <= 100.0
    ensures 0.0 <= Round2(x) <= 100.0
  {
    var f := (x * 100.0 + 0.5).Floor;
    assert 0 <= f <= 10000;
  }

  /** Progress stays between 0 and 100 while no more chunks are processed than there are. */
  lemma ProgressBounds(processed: int, total: int)
    requires 0 <= processed <= total
    ensures 0.0 <= Progress(processed, total) <= 100.0
  {
    if total > 0 {
      var ratio := processed as real / total as real;
      assert 0.0 <= ratio <= 1.0;
      Round2Bounds(ratio * 100.0);
    }
  }

  /** The status values that stamp a completion time. */
  predicate Finishes(status: Option<string>) {
    status == Some(Completed.Name()) || status == Some(Failed.Name())
  }

  /** The patch `updateProcessingJob` sends for the caller's `updates` at time `now`. */
  function UpdateData(updates: Patch, now: int): Patch {
    var stamped := updates.(updatedAt := Some(now));
    var measured :=
      if updates.chunksProcessed.Some? && updates.chunksTotal.Some? then
        stamped.(progressPercentage := Some(Progress(updates.chunksProcessed.value, updates.chunksTotal.value)))
      else stamped;
    if Finishes(updates.status) then measured.(completedAt := Some(now)) else measured
  }

  /** The update always stamps the time; the progress is recomputed exactly
      when both chunk counts come with it; the completion time is stamped
      exactly for a completed or failed status (not for cancelled, processing
      or pending); every other column is the caller's. */
  lemma UpdateDataProperties(updates: Patch, now: int)
    ensures UpdateData(updates, now).updatedAt == Some(now)
    ensures updates.chunksProcessed.Some? && updates.chunksTotal.Some? ==>
      UpdateData(updates, now).progressPercentage
        == Some(Progress(updates.chunksProcessed.value, updates.chunksTotal.value))
    ensures !(updates.chunksProcessed.Some? && updates.chunksTotal.Some?) ==>
      UpdateData(updates, now).progressPercentage == updates.progressPercentage
    ensures updates.status in {Some("completed"), Some("failed")} ==> UpdateData(updates, now).completedAt == Some(now)
    ensures updates.status in {Some("cancelled"), Some("processing"), Some("pending"), None} ==>
      UpdateData(updates, now).completedAt == updates.completedAt
    ensures UpdateData(updates, now).(updatedAt := None, progressPercentage := None, completedAt := None)
         == updates.(updatedAt := None, progressPercentage := None, completedAt := None)
  {
  }

  /** The row once a patch is applied: every column the patch carries is overwritten. */
  function ApplyPatch(job: Job, d: Patch): Job {
    job.(userId := d.userId.GetOr(job.userId),
         status := d.status.GetOr(job.status),
         fileName := if d.fileName.Some? then d.fileName else job.fileName,
         fileSize := if d.fileSize.Some? then d.fileSize else job.fileSize,
         totalPages := if d.totalPages.Some? then d.totalPages else job.totalPages,
         chunksTotal := if d.chunksTotal.Some? then d.chunksTotal else job.chunksTotal,
         chunksProcessed := d.chunksProcessed.GetOr(job.chunksProcessed),
         totalTransactions := d.totalTransactions.GetOr(job.totalTransactions),
         validatedTransactions := d.validatedTransactions.GetOr(job.validatedTransactions),
         finalTransactions := d.finalTransactions.GetOr(job.finalTransactions),
         progressPercentage := d.progressPercentage.GetOr(job.progressPercentage),
         startedAt := d.startedAt.GetOr(job.startedAt),
         createdAt := d.createdAt.GetOr(job.createdAt),
         updatedAt := d.updatedAt.GetOr(job.updatedAt),
         completedAt := if d.completedAt.Some? then d.completedAt else job.completedAt)
  }

  /** The table after `update(d).eq('id', jobId)`. */
  function UpdateRows(rows: map<string, Job>, jobId: string, d: Patch): map<string, Job> {
    if jobId in rows then rows[jobId := ApplyPatch(rows[jobId], d)] else rows
  }

  /** A column goes from `before` to `after` under a patch entry: to the
      carried value when there is one, unchanged otherwise. */
  predicate Takes<T(==)>(entry: Option<T>, before: T, after: T) {
    if entry.Some? then after == entry.value else after == before
  }

  /** The same for a column that may hold null: a carried value is stored. */
  predicate TakesSome<T(==)>(entry: Option<T>, before: Option<T>, after: Option<T>) {
    if entry.Some? then after == entry else after == before
  }

  /** An update changes only the row with that id; in it the id stays, every
      column the patch carries takes the carried value and every other
      column keeps its value. */
  lemma UpdateRowsOnlyTarget(rows: map<string, Job>, jobId: string, d: Patch)
    ensures UpdateRows(rows, jobId, d).Keys == rows.Keys
    ensures forall id :: id in rows && id != jobId ==> UpdateRows(rows, jobId, d)[id] == rows[id]
    ensures jobId in rows ==>
      var before, after := rows[jobId], UpdateRows(rows, jobId, d)[jobId];
      && after.id == before.id
      && Takes(d.userId, before.userId, after.userId) && Takes(d.status, before.status, after.status)
      && TakesSome(d.fileName, before.fileName, after.fileName)
      && TakesSome(d.fileSize, before.fileSize, after.fileSize)
      && TakesSome(d.totalPages, before.totalPages, after.totalPages)
      && TakesSome(d.chunksTotal, before.chunksTotal, after.chunksTotal)
      && Takes(d.chunksProcessed, before.chunksProcessed, after.chunksProcessed)
      && Takes(d.totalTransactions, before.totalTransactions, after.totalTransactions)
      && Takes(d.validatedTransactions, before.validatedTransactions, after.validatedTransactions)
      && Takes(d.finalTransactions, before.finalTransactions, after.finalTransactions)
      && Takes(d.progressPercentage, before.progressPercentage, after.progressPercentage)
      && Takes(d.startedAt, before.startedAt, after.startedAt)
      && Takes(d.createdAt, before.createdAt, after.createdAt)
      && Takes(d.updatedAt, before.updatedAt, after.updatedAt)
      && TakesSome(d.completedAt, before.completedAt, after.completedAt)
  {
  }

  /** `getProcessingJob(jobId, userId)`: the row with that id and owner, or
      none when there is no such row. */
  function GetProcessingJob(rows: map<string, Job>, jobId: Option<string>, userId: Option<string>): Result<Option<Job>> {
    if userId.None? || userId.value == "" then Err(UserIdRequired)
    else if jobId.None? || jobId.value == "" then Err(JobIdRequired)
    else if jobId.value in rows && rows[jobId.value].userId == userId.value then Ok(Some(rows[jobId.value]))
    else Ok(None)
  }

  /** Both ids are required, the owner first. A job is returned only to its
      owner; another user's job is reported exactly like a missing one. */
  lemma GetProcessingJobScoped(rows: map<string, Job>, jobId: Option<string>, userId: Option<string>)
    ensures (userId.None? || userId.value == "") ==> GetProcessingJob(rows, jobId, userId) == Err(UserIdRequired)
    ensures userId.Some? && userId.value != "" && (jobId.None? || jobId.value == "") ==>
      GetProcessingJob(rows, jobId, userId) == Err(JobIdRequired)
    ensures GetProcessingJob(rows, jobId, userId).Ok? && GetProcessingJob(rows, jobId, userId).value.Some? ==>
      var job := GetProcessingJob(rows, jobId, userId).value.value;
      Some(job.userId) == userId && jobId.value in rows && rows[jobId.value] == job
    ensures userId.Some? && userId.value != "" && jobId.Some? && jobId.value != "" ==>
      (GetProcessingJob(rows, jobId, userId) == Ok(None) <==>
         jobId.value !in rows || rows[jobId.value].userId != userId.value)
  {
  }

  /** The rows a listing for `userId` with status filter `status` may return. */
  predicate Listed(job: Job, userId: string, status: Option<string>) {
    job.userId == userId && (status.None? || job.status == status.value)
  }

  function Ids(jobs: seq<Job>): set<string> {
    set i | 0 <= i < |jobs| :: jobs[i].id
  }

  /** The row that is created last among `ids`. */
  lemma {:induction false} NewestExists(rows: map<string, Job>, ids: set<string>)
    requires ids != {} && ids <= rows.Keys
    ensures exists id :: id in ids && forall o :: o in ids ==> rows[o].createdAt <= rows[id].createdAt
    decreases |ids|
  {
    var x :| x in ids;
    var rest := ids - {x};
    if rest != {} {
      NewestExists(rows, rest);
      var y :| y in rest && forall o :: o in rest ==> rows[o].createdAt <= rows[y].createdAt;
      if rows[x].createdAt <= rows[y].createdAt {
        assert forall o :: o in ids ==> rows[o].createdAt <= rows[y].createdAt;
      } else {
        assert forall o :: o in ids ==> rows[o].createdAt <= rows[x].createdAt;
      }
    } else {
      assert ids == {x};
    }
  }

  /** Rows expire once completed or failed before the cutoff; a missing
      completion time never compares as earlier. */
  predicate Expired(job: Job, cutoff: int) {
    && (job.status == Completed.Name() || job.status == Failed.Name())
    && job.completedAt.Some? && job.completedAt.value < cutoff
  }

  /** The table after `delete().in('status', [completed, failed]).lt('completed_at', cutoff)`. */
  function Cleanup(rows: map<string, Job>, cutoff: int): map<string, Job> {
    map id | id in rows && !Expired(rows[id], cutoff) :: rows[id]
  }

  /** Cleanup removes exactly the expired rows and leaves the others as they
      were; pending, processing and cancelled jobs always survive; a second
      cleanup with the same cutoff removes nothing more, and a later cutoff
      removes at least as much. */
  lemma CleanupProperties(rows: map<string, Job>, cutoff: int, later: int)
    requires cutoff <= later
    ensures forall id :: id in Cleanup(rows, cutoff) <==> id in rows && !Expired(rows[id], cutoff)
    ensures forall id :: id in Cleanup(rows, cutoff) ==> Cleanup(rows, cutoff)[id] == rows[id]
    ensures forall id :: id in rows && rows[id].status in {"pending", "processing", "cancelled"} ==>
      id in Cleanup(rows, cutoff)
    ensures Cleanup(Cleanup(rows, cutoff), cutoff) == Cleanup(rows, cutoff)
    ensures Cleanup(rows, later).Keys <= Cleanup(rows, cutoff).Keys
  {
  }

  /** Jobs in order of creation, newest first, none twice. */
  predicate NewestFirst(jobs: seq<Job>) {
    forall i, j :: 0 <= i < j < |jobs| ==> jobs[i].id != jobs[j].id && jobs[i].createdAt >= jobs[j].createdAt
  }

  /** Each job is the row stored under its id. */
  predicate AsStored(rows: map<string, Job>, jobs: seq<Job>) {
    forall i :: 0 <= i < |jobs| ==> jobs[i].id in rows && rows[jobs[i].id] == jobs[i]
  }

  /** No row among `ids` is newer than any of `jobs`. */
  predicate NoneNewer(rows: map<string, Job>, ids: set<string>, jobs: seq<Job>)
    requires ids <= rows.Keys
  {
    forall id, i :: id in ids && 0 <= i < |jobs| ==> rows[id].createdAt <= jobs[i].createdAt
  }

  /** What a listing returns: listed rows as stored, newest first, no more
      than the cap, and a listed row is left out only when the cap is full
      and the row is no newer than any row returned. */
  predicate NewestListed(rows: map<string, Job>, userId: string, filter: Option<string>, cap: Option<nat>, jobs: seq<Job>) {
    && AsStored(rows, jobs)
    && (forall i :: 0 <= i < |jobs| ==> Listed(jobs[i], userId, filter))
    && NewestFirst(jobs)
    && (cap.Some? ==> |jobs| <= cap.value)
    && forall id :: id in rows && Listed(rows[id], userId, filter) && id !in Ids(jobs) ==>
         && (cap.Some? && |jobs| == cap.value)
         && forall i :: 0 <= i < |jobs| ==> rows[id].createdAt <= jobs[i].createdAt
  }

  lemma IdsSnoc(jobs: seq<Job>, job: Job)
    ensures Ids(jobs + [job]) == Ids(jobs) + {job.id}
  {
    var longer := jobs + [job];
    forall x | x in Ids(longer) ensures x in Ids(jobs) + {job.id} {
      var i :| 0 <= i < |longer| && longer[i].id == x;
      if i < |jobs| { assert jobs[i].id == x; }
    }
    forall x | x in Ids(jobs) ensures x in Ids(longer) {
      var i :| 0 <= i < |jobs| && jobs[i].id == x;
      assert longer[i].id == x;
    }
    assert longer[|jobs|].id == job.id;
  }

  /** Appending the newest of the rows left keeps the listing in order. */
  lemma TakeOne(rows: map<string, Job>, left: set<string>, jobs: seq<Job>, id: string)
    requires left <= rows.Keys && Ids(jobs) !! left && id in left && rows[id].id == id
    requires AsStored(rows, jobs) && NewestFirst(jobs) && NoneNewer(rows, left, jobs)
    requires forall o :: o in left ==> rows[o].createdAt <= rows[id].createdAt
    ensures AsStored(rows, jobs + [rows[id]]) && NewestFirst(jobs + [rows[id]])
    ensures NoneNewer(rows, left - {id}, jobs + [rows[id]])
    ensures Ids(jobs + [rows[id]]) == Ids(jobs) + {id}
    ensures Ids(jobs + [rows[id]]) + (left - {id}) == Ids(jobs) + left
    ensures Ids(jobs + [rows[id]]) !! left - {id}
  {
    var longer := jobs + [rows[id]];
    IdsSnoc(jobs, rows[id]);
    forall i, j | 0 <= i < j < |longer|
      ensures longer[i].id != longer[j].id && longer[i].createdAt >= longer[j].createdAt
    {
      if j == |jobs| {
        assert jobs[i].id in Ids(jobs);
      } else {
        assert longer[i] == jobs[i] && longer[j] == jobs[j];
      }
    }
    forall o, i | o in left - {id} && 0 <= i < |longer| ensures rows[o].createdAt <= longer[i].createdAt {
      if i < |jobs| { assert longer[i] == jobs[i]; }
    }
  }

  /** The rows under `candidates`, newest first, stopping at the cap. */
  method TakeNewest(rows: map<string, Job>, candidates: set<string>, cap: Option<nat>) returns (jobs: seq<Job>)
    requires candidates <= rows.Keys
    requires forall id :: id in rows ==> rows[id].id == id
    ensures AsStored(rows, jobs) && NewestFirst(jobs)
    ensures Ids(jobs) <= candidates
    ensures cap.Some? ==> |jobs| <= cap.value
    ensures forall id :: id in candidates && id !in Ids(jobs) ==>
      && (cap.Some? && |jobs| == cap.value)
      && forall i :: 0 <= i < |jobs| ==> rows[id].createdAt <= jobs[i].createdAt
  {
    var left := candidates;
    jobs := [];
    while left != {} && (cap.None? || |jobs| < cap.value)
      invariant left <= candidates && Ids(jobs) !! left && Ids(jobs) + left == candidates
      invariant AsStored(rows, jobs) && NewestFirst(jobs)
      invariant NoneNewer(rows, left, jobs)
      invariant cap.Some? ==> |jobs| <= cap.value
      decreases |left|
    {
      NewestExists(rows, left);
      var id :| id in left && forall o :: o in left ==> rows[o].createdAt <= rows[id].createdAt;
      TakeOne(rows, left, jobs, id);
      jobs := jobs + [rows[id]];
      left := left - {id};
    }
  }

  /** The job table. */
  class JobStore {
    var rows: map<string, Job>

    /** Every row sits under its own id. */
    ghost predicate Valid()
      reads this
    {
      forall id :: id in rows ==> rows[id].id == id
    }

    constructor ()
      ensures Valid() && rows == map[]
    {
      rows := map[];
    }

    /** `createProcessingJob`, inserting under the fresh id `freshId` at time `now`. */
    method CreateProcessingJob(data: NewJob, freshId: string, now: int) returns (r: Result<Job>)
      requires Valid() && freshId !in rows
      modifies this
      ensures Valid()
      ensures r == NewJobRecord(data, freshId, now)
      ensures r.Ok? ==> rows == old(rows)[freshId := r.value]
      ensures r.Err? ==> rows == old(rows)
    {
      if data.userId.None? || data.userId.value == "" {
        return Err(UserIdRequired);
      }
      var job := Job(freshId, data.userId.value, Pending.Name(),
                     TextOrNull(data.fileName), NumberOrNull(data.fileSize), NumberOrNull(data.totalPages),
                     NumberOrNull(data.chunksTotal), 0,
                     0, 0, 0,
                     0.0,
                     now, now, now, None);
      rows := rows[freshId := job];
      r := Ok(job);
    }

    /** `updateProcessingJob(jobId, updates)` at time `now`: the updated row,
        or the error of finding no row with that id. */
    method UpdateProcessingJob(jobId: string, updates: Patch, now: int) returns (r: Result<Job>)
      requires Valid()
      modifies this
      ensures Valid()
      ensures rows == UpdateRows(old(rows), jobId, UpdateData(updates, now))
      ensures jobId in old(rows) ==> r == Ok(rows[jobId])
      ensures jobId !in old(rows) ==> r == Err("Failed to update processing job: " + NoSingleRowMessage)
    {
      var d := updates.(updatedAt := Some(now));
      if updates.chunksProcessed.Some? && updates.chunksTotal.Some? {
        d := d.(progressPercentage := Some(Progress(updates.chunksProcessed.value, updates.chunksTotal.value)));
      }
      if updates.status == Some(Completed.Name()) || updates.status == Some(Failed.Name()) {
        d := d.(completedAt := Some(now));
      }
      if jobId !in rows {
        return Err("Failed to update processing job: " + NoSingleRowMessage);
      }
      rows := rows[jobId := ApplyPatch(rows[jobId], d)];
      r := Ok(rows[jobId]);
    }

    /** `getUserProcessingJobs(userId, {status, limit})`: the rows of that
        owner, restricted to the status when one is given, newest first, at
        most `limit` of them when a limit is given. */
    method GetUserProcessingJobs(userId: Option<string>, status: Option<string>, limit: Option<nat>)
      returns (r: Result<seq<Job>>)
      requires Valid()
      ensures (userId.None? || userId.value == "") <==> r.Err?
      ensures r.Err? ==> r.message == UserIdRequired
      ensures r.Ok? ==>
        var filter := if status.Some? && status.value != "" then status else None;
        var cap := if limit.Some? && limit.value > 0 then limit else None;
        NewestListed(rows, userId.value, filter, cap, r.value)
    {
      if userId.None? || userId.value == "" {
        return Err(UserIdRequired);
      }
      var filter := if status.Some? && status.value != "" then status else None;
      var cap := if limit.Some? && limit.value > 0 then limit else None;
      var candidates := set id | id in rows && Listed(rows[id], userId.value, filter);
      var jobs := TakeNewest(rows, candidates, cap);
      r := Ok(jobs);
    }

    /** `cleanupOldJobs(daysOld)`, with `cutoff` the instant `daysOld`
        calendar days before now on the server's local calendar. */
    method CleanupOldJobs(cutoff: int)
      requires Valid()
      modifies this
      ensures Valid()
      ensures rows == Cleanup(old(rows), cutoff)
    {
      rows := map id | id in rows && !Expired(rows[id], cutoff) :: rows[id];
    }
  }
}
