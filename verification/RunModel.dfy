/** Test runs, their items, automation artifacts and repair jobs: tables and one function per transaction. */
module RunModel {
  import opened Results
  import Text

  datatype RunStatus = Pending | Running | Completed | Failed

  datatype Verdict = Passed | ProductFailed | AutomationError | InfraError | TimedOut | Blocked

  /** Removed marks a row a reviewer has deleted: no query sees it, but the rows after it keep their positions. */
  datatype ItemStatus = NotRun | Done(verdict: Verdict) | Removed

  datatype Run = Run(status: RunStatus, attemptCount: nat, requested: bool, nextAttemptAt: int,
                     lease: Option<int>, analysis: Option<nat>)

  datatype Item = Item(run: nat, testCase: nat, artifact: Option<nat>, sourceHash: string, attempt: nat,
                       status: ItemStatus, snapshot: string, expectedHash: string)

  datatype Approval = Draft | Approved | Rejected

  datatype Artifact = Artifact(testCase: nat, sourceHash: string, expectedHash: string, approval: Approval,
                               assertions: seq<string>, analysis: Option<nat>)

  datatype JobStatus = Queued | Repairing | WaitingReview | JobApproved | JobRejected | Unrepairable | JobFailed

  datatype Job = Job(item: nat, source: nat, repaired: Option<nat>, attempt: nat, status: JobStatus,
                     queueAttempts: nat, nextAttemptAt: int, lease: Option<int>,
                     expectedHash: string, beforeHash: string, beforeAssertions: seq<string>)

  /** The tables. A row's identifier is its position; scope says of a run's test cases whether they are included. */
  datatype Db = Db(runs: seq<Run>, items: seq<Item>, artifacts: seq<Artifact>, jobs: seq<Job>,
                   scope: map<(nat, nat), bool>)

  /** What a worker reports for one item. */
  datatype Outcome = Outcome(item: nat, artifact: Option<nat>, sourceHash: string, verdict: Verdict)

  datatype ScopedCase = ScopedCase(testCase: nat, snapshot: string, expectedHash: string)

  // ---- creation ----

  function FirstTry(run: nat, c: ScopedCase): Item {
    Item(run, c.testCase, None, "", 1, NotRun, c.snapshot, c.expectedHash)
  }

  function ScopeRows(r: nat, included: set<nat>, left: set<nat>): map<(nat, nat), bool> {
    map t | t in included + left :: (r, t) := t in included
  }

  /**
   * A run starts pending, at attempt 0, with one first-attempt item per included case; left are the other cases. Some
   * case is always included: a selection that comes out empty is replaced by the whole release, which has cases.
   */
  function CreateRun(db: Db, cases: seq<ScopedCase>, left: set<nat>, analysis: Option<nat>): Result<Db> {
    if cases == [] then Err(NotFound)
    else if exists i, j :: 0 <= i < j < |cases| && cases[i].testCase == cases[j].testCase then Err(ConstraintViolated)
    else
      var r := |db.runs|;
      Ok(db.(runs := db.runs + [Run(Pending, 0, false, 0, None, analysis)],
             items := db.items + seq(|cases|, k requires 0 <= k < |cases| => FirstTry(r, cases[k])),
             scope := db.scope + ScopeRows(r, set c | c in cases :: c.testCase, left)))
  }

  // ---- scope decisions ----

  predicate Live(item: Item) {
    item.status != Removed
  }

  predicate Unstarted(item: Item, r: nat, testCase: nat) {
    item.run == r && item.testCase == testCase && item.status == NotRun
  }

  predicate AnyUnstarted(items: seq<Item>, r: nat, testCase: nat) {
    exists i :: 0 <= i < |items| && Unstarted(items[i], r, testCase)
  }

  /** DELETE of a case's items that have not run. */
  function Excluded(items: seq<Item>, r: nat, testCase: nat): (after: seq<Item>)
    ensures |after| == |items|
    ensures forall i :: 0 <= i < |items| ==>
              after[i] == if Unstarted(items[i], r, testCase) then items[i].(status := Removed) else items[i]
  {
    seq(|items|, i requires 0 <= i < |items| => if Unstarted(items[i], r, testCase) then items[i].(status := Removed) else items[i])
  }

  predicate AttemptExists(items: seq<Item>, r: nat, testCase: nat, attempt: nat) {
    exists i :: 0 <= i < |items| && Live(items[i]) && items[i].run == r && items[i].testCase == testCase &&
                items[i].attempt == attempt
  }

  /** INSERT of a first try, unless the case already has one. */
  function Included(items: seq<Item>, r: nat, c: ScopedCase): seq<Item> {
    if AttemptExists(items, r, c.testCase, 1) then items else items + [FirstTry(r, c)]
  }

  /** A reviewer takes a case into a run's scope or out of it. The run may be in any state. */
  function DecideScope(db: Db, r: nat, c: ScopedCase, wanted: bool): Result<Db> {
    var key := (r, c.testCase);
    if r >= |db.runs| || key !in db.scope then Err(NotFound)
    else if db.scope[key] == wanted then Ok(db)
    else if wanted then Ok(db.(items := Included(db.items, r, c), scope := db.scope[key := true]))
    else if !AnyUnstarted(db.items, r, c.testCase) then Err(UnsafeChange)
    else Ok(db.(items := Excluded(db.items, r, c.testCase), scope := db.scope[key := false]))
  }

  // ---- the run queue ----

  function SetRun(db: Db, r: nat, run: Run): Db
    requires r < |db.runs|
  {
    db.(runs := db.runs[r := run])
  }

  function Request(db: Db, r: nat, now: int): Result<Db> {
    if r >= |db.runs| then Err(NotFound)
    else if db.runs[r].status != Pending then Err(NotRequestable)
    else Ok(SetRun(db, r, db.runs[r].(requested := true, nextAttemptAt := now)))
  }

  predicate LeaseFree(lease: Option<int>, now: int) {
    lease == None || lease.value <= now
  }

  /** A run the claim query may pick. Rows locked by other sessions are skipped, so any such run can come next. */
  predicate Claimable(db: Db, r: nat, now: int) {
    && r < |db.runs| && db.runs[r].status == Pending && db.runs[r].requested
    && db.runs[r].nextAttemptAt <= now && LeaseFree(db.runs[r].lease, now)
  }

  function ClaimRun(db: Db, r: nat, now: int, lease: nat): Db
    requires r < |db.runs|
  {
    var run := db.runs[r];
    SetRun(db, r, run.(status := Running, attemptCount := run.attemptCount + 1, lease := Some(now + lease)))
  }

  /** The guard of every write a worker makes: WHERE id, status RUNNING and its own attempt number. */
  predicate HeldAt(db: Db, r: nat, token: nat) {
    r < |db.runs| && db.runs[r].status == Running && db.runs[r].attemptCount == token
  }

  function RenewRun(db: Db, r: nat, token: nat, now: int, lease: nat): Result<Db> {
    if !HeldAt(db, r, token) then Err(LeaseLost)
    else Ok(SetRun(db, r, db.runs[r].(lease := Some(now + lease))))
  }

  function RetryOrFail(db: Db, r: nat, token: nat, maxAttempts: int, now: int, delay: nat): Result<Db> {
    if !HeldAt(db, r, token) then Err(LeaseLost)
    else
      var run := db.runs[r];
      if run.attemptCount >= maxAttempts then Ok(SetRun(db, r, run.(status := Failed, lease := None)))
      else if run.attemptCount == 0 then Err(ConstraintViolated)
      else Ok(SetRun(db, r, run.(status := Pending, attemptCount := run.attemptCount - 1,
                                 nextAttemptAt := now + delay, lease := None)))
  }

  /** The items LoadAttempt hands to a worker. */
  predicate InAttempt(item: Item, r: nat, token: nat) {
    item.run == r && item.attempt == token && Live(item)
  }

  // ---- saving an attempt ----

  /** The row trigger and the pairing check on test_run_items. */
  predicate BindingAllowed(db: Db, item: Item, o: Outcome) {
    && (o.artifact == None <==> o.sourceHash == "")
    && ((o.artifact == item.artifact && o.sourceHash == item.sourceHash) ||
        (item.artifact == None && item.sourceHash == "" && o.artifact.Some? && o.artifact.value < |db.artifacts| &&
         var a := db.artifacts[o.artifact.value];
         a.testCase == item.testCase && a.approval == Approved && a.sourceHash == o.sourceHash &&
         a.expectedHash == item.expectedHash))
  }

  function Finished(item: Item, o: Outcome): Item {
    item.(artifact := o.artifact, sourceHash := o.sourceHash, status := Done(o.verdict))
  }

  function NextTry(item: Item): Item {
    item.(attempt := item.attempt + 1, status := NotRun)
  }

  predicate Retries(o: Outcome, token: nat, maxInfra: int) {
    o.verdict == InfraError && token < maxInfra
  }

  function SaveOutcome(db: Db, r: nat, token: nat, o: Outcome, maxInfra: int): Result<Db> {
    if !(o.item < |db.items| && InAttempt(db.items[o.item], r, token) && db.items[o.item].status == NotRun) then
      Err(LeaseLost)
    else if !BindingAllowed(db, db.items[o.item], o) then Err(ConstraintViolated)
    else
      var item := Finished(db.items[o.item], o);
      var items := db.items[o.item := item];
      if !Retries(o, token, maxInfra) then Ok(db.(items := items))
      else if AttemptExists(items, r, item.testCase, token + 1) then Err(ConstraintViolated)
      else Ok(db.(items := items + [NextTry(item)]))
  }

  function SaveOutcomes(db: Db, r: nat, token: nat, os: seq<Outcome>, maxInfra: int): Result<Db> {
    if os == [] then Ok(db)
    else
      var before :- SaveOutcomes(db, r, token, os[..|os| - 1], maxInfra);
      SaveOutcome(before, r, token, os[|os| - 1], maxInfra)
  }

  predicate AnyRetry(os: seq<Outcome>, token: nat, maxInfra: int) {
    exists o :: o in os && Retries(o, token, maxInfra)
  }

  function CloseAttempt(db: Db, r: nat, token: nat, retry: bool, now: int, delay: nat): Result<Db> {
    if !HeldAt(db, r, token) then Err(LeaseLost)
    else
      var run := db.runs[r];
      Ok(SetRun(db, r, if retry then run.(status := Pending, nextAttemptAt := now + delay, lease := None)
                       else run.(status := Completed, lease := None)))
  }

  /** Save: all outcomes and the run's new status in one transaction, or nothing. */
  function Save(db: Db, r: nat, token: nat, os: seq<Outcome>, maxInfra: int, now: int, delay: nat): Result<Db> {
    if os == [] then Err(InvalidInput)
    else
      var written :- SaveOutcomes(db, r, token, os, maxInfra);
      CloseAttempt(written, r, token, AnyRetry(os, token, maxInfra), now, delay)
  }

  /** A human corrects the verdict of a finished item, never while its run is being executed. */
  function Reclassify(db: Db, i: nat, verdict: Verdict): Result<Db> {
    if i < |db.items| && db.items[i].status.Done? && db.items[i].run < |db.runs| &&
       db.runs[db.items[i].run].status != Running
    then Ok(db.(items := db.items[i := db.items[i].(status := Done(verdict))]))
    else Err(NotFound)
  }

  // ---- artifacts and their review ----

  /** A JSONB column refuses the character NUL. */
  predicate Storable(assertions: seq<string>) {
    forall v :: v in assertions ==> Text.NUL !in v
  }

  /** Generation stores a new draft; its columns hold hexadecimal digests, never the empty text. */
  function AddDraft(db: Db, artifact: Artifact): Result<Db> {
    if artifact.sourceHash == "" || !Storable(artifact.assertions) then Err(ConstraintViolated)
    else Ok(db.(artifacts := db.artifacts + [artifact.(approval := Draft)]))
  }

  predicate AwaitsReviewOf(job: Job, artifact: nat) {
    job.status == WaitingReview && job.repaired == Some(artifact)
  }

  function FirstAwaiting(jobs: seq<Job>, artifact: nat): (j: Option<nat>)
    ensures j.Some? ==> j.value < |jobs| && AwaitsReviewOf(jobs[j.value], artifact)
    ensures j.None? ==> forall k :: 0 <= k < |jobs| ==> !AwaitsReviewOf(jobs[k], artifact)
  {
    if jobs == [] then None
    else if AwaitsReviewOf(jobs[|jobs| - 1], artifact) then Some(|jobs| - 1)
    else FirstAwaiting(jobs[..|jobs| - 1], artifact)
  }

  function Decided(job: Job, artifact: nat, approve: bool): Job {
    if AwaitsReviewOf(job, artifact) then job.(status := if approve then JobApproved else JobRejected) else job
  }

  function DecideJobs(jobs: seq<Job>, artifact: nat, approve: bool): (r: seq<Job>)
    ensures |r| == |jobs|
    ensures forall k :: 0 <= k < |jobs| ==> r[k] == Decided(jobs[k], artifact, approve)
  {
    seq(|jobs|, k requires 0 <= k < |jobs| => Decided(jobs[k], artifact, approve))
  }

  /** COALESCE(max(attempt_number), 0) over one run. */
  function MaxAttempt(items: seq<Item>, r: nat): nat {
    if items == [] then 0
    else
      var last, rest := items[|items| - 1], MaxAttempt(items[..|items| - 1], r);
      if last.run == r && Live(last) && last.attempt > rest then last.attempt else rest
  }

  /** An approved repair puts the repaired item back into its finished run, one attempt later. */
  function RequeueRun(db: Db, source: nat, artifact: nat, now: int): Result<Db> {
    if !(source < |db.items| && db.items[source].status == Done(AutomationError) && db.items[source].run < |db.runs| &&
         db.runs[db.items[source].run].status in {Completed, Failed}) then Err(RepairNotEligible)
    else
      var s := db.items[source];
      var next := MaxAttempt(db.items, s.run) + 1;
      if !(artifact < |db.artifacts| && db.artifacts[artifact].approval == Approved &&
           db.artifacts[artifact].testCase == s.testCase && db.artifacts[artifact].expectedHash == s.expectedHash)
      then Err(RepairNotEligible)
      else if db.artifacts[artifact].sourceHash == "" then Err(ConstraintViolated)
      else
        var item := Item(s.run, s.testCase, Some(artifact), db.artifacts[artifact].sourceHash, next, NotRun,
                         s.snapshot, s.expectedHash);
        var run := db.runs[s.run].(status := Pending, attemptCount := next - 1, requested := true,
                                   nextAttemptAt := now, lease := None);
        Ok(SetRun(db, s.run, run).(items := db.items + [item]))
  }

  /** Every first-attempt case of the run has an approved artifact made for the run's analysis. */
  predicate FullyAutomated(db: Db, r: nat)
    requires r < |db.runs|
  {
    forall i :: 0 <= i < |db.items| && InAttempt(db.items[i], r, 1) ==>
      exists a :: 0 <= a < |db.artifacts| && db.artifacts[a].testCase == db.items[i].testCase &&
                  db.artifacts[a].analysis == db.runs[r].analysis && db.artifacts[a].approval == Approved
  }

  function AutoQueued(db: Db, r: nat, analysis: Option<nat>, now: int): Run
    requires r < |db.runs|
  {
    var run := db.runs[r];
    if run.status == Pending && analysis.Some? && run.analysis == analysis && FullyAutomated(db, r)
    then run.(requested := true, nextAttemptAt := now) else run
  }

  /** The last statement of an approval queues the pending runs that have become fully automated. */
  function AutoQueue(db: Db, analysis: Option<nat>, now: int): Db {
    db.(runs := seq(|db.runs|, r requires 0 <= r < |db.runs| => AutoQueued(db, r, analysis, now)))
  }

  /** Review of a draft artifact, with everything an approval of a repair sets off. */
  function Review(db: Db, id: nat, approve: bool, now: int): Result<Db> {
    if id >= |db.artifacts| then Err(NotFound)
    else if db.artifacts[id].approval != Draft then Err(AlreadyReviewed)
    else
      var job := FirstAwaiting(db.jobs, id);
      var decided := db.(artifacts := db.artifacts[id := db.artifacts[id].(approval := if approve then Approved else Rejected)],
                         jobs := DecideJobs(db.jobs, id, approve));
      if !approve then Ok(decided)
      else if job.None? then Ok(AutoQueue(decided, decided.artifacts[id].analysis, now))
      else
        var requeued :- RequeueRun(decided, db.jobs[job.value].item, id, now);
        Ok(AutoQueue(requeued, decided.artifacts[id].analysis, now))
  }

  // ---- repair jobs ----

  predicate Active(status: JobStatus) {
    status in {Queued, Repairing, WaitingReview}
  }

  /** The run and the test case a repair job belongs to. */
  function JobKey(items: seq<Item>, job: Job): (nat, nat) {
    if job.item < |items| then (items[job.item].run, items[job.item].testCase) else (0, 0)
  }

  function ActiveJob(db: Db, key: (nat, nat)): (j: Option<nat>)
    ensures j.Some? ==> j.value < |db.jobs| && JobKey(db.items, db.jobs[j.value]) == key && Active(db.jobs[j.value].status)
    ensures j.None? ==> forall k :: 0 <= k < |db.jobs| && JobKey(db.items, db.jobs[k]) == key ==> !Active(db.jobs[k].status)
    decreases |db.jobs|
  {
    if db.jobs == [] then None
    else
      var last := |db.jobs| - 1;
      if JobKey(db.items, db.jobs[last]) == key && Active(db.jobs[last].status) then Some(last)
      else ActiveJob(db.(jobs := db.jobs[..last]), key)
  }

  function MaxJobAttempt(items: seq<Item>, jobs: seq<Job>, key: (nat, nat)): nat {
    if jobs == [] then 0
    else
      var last, rest := jobs[|jobs| - 1], MaxJobAttempt(items, jobs[..|jobs| - 1], key);
      if JobKey(items, last) == key && last.attempt > rest then last.attempt else rest
  }

  /** RequestRepair returns the job that is already active, or queues a new one. */
  function RequestRepair(db: Db, i: nat, maxRepairs: int, now: int): Result<(Db, nat)> {
    if !(1 <= maxRepairs <= 3) then Err(InvalidInput)
    else if !(i < |db.items| && Live(db.items[i]) && db.items[i].run < |db.runs| && db.items[i].artifact.Some? &&
              db.items[i].artifact.value < |db.artifacts| &&
              db.artifacts[db.items[i].artifact.value].testCase == db.items[i].testCase &&
              db.artifacts[db.items[i].artifact.value].approval == Approved) then Err(NotFound)
    else
      var item := db.items[i];
      var source := db.artifacts[item.artifact.value];
      var key := (item.run, item.testCase);
      if item.status != Done(AutomationError) || source.expectedHash != item.expectedHash then Err(RepairNotEligible)
      else
        var active := ActiveJob(db, key);
        if active.Some? then Ok((db, active.value))
        else
          var attempt := MaxJobAttempt(db.items, db.jobs, key) + 1;
          if attempt > maxRepairs then Err(RepairLimit)
          else
            var job := Job(i, item.artifact.value, None, attempt, Queued, 0, now, None,
                           item.expectedHash, source.sourceHash, source.assertions);
            Ok((db.(jobs := db.jobs + [job]), |db.jobs|))
  }

  function SetJob(db: Db, j: nat, job: Job): Db
    requires j < |db.jobs|
  {
    db.(jobs := db.jobs[j := job])
  }

  predicate RepairClaimable(db: Db, j: nat, now: int) {
    && j < |db.jobs| && db.jobs[j].status == Queued && db.jobs[j].nextAttemptAt <= now
    && LeaseFree(db.jobs[j].lease, now)
  }

  function ClaimRepair(db: Db, j: nat, now: int, lease: nat): Db
    requires j < |db.jobs|
  {
    var job := db.jobs[j];
    SetJob(db, j, job.(status := Repairing, queueAttempts := job.queueAttempts + 1, lease := Some(now + lease)))
  }

  predicate RepairHeldAt(db: Db, j: nat, token: nat) {
    j < |db.jobs| && db.jobs[j].status == Repairing && db.jobs[j].queueAttempts == token
  }

  /** LoadRepairSubject: the source artifact, provided nothing the job pinned has changed. */
  function LoadRepairSubject(db: Db, j: nat, token: nat): Result<Artifact> {
    if !RepairHeldAt(db, j, token) then Err(RepairLeaseLost)
    else
      var job := db.jobs[j];
      if job.item < |db.items| && job.source < |db.artifacts| &&
         db.items[job.item].status == Done(AutomationError) && db.items[job.item].expectedHash == job.expectedHash &&
         db.artifacts[job.source].sourceHash == job.beforeHash && db.artifacts[job.source].expectedHash == job.expectedHash
      then Ok(db.artifacts[job.source]) else Err(RepairLeaseLost)
  }

  function RenewRepair(db: Db, j: nat, token: nat, now: int, lease: nat): Result<Db> {
    if !RepairHeldAt(db, j, token) then Err(RepairLeaseLost)
    else Ok(SetJob(db, j, db.jobs[j].(lease := Some(now + lease))))
  }

  /** CompleteRepair stores the proposal as a new draft next to its ancestor and ends the job's work. */
  function CompleteRepair(db: Db, j: nat, token: nat, subject: Artifact, afterHash: string,
                          assertions: seq<string>): Result<Db> {
    if !Storable(assertions) then Err(ConstraintViolated)
    else if !RepairHeldAt(db, j, token) then Err(RepairLeaseLost)
    else
      var draft := Artifact(subject.testCase, afterHash, subject.expectedHash, Draft, assertions, subject.analysis);
      var job := db.jobs[j].(status := WaitingReview, repaired := Some(|db.artifacts|), lease := None);
      Ok(SetJob(db, j, job).(artifacts := db.artifacts + [draft]))
  }

  function MarkUnrepairable(db: Db, j: nat, token: nat): Result<Db> {
    if !RepairHeldAt(db, j, token) then Err(RepairLeaseLost)
    else Ok(SetJob(db, j, db.jobs[j].(status := Unrepairable, lease := None)))
  }

  function RetryOrFailRepair(db: Db, j: nat, token: nat, maxQueue: int, now: int, delay: nat): Result<Db> {
    if !RepairHeldAt(db, j, token) then Err(RepairLeaseLost)
    else
      var job := db.jobs[j];
      Ok(SetJob(db, j, if job.queueAttempts < maxQueue
                       then job.(status := Queued, nextAttemptAt := now + delay, lease := None)
                       else job.(status := JobFailed, lease := None)))
  }
}
