/** Repair jobs over all interleavings: numbering, activity, tokens, and what a chain of repairs keeps. */
module RepairJobs {
  import opened Results
  import opened RunModel
  import opened RunInvariants
  import opened RunWorkers
  import opened RunTheorems
  import opened RepairGuard

  // ---- one job ----

  function Cap(max: int): nat {
    if max < 1 then 1 else max
  }

  /** b is a repair of a: the same test case and expected result, other source, assertions past the guard. */
  predicate RepairOf(fold: Folding, a: Artifact, b: Artifact) {
    && b.testCase == a.testCase && b.expectedHash == a.expectedHash && b.analysis == a.analysis
    && b.sourceHash != a.sourceHash && SameSemanticAssertions(a.assertions, b.assertions, fold)
  }

  /** The job pins what it was requested for; its item has run, so no scope decision can delete it with its jobs. */
  predicate Pinned(items: seq<Item>, artifacts: seq<Artifact>, job: Job) {
    && job.item < |items| && job.source < |artifacts| && items[job.item].status.Done?
    && job.expectedHash == items[job.item].expectedHash == artifacts[job.source].expectedHash
    && artifacts[job.source].testCase == items[job.item].testCase
    && job.beforeHash == artifacts[job.source].sourceHash && job.beforeAssertions == artifacts[job.source].assertions
  }

  predicate DecisionOf(status: JobStatus, approval: Approval) {
    match status
    case WaitingReview => approval == Draft
    case JobApproved => approval == Approved
    case JobRejected => approval == Rejected
    case _ => false
  }

  /** The repaired artifact exists exactly after completion, repairs the source, and shares the job's decision. */
  predicate ResultOk(fold: Folding, artifacts: seq<Artifact>, job: Job) {
    && (job.repaired.Some? <==> job.status in {WaitingReview, JobApproved, JobRejected})
    && (job.repaired.Some? && job.source < |artifacts| ==>
          job.repaired.value < |artifacts| && DecisionOf(job.status, artifacts[job.repaired.value].approval) &&
          RepairOf(fold, artifacts[job.source], artifacts[job.repaired.value]))
  }

  predicate QueueOk(maxQueue: int, job: Job) {
    && job.queueAttempts <= Cap(maxQueue)
    && (job.status == Queued ==> job.queueAttempts < Cap(maxQueue))
    && (job.status != Repairing ==> job.lease == None)
  }

  predicate JobOk(cfg: Config, items: seq<Item>, artifacts: seq<Artifact>, job: Job) {
    Pinned(items, artifacts, job) && ResultOk(cfg.fold, artifacts, job) && QueueOk(cfg.maxQueue, job)
  }

  // ---- all jobs of one (run, test case) ----

  function GroupSize(items: seq<Item>, jobs: seq<Job>, key: (nat, nat)): nat {
    if jobs == [] then 0
    else GroupSize(items, jobs[..|jobs| - 1], key) + if JobKey(items, jobs[|jobs| - 1]) == key then 1 else 0
  }

  /** The k-th job of its group is numbered k. */
  predicate Numbered(items: seq<Item>, jobs: seq<Job>) {
    forall j :: 0 <= j < |jobs| ==> jobs[j].attempt == GroupSize(items, jobs[..j], JobKey(items, jobs[j])) + 1
  }

  predicate OneActive(items: seq<Item>, jobs: seq<Job>) {
    forall i, j :: 0 <= i < j < |jobs| && JobKey(items, jobs[i]) == JobKey(items, jobs[j]) ==>
      !(Active(jobs[i].status) && Active(jobs[j].status))
  }

  predicate WithinLimit(maxRepairs: int, jobs: seq<Job>) {
    forall j :: 0 <= j < |jobs| ==> jobs[j].attempt <= maxRepairs
  }

  predicate RepairedOnce(jobs: seq<Job>) {
    forall i, j :: 0 <= i < j < |jobs| && jobs[i].repaired.Some? ==> jobs[i].repaired != jobs[j].repaired
  }

  /** What the JSONB column accepts is all there is. */
  predicate AllStorable(artifacts: seq<Artifact>) {
    forall a :: 0 <= a < |artifacts| ==> Storable(artifacts[a].assertions)
  }

  predicate JobsOk(cfg: Config, db: Db) {
    && AllStorable(db.artifacts)
    && (forall j :: 0 <= j < |db.jobs| ==> JobOk(cfg, db.items, db.artifacts, db.jobs[j]))
    && Numbered(db.items, db.jobs) && OneActive(db.items, db.jobs)
    && WithinLimit(cfg.maxRepairs, db.jobs) && RepairedOnce(db.jobs)
  }

  /** Jobs keep their identity and number; counters only grow; a repaired artifact, once set, stays. */
  predicate JobStays(before: Job, after: Job) {
    && after.item == before.item && after.source == before.source && after.attempt == before.attempt
    && after.expectedHash == before.expectedHash && after.beforeHash == before.beforeHash
    && after.beforeAssertions == before.beforeAssertions
    && before.queueAttempts <= after.queueAttempts
    && (before.repaired.Some? ==> after.repaired == before.repaired)
    && (Active(after.status) ==> Active(before.status))
  }

  predicate JobsStay(before: seq<Job>, after: seq<Job>) {
    && |before| <= |after|
    && forall j :: 0 <= j < |before| ==> JobStays(before[j], after[j])
  }

  /** Artifacts are only added and decided. */
  predicate ArtifactsStay(before: seq<Artifact>, after: seq<Artifact>) {
    && |before| <= |after|
    && forall a :: 0 <= a < |before| ==> ArtifactStays(before[a], after[a])
  }

  predicate ArtifactStays(before: Artifact, after: Artifact) {
    after == before.(approval := after.approval) && (before.approval != Draft ==> after == before)
  }

  // ---- numbering ----

  lemma {:induction false} GroupSizeStays(items: seq<Item>, later: seq<Item>, jobs: seq<Job>, after: seq<Job>, key: (nat, nat))
    requires ItemsStay(items, later) && |jobs| == |after| && JobsStay(jobs, after)
    requires forall j :: 0 <= j < |jobs| ==> jobs[j].item < |items|
    ensures GroupSize(later, after, key) == GroupSize(items, jobs, key)
  {
    if jobs != [] {
      var last := |jobs| - 1;
      assert JobStays(jobs[last], after[last]);
      assert JobKey(later, after[last]) == JobKey(items, jobs[last]);
      GroupSizeStays(items, later, jobs[..last], after[..last], key);
    }
  }

  /** Updating jobs in place keeps the numbering, the limit and the single active job. */
  lemma NumberingStays(items: seq<Item>, later: seq<Item>, jobs: seq<Job>, after: seq<Job>, maxRepairs: int)
    requires ItemsStay(items, later) && |jobs| == |after| && JobsStay(jobs, after)
    requires forall j :: 0 <= j < |jobs| ==> jobs[j].item < |items|
    requires Numbered(items, jobs) && OneActive(items, jobs) && WithinLimit(maxRepairs, jobs)
    ensures Numbered(later, after) && OneActive(later, after) && WithinLimit(maxRepairs, after)
  {
    hide GroupSize;
    forall j | 0 <= j < |after|
      ensures JobKey(later, after[j]) == JobKey(items, jobs[j]) && JobStays(jobs[j], after[j])
    {
      assert JobStays(jobs[j], after[j]);
      assert RowStays(items[jobs[j].item], later[jobs[j].item]);
    }
    forall j | 0 <= j < |after| ensures after[j].attempt == GroupSize(later, after[..j], JobKey(later, after[j])) + 1 {
      GroupSizeStays(items, later, jobs[..j], after[..j], JobKey(items, jobs[j]));
    }
  }

  /** Under the numbering, the largest attempt of a group is its size. */
  lemma {:induction false} MaxIsSize(items: seq<Item>, jobs: seq<Job>, key: (nat, nat))
    requires Numbered(items, jobs)
    ensures MaxJobAttempt(items, jobs, key) == GroupSize(items, jobs, key)
  {
    if jobs != [] {
      var init := jobs[..|jobs| - 1];
      forall j | 0 <= j < |init| ensures init[j].attempt == GroupSize(items, init[..j], JobKey(items, init[j])) + 1 {
        assert init[..j] == jobs[..j];
      }
      MaxIsSize(items, init, key);
    }
  }

  lemma NumberingGrows(items: seq<Item>, jobs: seq<Job>, job: Job, maxRepairs: int)
    requires Numbered(items, jobs) && OneActive(items, jobs) && WithinLimit(maxRepairs, jobs)
    requires job.attempt == MaxJobAttempt(items, jobs, JobKey(items, job)) + 1 <= maxRepairs
    requires forall k :: 0 <= k < |jobs| && JobKey(items, jobs[k]) == JobKey(items, job) ==> !Active(jobs[k].status)
    ensures var after := jobs + [job];
            Numbered(items, after) && OneActive(items, after) && WithinLimit(maxRepairs, after)
  {
    hide GroupSize, MaxJobAttempt;
    var after := jobs + [job];
    MaxIsSize(items, jobs, JobKey(items, job));
    forall j | 0 <= j < |after| ensures after[j].attempt == GroupSize(items, after[..j], JobKey(items, after[j])) + 1 {
      assert after[..j] == jobs[..j];
      assert jobs[..|jobs|] == jobs;
    }
  }

  lemma NumberedPrefix(items: seq<Item>, jobs: seq<Job>)
    requires Numbered(items, jobs) && jobs != []
    ensures Numbered(items, jobs[..|jobs| - 1])
  {
    hide GroupSize, JobKey;
    var init := jobs[..|jobs| - 1];
    forall j | 0 <= j < |init| ensures init[j].attempt == GroupSize(items, init[..j], JobKey(items, init[j])) + 1 {
      assert init[..j] == jobs[..j];
    }
  }

  predicate Increasing(items: seq<Item>, jobs: seq<Job>, key: (nat, nat)) {
    forall i, j :: 0 <= i < j < |jobs| && JobKey(items, jobs[i]) == key == JobKey(items, jobs[j]) ==>
      jobs[i].attempt < jobs[j].attempt
  }

  predicate HasNumber(items: seq<Item>, jobs: seq<Job>, key: (nat, nat), n: nat) {
    exists j :: 0 <= j < |jobs| && JobKey(items, jobs[j]) == key && jobs[j].attempt == n
  }

  lemma {:induction false} NumbersUsed(items: seq<Item>, jobs: seq<Job>, key: (nat, nat), n: nat)
    requires Numbered(items, jobs)
    ensures HasNumber(items, jobs, key, n) <==> 1 <= n <= GroupSize(items, jobs, key)
  {
    hide Numbered, HasNumber, JobKey;
    if jobs == [] {
      NoNumber(items, key, n);
    } else {
      NumberedPrefix(items, jobs);
      NumbersUsed(items, jobs[..|jobs| - 1], key, n);
      LastNumber(items, jobs, key, n);
    }
  }

  lemma NoNumber(items: seq<Item>, key: (nat, nat), n: nat)
    ensures !HasNumber(items, [], key, n)
  {
  }

  lemma {:induction false} NumbersIncrease(items: seq<Item>, jobs: seq<Job>, key: (nat, nat))
    requires Numbered(items, jobs)
    ensures Increasing(items, jobs, key)
  {
    hide GroupSize, Numbered, JobKey;
    if jobs != [] {
      var last := |jobs| - 1;
      var init := jobs[..last];
      NumberedPrefix(items, jobs);
      NumbersIncrease(items, init, key);
      LastAttempt(items, jobs);
      forall i | 0 <= i < last && JobKey(items, jobs[i]) == key ensures jobs[i].attempt <= GroupSize(items, init, key) {
        assert init[i] == jobs[i];
        NumbersUsed(items, init, key, jobs[i].attempt);
      }
      forall i, j | 0 <= i < j < last && JobKey(items, jobs[i]) == key == JobKey(items, jobs[j])
        ensures jobs[i].attempt < jobs[j].attempt
      {
        assert init[i] == jobs[i] && init[j] == jobs[j];
      }
    }
  }

  lemma LastAttempt(items: seq<Item>, jobs: seq<Job>)
    requires Numbered(items, jobs) && jobs != []
    ensures var last := jobs[|jobs| - 1];
            last.attempt == GroupSize(items, jobs[..|jobs| - 1], JobKey(items, last)) + 1
  {
    hide GroupSize, JobKey;
  }

  /** The numbers of a group are exactly 1 to its size, each used once, in the order in which the jobs were queued. */
  lemma DenseNumbering(items: seq<Item>, jobs: seq<Job>, key: (nat, nat), n: nat)
    requires Numbered(items, jobs)
    ensures HasNumber(items, jobs, key, n) <==> 1 <= n <= GroupSize(items, jobs, key)
    ensures Increasing(items, jobs, key)
  {
    hide Numbered, HasNumber, Increasing, GroupSize;
    NumbersUsed(items, jobs, key, n);
    NumbersIncrease(items, jobs, key);
  }

  lemma LastNumber(items: seq<Item>, jobs: seq<Job>, key: (nat, nat), n: nat)
    requires jobs != [] && Numbered(items, jobs)
    ensures var init := jobs[..|jobs| - 1];
            HasNumber(items, jobs, key, n) <==>
            HasNumber(items, init, key, n) ||
            (JobKey(items, jobs[|jobs| - 1]) == key && n == GroupSize(items, init, key) + 1)
  {
    hide GroupSize, JobKey, Numbered;
    var last := |jobs| - 1;
    var init := jobs[..last];
    LastAttempt(items, jobs);
    if HasNumber(items, jobs, key, n) {
      var j :| 0 <= j < |jobs| && JobKey(items, jobs[j]) == key && jobs[j].attempt == n;
      assert j < last ==> init[j] == jobs[j];
    }
    if HasNumber(items, init, key, n) {
      var j :| 0 <= j < |init| && JobKey(items, init[j]) == key && init[j].attempt == n;
      assert jobs[j] == init[j];
    }
  }

  // ---- every step keeps the jobs in order ----

  lemma JobOkStays(cfg: Config, items: seq<Item>, later: seq<Item>, artifacts: seq<Artifact>, drafts: seq<Artifact>, job: Job)
    requires JobOk(cfg, items, artifacts, job) && ItemsStay(items, later) && ArtifactsStay(artifacts, drafts)
    requires job.repaired.Some? ==> drafts[job.repaired.value].approval == artifacts[job.repaired.value].approval
    ensures JobOk(cfg, later, drafts, job)
  {
    hide SameSemanticAssertions;
    assert RowStays(items[job.item], later[job.item]);
    assert ArtifactStays(artifacts[job.source], drafts[job.source]);
    if job.repaired.Some? {
      assert ArtifactStays(artifacts[job.repaired.value], drafts[job.repaired.value]);
    }
  }

  lemma StayTheSame(db: Db)
    ensures ItemsStay(db.items, db.items) && ArtifactsStay(db.artifacts, db.artifacts) && JobsStay(db.jobs, db.jobs)
  {
  }

  lemma JobItems(cfg: Config, db: Db)
    requires JobsOk(cfg, db)
    ensures forall j :: 0 <= j < |db.jobs| ==> db.jobs[j].item < |db.items|
  {
    forall j | 0 <= j < |db.jobs| ensures db.jobs[j].item < |db.items| {
      assert JobOk(cfg, db.items, db.artifacts, db.jobs[j]);
    }
  }

  /** Steps that write items, or add drafts, leave the jobs in order. */
  lemma UntouchedJobs(cfg: Config, db: Db, after: Db)
    requires JobsOk(cfg, db) && after.jobs == db.jobs && ItemsStay(db.items, after.items)
    requires |db.artifacts| <= |after.artifacts| && after.artifacts[..|db.artifacts|] == db.artifacts
    requires AllStorable(after.artifacts)
    ensures JobsOk(cfg, after) && JobsStay(db.jobs, after.jobs) && ArtifactsStay(db.artifacts, after.artifacts)
  {
    hide JobOk, Numbered, OneActive, WithinLimit, ItemsStay, JobsStay, ArtifactsStay;
    StayTheSame(db);
    JobItems(cfg, db);
    ArtifactsGrow(db.artifacts, after.artifacts);
    NumberingStays(db.items, after.items, db.jobs, db.jobs, cfg.maxRepairs);
    forall j | 0 <= j < |db.jobs| ensures JobOk(cfg, after.items, after.artifacts, db.jobs[j]) {
      RepairedInRange(cfg, db, j);
      JobOkStays(cfg, db.items, after.items, db.artifacts, after.artifacts, db.jobs[j]);
    }
  }

  lemma StorablePart(cfg: Config, db: Db)
    requires JobsOk(cfg, db)
    ensures AllStorable(db.artifacts)
  {
  }

  lemma RepairedInRange(cfg: Config, db: Db, j: nat)
    requires j < |db.jobs| && JobOk(cfg, db.items, db.artifacts, db.jobs[j])
    ensures db.jobs[j].repaired.Some? ==> db.jobs[j].repaired.value < |db.artifacts|
  {
    hide SameSemanticAssertions;
  }

  lemma ArtifactsGrow(before: seq<Artifact>, after: seq<Artifact>)
    requires |before| <= |after| && after[..|before|] == before
    ensures ArtifactsStay(before, after)
  {
    forall a | 0 <= a < |before| ensures ArtifactStays(before[a], after[a]) {
      assert after[a] == after[..|before|][a];
    }
  }

  /** A step that moves a single job. */
  lemma OneJobMoves(cfg: Config, db: Db, j: nat, job: Job, artifacts: seq<Artifact>)
    requires JobsOk(cfg, db) && j < |db.jobs| && JobStays(db.jobs[j], job)
    requires |db.artifacts| <= |artifacts| && artifacts[..|db.artifacts|] == db.artifacts && AllStorable(artifacts)
    requires JobOk(cfg, db.items, artifacts, job)
    requires job.repaired == db.jobs[j].repaired || job.repaired == Some(|db.artifacts|)
    ensures var after := SetJob(db, j, job).(artifacts := artifacts);
            JobsOk(cfg, after) && JobsStay(db.jobs, after.jobs)
  {
    hide JobOk, Numbered, OneActive, WithinLimit, ItemsStay, ArtifactsStay, JobStays;
    var after := SetJob(db, j, job).(artifacts := artifacts);
    StayTheSame(db);
    JobItems(cfg, db);
    ArtifactsGrow(db.artifacts, artifacts);
    assert JobsStay(db.jobs, after.jobs);
    NumberingStays(db.items, db.items, db.jobs, after.jobs, cfg.maxRepairs);
    forall k | 0 <= k < |db.jobs| && k != j
      ensures JobOk(cfg, db.items, artifacts, after.jobs[k])
      ensures db.jobs[k].repaired.Some? ==> db.jobs[k].repaired.value < |db.artifacts|
    {
      RepairedInRange(cfg, db, k);
      JobOkStays(cfg, db.items, db.items, db.artifacts, artifacts, db.jobs[k]);
    }
  }

  lemma RequestRepairKeeps(cfg: Config, db: Db, i: nat, now: int)
    requires JobsOk(cfg, db) && RequestRepair(db, i, cfg.maxRepairs, now).Ok?
    ensures var (after, id) := RequestRepair(db, i, cfg.maxRepairs, now).value;
            && JobsOk(cfg, after) && JobsStay(db.jobs, after.jobs)
            && id < |after.jobs| && Active(after.jobs[id].status)
            && JobKey(after.items, after.jobs[id]) == (db.items[i].run, db.items[i].testCase)
  {
    hide MaxJobAttempt, JobOk, Numbered, OneActive, WithinLimit;
    var after := RequestRepair(db, i, cfg.maxRepairs, now).value.0;
    StayTheSame(db);
    if after.jobs != db.jobs {
      var job := after.jobs[|db.jobs|];
      NumberingGrows(db.items, db.jobs, job, cfg.maxRepairs);
      FreshJobOk(cfg, db, i, now);
    }
  }

  lemma FreshJobOk(cfg: Config, db: Db, i: nat, now: int)
    requires RequestRepair(db, i, cfg.maxRepairs, now).Ok?
    ensures var after := RequestRepair(db, i, cfg.maxRepairs, now).value.0;
            after.jobs != db.jobs ==> |after.jobs| == |db.jobs| + 1 && JobOk(cfg, db.items, db.artifacts, after.jobs[|db.jobs|])
  {
    hide MaxJobAttempt, ActiveJob;
  }

  lemma DecidedStays(job: Job, artifact: nat, approve: bool)
    ensures JobStays(job, Decided(job, artifact, approve))
  {
  }

  /** A review moves the draft and the one job that waits for it together. */
  lemma DecideJobsKeeps(cfg: Config, db: Db, id: nat, approve: bool)
    requires JobsOk(cfg, db) && id < |db.artifacts| && db.artifacts[id].approval == Draft
    ensures var after := db.(artifacts := db.artifacts[id := db.artifacts[id].(approval := if approve then Approved else Rejected)],
                             jobs := DecideJobs(db.jobs, id, approve));
            JobsOk(cfg, after) && JobsStay(db.jobs, after.jobs) && ArtifactsStay(db.artifacts, after.artifacts)
  {
    hide Numbered, OneActive, WithinLimit, ItemsStay, JobOk, JobStays, Decided, ArtifactStays;
    var artifacts := db.artifacts[id := db.artifacts[id].(approval := if approve then Approved else Rejected)];
    var jobs := DecideJobs(db.jobs, id, approve);
    StayTheSame(db);
    JobItems(cfg, db);
    forall k | 0 <= k < |db.jobs|
      ensures JobStays(db.jobs[k], jobs[k]) && jobs[k].repaired == db.jobs[k].repaired
      ensures JobOk(cfg, db.items, artifacts, jobs[k])
    {
      DecidedStays(db.jobs[k], id, approve);
      DecidedJobOk(cfg, db, id, approve, k);
    }
    NumberingStays(db.items, db.items, db.jobs, jobs, cfg.maxRepairs);
    forall a | 0 <= a < |artifacts| ensures ArtifactStays(db.artifacts[a], artifacts[a]) {
      DecidedArtifact(db.artifacts, id, approve, a);
    }
  }

  lemma DecidedArtifact(artifacts: seq<Artifact>, id: nat, approve: bool, a: nat)
    requires id < |artifacts| && artifacts[id].approval == Draft && a < |artifacts|
    ensures ArtifactStays(artifacts[a], artifacts[id := artifacts[id].(approval := if approve then Approved else Rejected)][a])
  {
  }

  lemma DecidedJobOk(cfg: Config, db: Db, id: nat, approve: bool, k: nat)
    requires k < |db.jobs| && JobOk(cfg, db.items, db.artifacts, db.jobs[k])
    requires id < |db.artifacts| && db.artifacts[id].approval == Draft
    ensures var job := Decided(db.jobs[k], id, approve);
            && job.repaired == db.jobs[k].repaired
            && JobOk(cfg, db.items, db.artifacts[id := db.artifacts[id].(approval := if approve then Approved else Rejected)], job)
  {
    hide SameSemanticAssertions;
  }

  lemma ReviewJobs(cfg: Config, db: Db, id: nat, approve: bool, now: int)
    requires Sound(db) && Contracts(db.items) && JobsOk(cfg, db) && Review(db, id, approve, now).Ok?
    ensures var after := Review(db, id, approve, now).value;
            JobsOk(cfg, after) && JobsStay(db.jobs, after.jobs) && ArtifactsStay(db.artifacts, after.artifacts)
  {
    hide Sound, Contracts, RequeueRun, AutoQueued, DecideJobs, FirstAwaiting, JobsOk, JobsStay, ItemsStay, ArtifactsStay;
    DecideJobsKeeps(cfg, db, id, approve);
    var decided := db.(artifacts := db.artifacts[id := db.artifacts[id].(approval := if approve then Approved else Rejected)],
                       jobs := DecideJobs(db.jobs, id, approve));
    SoundParts(db, decided);
    StayTheSame(db);
    StayTheSame(decided);
    var job := FirstAwaiting(db.jobs, id);
    var after := Review(db, id, approve, now).value;
    assert after.artifacts == decided.artifacts && after.jobs == decided.jobs by {
      if approve && job.Some? { RequeueTables(decided, db.jobs[job.value].item, id, now); }
    }
    if approve && job.Some? {
      RequeueContracts(decided, db.jobs[job.value].item, id, now);
      assert ItemsStay(decided.items, after.items);
    }
    assert after.artifacts[..|decided.artifacts|] == decided.artifacts;
    StorablePart(cfg, decided);
    UntouchedJobs(cfg, decided, after);
  }

  lemma RequeueTables(db: Db, source: nat, artifact: nat, now: int)
    requires RequeueRun(db, source, artifact, now).Ok?
    ensures var after := RequeueRun(db, source, artifact, now).value; after.artifacts == db.artifacts && after.jobs == db.jobs
  {
  }

  lemma OutsideJobs(cfg: Config, db: Db, e: Event)
    requires Sound(db) && Contracts(db.items) && JobsOk(cfg, db)
    ensures var after := Outside(cfg, db, e);
            && JobsOk(cfg, after) && JobsStay(db.jobs, after.jobs) && ArtifactsStay(db.artifacts, after.artifacts)
            && OthersHeld(db, after, |db.jobs|)
  {
    hide Sound, Contracts, ItemsStay, JobsOk, JobsStay, ArtifactsStay, Review, RequestRepair, FirstTry, ScopeRows, AllStorable, Storable;
    StayTheSame(db);
    var after := Outside(cfg, db, e);
    if e.Decide? {
      if Review(db, e.artifact, e.approve, e.now).Ok? {
        ReviewJobs(cfg, db, e.artifact, e.approve, e.now);
        ReviewDecides(db, e.artifact, e.approve, e.now);
      }
    } else if e.AskRepair? {
      if RequestRepair(db, e.item, cfg.maxRepairs, e.now).Ok? {
        RequestRepairKeeps(cfg, db, e.item, e.now);
        RequestRepairItems(db, e.item, cfg.maxRepairs, e.now);
        RequestRepairAppends(db, e.item, cfg.maxRepairs, e.now);
      }
    } else {
      OutsideContracts(cfg, db, e);
      OutsideArtifacts(cfg, db, e);
      UntouchedJobs(cfg, db, after);
    }
  }

  lemma OutsideArtifacts(cfg: Config, db: Db, e: Event)
    requires JobsOk(cfg, db) && !e.Decide? && !e.AskRepair?
    ensures var after := Outside(cfg, db, e);
            && after.jobs == db.jobs && |db.artifacts| <= |after.artifacts|
            && after.artifacts[..|db.artifacts|] == db.artifacts && AllStorable(after.artifacts)
  {
    hide JobOk, Numbered, OneActive, WithinLimit, RepairedOnce, ScopeRows, Storable;
    var after := Outside(cfg, db, e);
    assert after.artifacts[..|db.artifacts|] == db.artifacts;
  }

  lemma ReviewDecides(db: Db, id: nat, approve: bool, now: int)
    requires Review(db, id, approve, now).Ok?
    ensures Review(db, id, approve, now).value.jobs == DecideJobs(db.jobs, id, approve)
    ensures OthersHeld(db, Review(db, id, approve, now).value, |db.jobs|)
  {
    hide AutoQueued, DecideJobs, FirstAwaiting, MaxAttempt;
  }

  lemma RequestRepairAppends(db: Db, i: nat, maxRepairs: int, now: int)
    requires RequestRepair(db, i, maxRepairs, now).Ok?
    ensures db.jobs <= RequestRepair(db, i, maxRepairs, now).value.0.jobs
  {
    hide ActiveJob, MaxJobAttempt;
  }

  // ---- the repair workers ----

  /** A repair worker that has a job still holds it: nobody else can move it. */
  predicate RepairerOk(db: Db, rep: Repairer) {
    && (!rep.Free? ==> RepairHeldAt(db, rep.job, rep.token))
    && (rep.Proposing? ==>
          db.jobs[rep.job].source < |db.artifacts| &&
          var a := db.artifacts[db.jobs[rep.job].source]; rep.subject == a.(approval := rep.subject.approval))
  }

  predicate RepairersOk(db: Db, reps: seq<Repairer>) {
    && (forall w :: 0 <= w < |reps| ==> RepairerOk(db, reps[w]))
    && (forall v, w :: 0 <= v < w < |reps| && !reps[v].Free? && !reps[w].Free? ==> reps[v].job != reps[w].job)
  }

  /** Jobs under repair stay as they are, save for job j. */
  predicate OthersHeld(db: Db, after: Db, j: nat) {
    forall k :: 0 <= k < |db.jobs| && k != j && db.jobs[k].status == Repairing ==>
      k < |after.jobs| && after.jobs[k] == db.jobs[k]
  }

  lemma RepairerStays(db: Db, after: Db, rep: Repairer, j: nat)
    requires RepairerOk(db, rep) && OthersHeld(db, after, j) && ArtifactsStay(db.artifacts, after.artifacts)
    requires !rep.Free? ==> rep.job != j
    ensures RepairerOk(after, rep)
  {
    if rep.Proposing? {
      var a := db.jobs[rep.job].source;
      assert ArtifactStays(db.artifacts[a], after.artifacts[a]);
    }
  }

  lemma RepairersStay(db: Db, after: Db, reps: seq<Repairer>)
    requires RepairersOk(db, reps) && OthersHeld(db, after, |db.jobs|) && ArtifactsStay(db.artifacts, after.artifacts)
    ensures RepairersOk(after, reps)
  {
    hide ArtifactsStay, OthersHeld;
    forall w | 0 <= w < |reps| ensures RepairerOk(after, reps[w]) {
      RepairerStays(db, after, reps[w], |db.jobs|);
    }
  }

  /** One repair worker moves with a job that no other holds. */
  lemma RepairerMoves(db: Db, after: Db, reps: seq<Repairer>, w: nat, rep: Repairer, j: nat)
    requires RepairersOk(db, reps) && OthersHeld(db, after, j) && ArtifactsStay(db.artifacts, after.artifacts)
    requires w < |reps| && RepairerOk(after, rep) && (!rep.Free? ==> rep.job == j)
    requires forall v :: 0 <= v < |reps| && v != w && !reps[v].Free? ==> reps[v].job != j
    ensures RepairersOk(after, reps[w := rep])
  {
    hide ArtifactsStay, OthersHeld;
    forall v | 0 <= v < |reps| && v != w ensures RepairerOk(after, reps[v]) {
      RepairerStays(db, after, reps[v], j);
    }
  }

  lemma CompleteKeeps(cfg: Config, db: Db, rep: Repairer, afterHash: string, assertions: seq<string>)
    requires JobsOk(cfg, db) && rep.Proposing? && RepairerOk(db, rep)
    requires afterHash != rep.subject.sourceHash && SameSemanticAssertions(rep.subject.assertions, assertions, cfg.fold)
    requires CompleteRepair(db, rep.job, rep.token, rep.subject, afterHash, assertions).Ok?
    ensures var after := CompleteRepair(db, rep.job, rep.token, rep.subject, afterHash, assertions).value;
            && JobsOk(cfg, after) && JobsStay(db.jobs, after.jobs) && ArtifactsStay(db.artifacts, after.artifacts)
            && OthersHeld(db, after, rep.job)
  {
    hide SameSemanticAssertions, Numbered, OneActive, WithinLimit, RepairedOnce, Storable;
    var after := CompleteRepair(db, rep.job, rep.token, rep.subject, afterHash, assertions).value;
    var job := after.jobs[rep.job];
    assert JobOk(cfg, db.items, db.artifacts, db.jobs[rep.job]);
    assert after.artifacts[..|db.artifacts|] == db.artifacts;
    ArtifactsGrow(db.artifacts, after.artifacts);
    assert after.artifacts[job.source] == db.artifacts[job.source];
    OneJobMoves(cfg, db, rep.job, job, after.artifacts);
  }

  /** A claim, a renewal, an abandonment or a return moves one job and no artifact. */
  predicate PlainMove(cfg: Config, before: Job, after: Job) {
    && JobStays(before, after) && after.repaired == before.repaired == None
    && after.status in {Queued, Repairing, Unrepairable, JobFailed}
    && QueueOk(cfg.maxQueue, after)
  }

  lemma PlainMoveKeeps(cfg: Config, db: Db, j: nat, job: Job)
    requires JobsOk(cfg, db) && j < |db.jobs| && PlainMove(cfg, db.jobs[j], job)
    ensures JobsOk(cfg, SetJob(db, j, job)) && JobsStay(db.jobs, SetJob(db, j, job).jobs)
  {
    hide SameSemanticAssertions, Numbered, OneActive, WithinLimit, RepairedOnce;
    assert JobOk(cfg, db.items, db.artifacts, db.jobs[j]);
    assert db.artifacts[..|db.artifacts|] == db.artifacts;
    OneJobMoves(cfg, db, j, job, db.artifacts);
  }

  lemma PlainMoves(cfg: Config, db: Db, j: nat, token: nat, now: int)
    requires JobsOk(cfg, db)
    ensures RepairClaimable(db, j, now) ==> PlainMove(cfg, db.jobs[j], ClaimRepair(db, j, now, cfg.lease).jobs[j])
    ensures RepairHeldAt(db, j, token) ==>
              && PlainMove(cfg, db.jobs[j], RenewRepair(db, j, token, now, cfg.lease).value.jobs[j])
              && PlainMove(cfg, db.jobs[j], MarkUnrepairable(db, j, token).value.jobs[j])
              && PlainMove(cfg, db.jobs[j], RetryOrFailRepair(db, j, token, cfg.maxQueue, now, cfg.delay).value.jobs[j])
  {
    hide SameSemanticAssertions, Numbered, OneActive, WithinLimit, RepairedOnce;
    if j < |db.jobs| {
      assert JobOk(cfg, db.items, db.artifacts, db.jobs[j]);
    }
  }

  predicate RepairSide(cfg: Config, s: Sys) {
    JobsOk(cfg, s.db) && RepairersOk(s.db, s.repairers)
  }

  lemma StartStep(cfg: Config, s: Sys, w: nat, j: nat, now: int)
    requires RepairSide(cfg, s)
    ensures var t := RepairerStep(cfg, s, StartRepair(w, j, now));
            RepairSide(cfg, t) && JobsStay(s.db.jobs, t.db.jobs) && ArtifactsStay(s.db.artifacts, t.db.artifacts)
  {
    hide JobsOk, JobsStay, ArtifactsStay, PlainMove;
    StayTheSame(s.db);
    if w < |s.repairers| && s.repairers[w].Free? && RepairClaimable(s.db, j, now) {
      var t := RepairerStep(cfg, s, StartRepair(w, j, now));
      PlainMoves(cfg, s.db, j, 0, now);
      PlainMoveKeeps(cfg, s.db, j, t.db.jobs[j]);
      RepairerMoves(s.db, t.db, s.repairers, w, t.repairers[w], j);
    }
  }

  /** A worker's own plain move of the job it holds: it keeps it, or lets go. */
  lemma HeldMove(cfg: Config, s: Sys, w: nat, job: Job, rep: Repairer)
    requires RepairSide(cfg, s) && w < |s.repairers| && !s.repairers[w].Free?
    requires rep == Free || (rep == s.repairers[w] && job.status == Repairing && job.queueAttempts == rep.token)
    requires PlainMove(cfg, s.db.jobs[s.repairers[w].job], job)
    ensures var t := s.(db := SetJob(s.db, s.repairers[w].job, job), repairers := s.repairers[w := rep]);
            RepairSide(cfg, t) && JobsStay(s.db.jobs, t.db.jobs) && ArtifactsStay(s.db.artifacts, t.db.artifacts)
  {
    hide JobsOk, JobsStay, ArtifactsStay;
    var j := s.repairers[w].job;
    StayTheSame(s.db);
    PlainMoveKeeps(cfg, s.db, j, job);
    assert RepairerOk(s.db, s.repairers[w]);
    RepairerMoves(s.db, SetJob(s.db, j, job), s.repairers, w, rep, j);
  }

  lemma ProposeStep(cfg: Config, s: Sys, w: nat, afterHash: string, assertions: seq<string>)
    requires RepairSide(cfg, s)
    ensures var t := RepairerStep(cfg, s, Propose(w, afterHash, assertions));
            RepairSide(cfg, t) && JobsStay(s.db.jobs, t.db.jobs) && ArtifactsStay(s.db.artifacts, t.db.artifacts)
  {
    hide JobsOk, JobsStay, ArtifactsStay, SameSemanticAssertions, CompleteRepair, RepairerOk, OthersHeld;
    StayTheSame(s.db);
    var t := RepairerStep(cfg, s, Propose(w, afterHash, assertions));
    if t != s {
      var rep := s.repairers[w];
      assert RepairerOk(s.db, rep);
      CompleteKeeps(cfg, s.db, rep, afterHash, assertions);
      FreeIsOk(t.db);
      RepairerMoves(s.db, t.db, s.repairers, w, Free, rep.job);
    }
  }

  lemma FreeIsOk(db: Db)
    ensures RepairerOk(db, Free)
  {
  }

  lemma LocalRepairer(cfg: Config, s: Sys, w: nat, rep: Repairer)
    requires RepairSide(cfg, s) && w < |s.repairers| && RepairerOk(s.db, rep)
    requires rep.Free? || (!s.repairers[w].Free? && rep.job == s.repairers[w].job)
    ensures RepairSide(cfg, s.(repairers := s.repairers[w := rep]))
  {
    hide JobsOk;
  }

  lemma LoadStep(cfg: Config, s: Sys, w: nat)
    requires RepairSide(cfg, s)
    ensures var t := RepairerStep(cfg, s, LoadSubject(w)); RepairSide(cfg, t) && t.db == s.db
  {
    hide JobsOk, RepairersOk;
    if w < |s.repairers| && s.repairers[w].Loading? {
      var r := s.repairers[w];
      var subject := LoadRepairSubject(s.db, r.job, r.token);
      if subject.Ok? {
        LocalRepairer(cfg, s, w, Proposing(r.job, r.token, subject.value));
      }
    }
  }

  lemma RepairerJobs(cfg: Config, s: Sys, e: Event)
    requires RepairSide(cfg, s) && ByRepairer(e)
    ensures var t := RepairerStep(cfg, s, e);
            RepairSide(cfg, t) && JobsStay(s.db.jobs, t.db.jobs) && ArtifactsStay(s.db.artifacts, t.db.artifacts)
  {
    hide JobsOk, RepairersOk, RepairSide, JobsStay, ArtifactsStay, SameSemanticAssertions, PlainMove, CompleteRepair,
         LoadRepairSubject, RepairClaimable;
    StayTheSame(s.db);
    match e
    case StartRepair(w, j, now) => StartStep(cfg, s, w, j, now);
    case LoadSubject(w) => LoadStep(cfg, s, w);
    case Propose(w, afterHash, assertions) => ProposeStep(cfg, s, w, afterHash, assertions);
    case ReturnFails(w) =>
      if w < |s.repairers| {
        FreeIsOk(s.db);
        LocalRepairer(cfg, s, w, Free);
      }
    case CrashRepairer(w) =>
      if w < |s.repairers| {
        FreeIsOk(s.db);
        LocalRepairer(cfg, s, w, Free);
      }
    case _ => OtherRepairerJobs(cfg, s, e);
  }

  lemma OtherRepairerJobs(cfg: Config, s: Sys, e: Event)
    requires RepairSide(cfg, s) && (e.RenewJob? || e.Abandon? || e.ReturnJob?)
    ensures var t := RepairerStep(cfg, s, e);
            RepairSide(cfg, t) && JobsStay(s.db.jobs, t.db.jobs) && ArtifactsStay(s.db.artifacts, t.db.artifacts)
  {
    hide JobsOk, RepairersOk, RepairSide, JobsStay, ArtifactsStay, PlainMove;
    StayTheSame(s.db);
    assert JobsOk(cfg, s.db) && RepairersOk(s.db, s.repairers) by { SideParts(cfg, s); }
    if e.w < |s.repairers| && !s.repairers[e.w].Free? {
      var rep := s.repairers[e.w];
      assert s.repairers[e.w := rep] == s.repairers;
      HeldRepair(s.db, s.repairers, e.w);
      if e.RenewJob? {
        PlainMoves(cfg, s.db, rep.job, rep.token, e.now);
        HeldMove(cfg, s, e.w, RenewRepair(s.db, rep.job, rep.token, e.now, cfg.lease).value.jobs[rep.job], rep);
      } else if e.ReturnJob? {
        PlainMoves(cfg, s.db, rep.job, rep.token, e.now);
        HeldMove(cfg, s, e.w, RetryOrFailRepair(s.db, rep.job, rep.token, cfg.maxQueue, e.now, cfg.delay).value.jobs[rep.job], Free);
      } else if rep.Proposing? {
        PlainMoves(cfg, s.db, rep.job, rep.token, 0);
        HeldMove(cfg, s, e.w, MarkUnrepairable(s.db, rep.job, rep.token).value.jobs[rep.job], Free);
      }
    }
  }

  lemma HeldRepair(db: Db, reps: seq<Repairer>, w: nat)
    requires RepairersOk(db, reps) && w < |reps| && !reps[w].Free?
    ensures RepairHeldAt(db, reps[w].job, reps[w].token)
  {
    assert RepairerOk(db, reps[w]);
  }

  lemma SideParts(cfg: Config, s: Sys)
    requires RepairSide(cfg, s)
    ensures JobsOk(cfg, s.db) && RepairersOk(s.db, s.repairers)
  {
  }

  lemma WorkerTables(cfg: Config, s: Sys, e: Event)
    requires ByWorker(e)
    ensures var t := WorkerStep(cfg, s, e); t.db.jobs == s.db.jobs && t.db.artifacts == s.db.artifacts && t.repairers == s.repairers
  {
    hide SaveOutcomes, Claimable, AnyRetry;
    if e.SaveAll? && e.w < |s.workers| && s.workers[e.w].Processing? {
      var r, token := s.workers[e.w].run, s.workers[e.w].token;
      if SaveOutcomes(s.db, r, token, e.outcomes, cfg.maxInfra).Ok? {
        SaveOutcomesTables(s.db, r, token, e.outcomes, cfg.maxInfra);
      }
    }
  }

  lemma {:induction false} SaveOutcomesTables(db: Db, r: nat, token: nat, os: seq<Outcome>, maxInfra: int)
    requires SaveOutcomes(db, r, token, os, maxInfra).Ok?
    ensures var after := SaveOutcomes(db, r, token, os, maxInfra).value;
            after.jobs == db.jobs && after.artifacts == db.artifacts && after.runs == db.runs
  {
    hide BindingAllowed, AttemptExists;
    if os != [] {
      SaveOutcomesTables(db, r, token, os[..|os| - 1], maxInfra);
    }
  }

  /** Every step of every actor keeps all repair jobs in order. */
  lemma StepJobs(cfg: Config, s: Sys, e: Event)
    requires Inv(s) && Contracts(s.db.items) && RepairSide(cfg, s)
    ensures var t := Step(cfg, s, e);
            RepairSide(cfg, t) && JobsStay(s.db.jobs, t.db.jobs) && ArtifactsStay(s.db.artifacts, t.db.artifacts)
  {
    hide Contracts, JobsOk, RepairersOk, JobsStay, ArtifactsStay, ItemsStay, Outside, WorkerStep, RepairerStep,
         WorkersOk, Exclusive, SavesOk, Sound;
    if ByRepairer(e) {
      RepairerJobs(cfg, s, e);
    } else if ByWorker(e) {
      WorkerTables(cfg, s, e);
      WorkerContracts(cfg, s, e);
      var t := WorkerStep(cfg, s, e);
      assert t.db.artifacts[..|s.db.artifacts|] == s.db.artifacts;
      StorablePart(cfg, s.db);
      UntouchedJobs(cfg, s.db, t.db);
      RepairersStay(s.db, t.db, s.repairers);
    } else {
      OutsideJobs(cfg, s.db, e);
      RepairersStay(s.db, Outside(cfg, s.db, e), s.repairers);
    }
  }

  /** Over any interleaving: dense numbers up to the limit, one active job per group, bounded claims, distinct tokens. */
  lemma {:induction false} JobsForever(cfg: Config, s: Sys, events: seq<Event>)
    requires Initial(s)
    ensures var t := Play(cfg, s, events); Inv(t) && Contracts(t.db.items) && RepairSide(cfg, t)
  {
    hide Inv, Contracts, RepairSide, Step, JobsStay, ArtifactsStay, ItemsStay;
    if events == [] {
      InitialIsFine(s);
      NoItems();
      NoJobs(cfg, s);
    } else {
      var init := Play(cfg, s, events[..|events| - 1]);
      var e := events[|events| - 1];
      JobsForever(cfg, s, events[..|events| - 1]);
      StepKeeps(cfg, init, e);
      StepContracts(cfg, init, e);
      StepJobs(cfg, init, e);
    }
  }

  lemma NoJobs(cfg: Config, s: Sys)
    requires Initial(s)
    ensures RepairSide(cfg, s)
  {
  }

  // ---- chains of repairs ----

  /** Each artifact of the path is the reviewed or waiting result of a job that repaired its predecessor. */
  predicate Lineage(db: Db, path: seq<nat>) {
    && path != [] && (forall k :: 0 <= k < |path| ==> path[k] < |db.artifacts|)
    && forall k :: 0 < k < |path| ==> RepairedBy(db.jobs, path[k - 1], path[k])
  }

  predicate RepairedBy(jobs: seq<Job>, source: nat, repaired: nat) {
    exists j :: 0 <= j < |jobs| && jobs[j].source == source && jobs[j].repaired == Some(repaired)
  }

  /**
   * However many repairs lie between two artifacts, they test the same case for the same result, and their assertions
   * mean the same.
   */
  lemma {:induction false} LineageKeeps(cfg: Config, db: Db, path: seq<nat>)
    requires JobsOk(cfg, db) && Lineage(db, path)
    ensures var first, last := db.artifacts[path[0]], db.artifacts[path[|path| - 1]];
            && last.testCase == first.testCase && last.expectedHash == first.expectedHash
            && SameSemanticAssertions(first.assertions, last.assertions, cfg.fold)
            && Meaning(first.assertions, cfg.fold) == Meaning(last.assertions, cfg.fold)
  {
    hide Meaning, Numbered, OneActive, WithinLimit, RepairedOnce;
    var n := |path|;
    var first, last := db.artifacts[path[0]], db.artifacts[path[n - 1]];
    if n > 1 {
      var init := path[..n - 1];
      LineageKeeps(cfg, db, init);
      assert RepairedBy(db.jobs, path[n - 2], path[n - 1]);
      var j :| 0 <= j < |db.jobs| && db.jobs[j].source == path[n - 2] && db.jobs[j].repaired == Some(path[n - 1]);
      assert JobOk(cfg, db.items, db.artifacts, db.jobs[j]);
      assert init[|init| - 1] == path[n - 2];
    }
    NulFreeStored(first.assertions, cfg.fold);
    NulFreeStored(last.assertions, cfg.fold);
    GuardExact(first.assertions, last.assertions, cfg.fold);
  }
}
