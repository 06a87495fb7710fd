/** How far attempts can go, and which artifact an item may ever have executed. */
module RunBounds {
  import opened Results
  import opened RunModel
  import opened RunInvariants
  import opened RunWorkers
  import opened RunTheorems
  import opened RepairJobs

  // ---- attempts ----

  /** The job's repair of this run has been approved. */
  predicate Counts(items: seq<Item>, job: Job, r: nat) {
    job.item < |items| && items[job.item].run == r && job.status == JobApproved
  }

  /** Number of approved repairs of a run. */
  function ApprovedRepairs(items: seq<Item>, jobs: seq<Job>, r: nat): nat {
    if jobs == [] then 0
    else ApprovedRepairs(items, jobs[..|jobs| - 1], r) + if Counts(items, jobs[|jobs| - 1], r) then 1 else 0
  }

  function Limit(cfg: Config, db: Db, r: nat): nat {
    Cap(cfg.maxInfra) + ApprovedRepairs(db.items, db.jobs, r)
  }

  predicate Bounded(cfg: Config, db: Db) {
    forall r :: 0 <= r < |db.runs| ==> Top(db.runs[r]) <= Limit(cfg, db, r)
  }

  predicate ApprovalsStay(before: seq<Job>, after: seq<Job>) {
    && |before| <= |after|
    && forall j :: 0 <= j < |before| ==>
         after[j].item == before[j].item && (before[j].status == JobApproved ==> after[j].status == JobApproved)
  }

  /** Some repair counts afterwards that did not count before. */
  predicate NewlyCounts(items: seq<Item>, later: seq<Item>, jobs: seq<Job>, after: seq<Job>, r: nat)
    requires |jobs| <= |after|
  {
    exists j :: 0 <= j < |jobs| && !Counts(items, jobs[j], r) && Counts(later, after[j], r)
  }

  lemma ApprovalsPrefix(items: seq<Item>, later: seq<Item>, jobs: seq<Job>, after: seq<Job>, n: nat, r: nat)
    requires ApprovalsStay(jobs, after) && |after| == n + 1
    ensures var init := if |jobs| == |after| then jobs[..n] else jobs;
            && ApprovalsStay(init, after[..n])
            && (NewlyCounts(items, later, jobs, after, r) ==>
                  NewlyCounts(items, later, init, after[..n], r) ||
                  (|jobs| == |after| && !Counts(items, jobs[n], r) && Counts(later, after[n], r)))
  {
    hide Counts;
    if NewlyCounts(items, later, jobs, after, r) {
      var j :| 0 <= j < |jobs| && !Counts(items, jobs[j], r) && Counts(later, after[j], r);
      assert j < n ==> after[..n][j] == after[j];
    }
  }

  lemma CountsStays(items: seq<Item>, later: seq<Item>, jobs: seq<Job>, after: seq<Job>, n: nat, r: nat)
    requires ItemsStay(items, later) && ApprovalsStay(jobs, after) && n < |jobs| && Counts(items, jobs[n], r)
    ensures Counts(later, after[n], r)
  {
    assert RowStays(items[jobs[n].item], later[jobs[n].item]);
  }

  lemma {:induction false} ApprovalsGrow(items: seq<Item>, later: seq<Item>, jobs: seq<Job>, after: seq<Job>, r: nat)
    requires ItemsStay(items, later) && ApprovalsStay(jobs, after)
    ensures ApprovedRepairs(items, jobs, r) <= ApprovedRepairs(later, after, r)
    ensures NewlyCounts(items, later, jobs, after, r) ==>
              ApprovedRepairs(items, jobs, r) < ApprovedRepairs(later, after, r)
    decreases |after|
  {
    hide ItemsStay, Counts;
    if after != [] {
      var n := |after| - 1;
      ApprovalsPrefix(items, later, jobs, after, n, r);
      ApprovalsGrow(items, later, if |jobs| == |after| then jobs[..n] else jobs, after[..n], r);
      if |jobs| == |after| && Counts(items, jobs[n], r) {
        CountsStays(items, later, jobs, after, n, r);
      }
    }
  }

  /** Every row stays within the fixed part of the limit or does not rise. */
  predicate TopsStay(cap: nat, db: Db, after: Db) {
    && |db.runs| <= |after.runs|
    && (forall r :: 0 <= r < |db.runs| ==> Top(after.runs[r]) <= Top(db.runs[r]) || Top(after.runs[r]) <= cap)
    && (forall r :: |db.runs| <= r < |after.runs| ==> Top(after.runs[r]) <= cap)
  }

  lemma BoundedStays(cfg: Config, db: Db, after: Db)
    requires Bounded(cfg, db) && TopsStay(Cap(cfg.maxInfra), db, after)
    requires ItemsStay(db.items, after.items) && ApprovalsStay(db.jobs, after.jobs)
    requires forall j :: 0 <= j < |db.jobs| ==> db.jobs[j].item < |db.items|
    ensures Bounded(cfg, after)
  {
    hide ApprovedRepairs, Top;
    forall r | 0 <= r < |after.runs| ensures Top(after.runs[r]) <= Limit(cfg, after, r) {
      ApprovalsGrow(db.items, after.items, db.jobs, after.jobs, r);
    }
  }

  lemma WorkerTops(cfg: Config, s: Sys, e: Event)
    requires Inv(s) && ByWorker(e)
    ensures TopsStay(Cap(cfg.maxInfra), s.db, WorkerStep(cfg, s, e).db)
  {
    hide WorkersOk, Exclusive, SavesOk, Save, SavedItems, Sound;
    if e.SaveAll? && e.w < |s.workers| && s.workers[e.w].Processing? {
      var r, token := s.workers[e.w].run, s.workers[e.w].token;
      if Save(s.db, r, token, e.outcomes, cfg.maxInfra, e.now, cfg.delay).Ok? {
        SaveEffect(s.db, r, token, e.outcomes, cfg.maxInfra, e.now, cfg.delay);
      }
    }
    if e.GiveBack? && e.w < |s.workers| && s.workers[e.w].Releasing? {
      OneWorker(s, e.w);
      RunningIsCounted(s.db, s.workers[e.w].run);
    }
  }

  lemma OutsideTops(cfg: Config, db: Db, e: Event)
    requires !e.Decide?
    ensures TopsStay(Cap(cfg.maxInfra), db, Outside(cfg, db, e))
    ensures ApprovalsStay(db.jobs, Outside(cfg, db, e).jobs)
  {
    hide RequestRepair, DecideScope, AddDraft, ScopeRows;
    if e.Scope? && DecideScope(db, e.run, e.testCase, e.wanted).Ok? {
      DecideScopeStays(db, e.run, e.testCase, e.wanted);
    } else if e.Generate? && AddDraft(db, e.draft).Ok? {
      AddDraftTables(db, e.draft);
    } else if e.AskRepair? && RequestRepair(db, e.item, cfg.maxRepairs, e.now).Ok? {
      RequestRepairAdds(db, e.item, cfg.maxRepairs, e.now);
    }
  }

  lemma AddDraftTables(db: Db, a: Artifact)
    requires AddDraft(db, a).Ok?
    ensures AddDraft(db, a).value == db.(artifacts := AddDraft(db, a).value.artifacts)
  {
    hide Storable;
  }

  lemma RequestRepairAdds(db: Db, i: nat, maxRepairs: int, now: int)
    requires RequestRepair(db, i, maxRepairs, now).Ok?
    ensures var after := RequestRepair(db, i, maxRepairs, now).value.0;
            after == db.(jobs := after.jobs) && ApprovalsStay(db.jobs, after.jobs)
  {
    hide MaxJobAttempt, ActiveJob;
  }

  /** Repair workers approve nothing. */
  lemma RepairerApprovals(cfg: Config, s: Sys, e: Event)
    requires ByRepairer(e)
    ensures ApprovalsStay(s.db.jobs, RepairerStep(cfg, s, e).db.jobs)
  {
    hide RepairGuard.SameSemanticAssertions;
  }

  lemma AutoQueueTops(db: Db, analysis: Option<nat>, now: int)
    ensures forall r :: 0 <= r < |db.runs| ==> Top(AutoQueue(db, analysis, now).runs[r]) == Top(db.runs[r])
  {
    hide FullyAutomated;
  }

  /** One approved repair pays for the one attempt its re-queuing adds. */
  lemma ReviewBounded(cfg: Config, db: Db, id: nat, approve: bool, now: int)
    requires Sound(db) && Contracts(db.items) && Bounded(cfg, db) && Review(db, id, approve, now).Ok?
    requires forall j :: 0 <= j < |db.jobs| ==> db.jobs[j].item < |db.items|
    ensures Bounded(cfg, Review(db, id, approve, now).value)
  {
    hide Sound, Contracts, RequeueRun, AutoQueue, FirstAwaiting, Top, Limit, ItemsStay;
    var decided := db.(artifacts := db.artifacts[id := db.artifacts[id].(approval := if approve then Approved else Rejected)],
                       jobs := DecideJobs(db.jobs, id, approve));
    SoundParts(db, decided);
    StayRefl(db.items);
    var job := FirstAwaiting(db.jobs, id);
    var analysis := decided.artifacts[id].analysis;
    if !approve || job.None? {
      if approve { AutoQueueTables(decided, analysis, now); AutoQueueTops(decided, analysis, now); }
      var after := Review(db, id, approve, now).value;
      forall r | 0 <= r < |after.runs| ensures Top(after.runs[r]) <= Limit(cfg, after, r) {
        LimitGrows(cfg, db, after, r);
      }
    } else {
      var source := db.jobs[job.value].item;
      var requeued := RequeueRun(decided, source, id, now).value;
      var after := AutoQueue(requeued, analysis, now);
      AutoQueueTables(requeued, analysis, now);
      AutoQueueTops(requeued, analysis, now);
      RequeueTables(decided, source, id, now);
      RequeueContracts(decided, source, id, now);
      RequeueTops(decided, source, id, now);
      forall r | 0 <= r < |after.runs| ensures Top(after.runs[r]) <= Limit(cfg, after, r) {
        LimitGrows(cfg, db, after, r);
        if r == db.items[source].run {
          assert after.jobs[job.value].status == JobApproved;
          LimitGrowsByOne(cfg, db, after, job.value);
        }
      }
    }
  }

  lemma LimitGrows(cfg: Config, db: Db, after: Db, r: nat)
    requires ItemsStay(db.items, after.items) && ApprovalsStay(db.jobs, after.jobs)
    requires forall j :: 0 <= j < |db.jobs| ==> db.jobs[j].item < |db.items|
    ensures Limit(cfg, db, r) <= Limit(cfg, after, r)
  {
    ApprovalsGrow(db.items, after.items, db.jobs, after.jobs, r);
  }

  lemma CountsMore(items: seq<Item>, later: seq<Item>, jobs: seq<Job>, after: seq<Job>, j: nat, r: nat)
    requires ItemsStay(items, later) && ApprovalsStay(jobs, after) && j < |jobs| && jobs[j].item < |items|
    requires items[jobs[j].item].run == r && jobs[j].status != JobApproved && after[j].status == JobApproved
    ensures NewlyCounts(items, later, jobs, after, r)
  {
    assert RowStays(items[jobs[j].item], later[jobs[j].item]);
  }

  lemma LimitGrowsByOne(cfg: Config, db: Db, after: Db, j: nat)
    requires ItemsStay(db.items, after.items) && ApprovalsStay(db.jobs, after.jobs)
    requires forall k :: 0 <= k < |db.jobs| ==> db.jobs[k].item < |db.items|
    requires j < |db.jobs| && db.jobs[j].status != JobApproved && after.jobs[j].status == JobApproved
    ensures Limit(cfg, db, db.items[db.jobs[j].item].run) < Limit(cfg, after, db.items[db.jobs[j].item].run)
  {
    var r := db.items[db.jobs[j].item].run;
    CountsMore(db.items, after.items, db.jobs, after.jobs, j, r);
    ApprovalsGrow(db.items, after.items, db.jobs, after.jobs, r);
  }

  lemma AutoQueueTables(db: Db, analysis: Option<nat>, now: int)
    ensures var after := AutoQueue(db, analysis, now); after == db.(runs := after.runs) && |after.runs| == |db.runs|
  {
    hide AutoQueued;
  }

  lemma RequeueTops(db: Db, source: nat, artifact: nat, now: int)
    requires Sound(db) && RequeueRun(db, source, artifact, now).Ok?
    ensures source < |db.items|
    ensures var after := RequeueRun(db, source, artifact, now).value; var r := db.items[source].run;
            && r < |db.runs| == |after.runs|
            && Top(after.runs[r]) <= Top(db.runs[r]) + 1
            && forall k :: 0 <= k < |db.runs| && k != r ==> after.runs[k] == db.runs[k]
  {
    hide Sound, MaxAttempt, Keeps, AlignedAt;
    RequeueKeeps(db, source, artifact, now);
  }

  lemma StepBounded(cfg: Config, s: Sys, e: Event)
    requires Inv(s) && Contracts(s.db.items) && RepairSide(cfg, s) && Bounded(cfg, s.db)
    ensures Bounded(cfg, Step(cfg, s, e).db)
  {
    hide Contracts, Bounded, TopsStay, ItemsStay, ApprovalsStay, Outside, WorkerStep, RepairerStep, Review,
         WorkersOk, Exclusive, SavesOk, Sound, RepairersOk;
    JobItems(cfg, s.db);
    hide JobsOk;
    StepContracts(cfg, s, e);
    if e.Decide? {
      if Review(s.db, e.artifact, e.approve, e.now).Ok? {
        ReviewBounded(cfg, s.db, e.artifact, e.approve, e.now);
      }
      OutsideDecide(cfg, s.db, e);
    } else if ByRepairer(e) {
      RepairerKeepsRuns(cfg, s, e);
      RepairerApprovals(cfg, s, e);
      SameRowsTops(s.db, RepairerStep(cfg, s, e).db, Cap(cfg.maxInfra));
      BoundedStays(cfg, s.db, RepairerStep(cfg, s, e).db);
    } else if ByWorker(e) {
      WorkerTops(cfg, s, e);
      WorkerTables(cfg, s, e);
      SameApprovals(s.db.jobs);
      BoundedStays(cfg, s.db, WorkerStep(cfg, s, e).db);
    } else {
      OutsideTops(cfg, s.db, e);
      BoundedStays(cfg, s.db, Outside(cfg, s.db, e));
    }
  }

  lemma OutsideDecide(cfg: Config, db: Db, e: Event)
    requires e.Decide?
    ensures Outside(cfg, db, e) == Or(db, Review(db, e.artifact, e.approve, e.now))
  {
  }

  lemma SameApprovals(jobs: seq<Job>)
    ensures ApprovalsStay(jobs, jobs)
  {
  }

  lemma SameRowsTops(db: Db, after: Db, cap: nat)
    requires after.runs == db.runs
    ensures TopsStay(cap, db, after)
  {
  }

  /** In every reachable state no attempt number exceeds max(1, maxInfraAttempts) plus the run's approved repairs. */
  lemma {:induction false} AttemptsBounded(cfg: Config, s: Sys, events: seq<Event>)
    requires Initial(s)
    ensures var t := Play(cfg, s, events);
            Bounded(cfg, t.db) && forall i :: 0 <= i < |t.db.items| && Live(t.db.items[i]) ==>
              t.db.items[i].attempt <= Limit(cfg, t.db, t.db.items[i].run)
  {
    hide Inv, Contracts, RepairSide, Step, Limit;
    if events != [] {
      var init := Play(cfg, s, events[..|events| - 1]);
      AttemptsBounded(cfg, s, events[..|events| - 1]);
      JobsForever(cfg, s, events[..|events| - 1]);
      StepBounded(cfg, init, events[|events| - 1]);
    }
    Reachable(cfg, s, events);
    var t := Play(cfg, s, events);
    assert ItemsOk(t.db) by { SoundItems(t); }
    forall i | 0 <= i < |t.db.items| && Live(t.db.items[i]) ensures t.db.items[i].attempt <= Limit(cfg, t.db, t.db.items[i].run) {
      assert ItemOk(t.db.runs, t.db.items[i]);
    }
  }

  lemma SoundItems(s: Sys)
    requires Inv(s)
    ensures ItemsOk(s.db)
  {
  }

  // ---- bindings ----

  /** The artifact of an item is approved, made for its test case, and carries the item's expected result. */
  predicate BoundOk(artifacts: seq<Artifact>, item: Item) {
    && (item.artifact == None <==> item.sourceHash == "")
    && (item.artifact.Some? ==>
          item.artifact.value < |artifacts| && var a := artifacts[item.artifact.value];
          a.approval == Approved && a.testCase == item.testCase && a.sourceHash == item.sourceHash && a.expectedHash == item.expectedHash)
  }

  predicate AllBound(db: Db) {
    forall i :: 0 <= i < |db.items| ==> BoundOk(db.artifacts, db.items[i])
  }

  lemma BoundStays(artifacts: seq<Artifact>, later: seq<Artifact>, item: Item)
    requires BoundOk(artifacts, item) && ArtifactsStay(artifacts, later)
    ensures BoundOk(later, item)
  {
    if item.artifact.Some? {
      assert ArtifactStays(artifacts[item.artifact.value], later[item.artifact.value]);
    }
  }

  lemma {:induction false} SaveOutcomesBound(db: Db, r: nat, token: nat, os: seq<Outcome>, maxInfra: int)
    requires AllBound(db) && SaveOutcomes(db, r, token, os, maxInfra).Ok?
    ensures AllBound(SaveOutcomes(db, r, token, os, maxInfra).value)
  {
    hide AllBound, SaveOutcome;
    if os != [] {
      SaveOutcomesBound(db, r, token, os[..|os| - 1], maxInfra);
      SaveOutcomeBound(SaveOutcomes(db, r, token, os[..|os| - 1], maxInfra).value, r, token, os[|os| - 1], maxInfra);
    }
  }

  lemma SaveOutcomeBound(db: Db, r: nat, token: nat, o: Outcome, maxInfra: int)
    requires AllBound(db) && SaveOutcome(db, r, token, o, maxInfra).Ok?
    ensures AllBound(SaveOutcome(db, r, token, o, maxInfra).value)
  {
    hide AttemptExists, Retries;
    assert BoundOk(db.artifacts, db.items[o.item]);
  }

  lemma WorkerBound(cfg: Config, s: Sys, e: Event)
    requires AllBound(s.db) && ByWorker(e)
    ensures AllBound(WorkerStep(cfg, s, e).db)
  {
    hide SaveOutcomes, Claimable, BoundOk, AnyRetry;
    if e.SaveAll? && e.w < |s.workers| && s.workers[e.w].Processing? {
      var r, token := s.workers[e.w].run, s.workers[e.w].token;
      if SaveOutcomes(s.db, r, token, e.outcomes, cfg.maxInfra).Ok? {
        SaveOutcomesBound(s.db, r, token, e.outcomes, cfg.maxInfra);
      }
    }
  }

  lemma RequeueBound(db: Db, source: nat, artifact: nat, now: int)
    requires AllBound(db) && RequeueRun(db, source, artifact, now).Ok?
    ensures AllBound(RequeueRun(db, source, artifact, now).value)
  {
    hide MaxAttempt;
  }

  lemma ArtifactsMove(db: Db, after: Db)
    requires AllBound(db) && after.items == db.items && ArtifactsStay(db.artifacts, after.artifacts)
    ensures AllBound(after)
  {
    hide BoundOk, ArtifactsStay;
    forall i | 0 <= i < |db.items| ensures BoundOk(after.artifacts, db.items[i]) {
      BoundStays(db.artifacts, after.artifacts, db.items[i]);
    }
  }

  lemma ReviewBound(cfg: Config, db: Db, id: nat, approve: bool, now: int)
    requires AllBound(db) && JobsOk(cfg, db) && Review(db, id, approve, now).Ok?
    ensures AllBound(Review(db, id, approve, now).value)
  {
    hide AllBound, JobsOk, RequeueRun, AutoQueue, DecideJobs, FirstAwaiting, ArtifactsStay, JobsStay;
    DecideJobsKeeps(cfg, db, id, approve);
    var decided := db.(artifacts := db.artifacts[id := db.artifacts[id].(approval := if approve then Approved else Rejected)],
                       jobs := DecideJobs(db.jobs, id, approve));
    ArtifactsMove(db, decided);
    var job := FirstAwaiting(db.jobs, id);
    var analysis := decided.artifacts[id].analysis;
    if approve && job.Some? {
      var requeued := RequeueRun(decided, db.jobs[job.value].item, id, now).value;
      RequeueBound(decided, db.jobs[job.value].item, id, now);
      RunsDoNotBind(requeued, AutoQueue(requeued, analysis, now), analysis, now);
    } else if approve {
      RunsDoNotBind(decided, AutoQueue(decided, analysis, now), analysis, now);
    }
  }

  lemma RunsDoNotBind(db: Db, after: Db, analysis: Option<nat>, now: int)
    requires AllBound(db) && after == AutoQueue(db, analysis, now)
    ensures AllBound(after)
  {
    hide AutoQueued, BoundOk;
  }

  lemma ScopeBound(db: Db, r: nat, c: ScopedCase, wanted: bool)
    requires AllBound(db) && DecideScope(db, r, c, wanted).Ok?
    ensures AllBound(DecideScope(db, r, c, wanted).value)
  {
    hide AnyUnstarted, AttemptExists;
    var after := DecideScope(db, r, c, wanted).value;
    forall i | 0 <= i < |after.items| ensures BoundOk(after.artifacts, after.items[i]) {
      assert i < |db.items| ==> BoundOk(db.artifacts, db.items[i]);
    }
  }

  lemma OutsideBound(cfg: Config, db: Db, e: Event)
    requires AllBound(db) && JobsOk(cfg, db)
    ensures AllBound(Outside(cfg, db, e))
  {
    hide JobsOk, Review, RequestRepair, DecideScope, Storable, ScopeRows;
    if e.Scope? {
      if DecideScope(db, e.run, e.testCase, e.wanted).Ok? { ScopeBound(db, e.run, e.testCase, e.wanted); }
    } else if e.Decide? {
      if Review(db, e.artifact, e.approve, e.now).Ok? { ReviewBound(cfg, db, e.artifact, e.approve, e.now); }
    } else if e.AskRepair? {
      if RequestRepair(db, e.item, cfg.maxRepairs, e.now).Ok? { RequestRepairItems(db, e.item, cfg.maxRepairs, e.now); }
    } else if e.Correct? && Reclassify(db, e.item, e.verdict).Ok? {
      assert BoundOk(db.artifacts, db.items[e.item]);
    }
  }

  lemma StepBound(cfg: Config, s: Sys, e: Event)
    requires Inv(s) && Contracts(s.db.items) && RepairSide(cfg, s) && AllBound(s.db)
    ensures AllBound(Step(cfg, s, e).db)
  {
    hide Inv, Contracts, RepairersOk, JobsOk, AllBound, Outside, WorkerStep, RepairerStep, ArtifactsStay, JobsStay;
    if ByRepairer(e) {
      RepairerJobs(cfg, s, e);
      RepairerKeepsRuns(cfg, s, e);
      ArtifactsMove(s.db, RepairerStep(cfg, s, e).db);
    } else if ByWorker(e) {
      WorkerBound(cfg, s, e);
    } else {
      OutsideBound(cfg, s.db, e);
    }
  }

  /** No item is ever bound to an artifact that is not approved for its case and its immutable expected result. */
  lemma {:induction false} BoundForever(cfg: Config, s: Sys, events: seq<Event>)
    requires Initial(s)
    ensures AllBound(Play(cfg, s, events).db)
  {
    hide Inv, Contracts, RepairSide, Step, BoundOk;
    if events != [] {
      BoundForever(cfg, s, events[..|events| - 1]);
      JobsForever(cfg, s, events[..|events| - 1]);
      StepBound(cfg, Play(cfg, s, events[..|events| - 1]), events[|events| - 1]);
    }
  }
}
