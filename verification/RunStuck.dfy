/** What never moves again, and what moves without end: lost claims, stranded runs, failing runs. */
module RunStuck {
  import opened Results
  import opened RunModel
  import opened RunInvariants
  import opened RunWorkers
  import opened RunTheorems
  import opened RepairJobs
  import RepairGuard

  // ---- runs whose worker is gone ----

  predicate SomeoneHolds(workers: seq<Worker>, r: nat) {
    exists w :: 0 <= w < |workers| && Holds(workers[w], r)
  }

  predicate Orphaned(s: Sys, r: nat) {
    r < |s.db.runs| && s.db.runs[r].status == Running && !SomeoneHolds(s.workers, r)
  }

  /** The worker that holds the run crashes, or its release does not get through in time. */
  predicate LosesRun(s: Sys, e: Event, r: nat) {
    && (e.Crash? || e.ReleaseFails?) && e.w < |s.workers| && Holds(s.workers[e.w], r)
    && (e.ReleaseFails? ==> s.workers[e.w].Releasing?)
  }

  /** Somewhere along the events the run was lost. */
  predicate Lost(cfg: Config, s: Sys, events: seq<Event>, r: nat) {
    exists k :: 0 <= k < |events| && LosesRun(Play(cfg, s, events[..k]), events[k], r)
  }

  /** No event changes the row of an orphaned run, and nobody comes to hold it. */
  lemma OrphanStep(cfg: Config, s: Sys, e: Event, r: nat)
    requires Inv(s) && Orphaned(s, r)
    ensures Orphaned(Step(cfg, s, e), r) && Step(cfg, s, e).db.runs[r] == s.db.runs[r]
  {
    hide Sound, WorkersOk, SavesOk, Exclusive, Outside, RepairerStep, WorkerStep, PastStays;
    if ByRepairer(e) {
      RepairerKeepsRuns(cfg, s, e);
    } else if !ByWorker(e) {
      OutsideKeeps(cfg, s.db, e);
      assert QuietRow(s.db.runs[r], Outside(cfg, s.db, e).runs[r]);
    } else {
      OrphanWorkerStep(cfg, s, e, r);
    }
  }

  lemma OrphanWorkerStep(cfg: Config, s: Sys, e: Event, r: nat)
    requires Inv(s) && Orphaned(s, r) && ByWorker(e)
    ensures Orphaned(WorkerStep(cfg, s, e), r) && WorkerStep(cfg, s, e).db.runs[r] == s.db.runs[r]
  {
    hide Sound, SavesOk, Exclusive, Save, SavedItems, FinishedAttempt;
    assert forall w :: 0 <= w < |s.workers| ==> !Holds(s.workers[w], r);
    if (e.Renew? || e.SaveAll? || e.GiveBack?) && e.w < |s.workers| && !s.workers[e.w].Idle? {
      var run, token := s.workers[e.w].run, s.workers[e.w].token;
      assert WorkerOk(s.db, s.workers[e.w]);
      if e.SaveAll? && Save(s.db, run, token, e.outcomes, cfg.maxInfra, e.now, cfg.delay).Ok? {
        SaveEffect(s.db, run, token, e.outcomes, cfg.maxInfra, e.now, cfg.delay);
      }
    }
  }

  /** A run that has lost its worker is never claimed again: no sequence of events changes its row. */
  lemma {:induction false} OrphanStuck(cfg: Config, s: Sys, events: seq<Event>, r: nat)
    requires Inv(s) && Orphaned(s, r)
    ensures Orphaned(Play(cfg, s, events), r) && Play(cfg, s, events).db.runs[r] == s.db.runs[r]
    ensures Inv(Play(cfg, s, events))
  {
    hide Inv, Step, Orphaned;
    if events != [] {
      var init := Play(cfg, s, events[..|events| - 1]);
      OrphanStuck(cfg, s, events[..|events| - 1], r);
      StepKeeps(cfg, init, events[|events| - 1]);
      OrphanStep(cfg, init, events[|events| - 1], r);
    }
  }

  lemma LosingOrphans(cfg: Config, s: Sys, e: Event, r: nat)
    requires Inv(s) && LosesRun(s, e, r)
    ensures Orphaned(Step(cfg, s, e), r)
  {
    hide Sound, SavesOk;
    assert WorkerOk(s.db, s.workers[e.w]);
    var t := Step(cfg, s, e);
    forall v | 0 <= v < |t.workers| ensures !Holds(t.workers[v], r) {
    }
  }

  /** Nothing else orphans a run. */
  lemma KeptStep(cfg: Config, s: Sys, e: Event, r: nat)
    requires Inv(s) && !Orphaned(s, r) && !LosesRun(s, e, r)
    ensures !Orphaned(Step(cfg, s, e), r)
  {
    hide Sound, WorkersOk, SavesOk, Exclusive, Outside, RepairerStep, WorkerStep, SomeoneHolds, PastStays;
    if ByRepairer(e) {
      RepairerKeepsRuns(cfg, s, e);
    } else if !ByWorker(e) {
      OutsideKeeps(cfg, s.db, e);
      OnlyOldRunning(cfg, s.db, e);
      assert r < |s.db.runs| ==> QuietRow(s.db.runs[r], Outside(cfg, s.db, e).runs[r]);
    } else if e.w < |s.workers| {
      KeptWorkerStep(cfg, s, e, r);
    } else {
      assert WorkerStep(cfg, s, e) == s by { NoSuchWorker(cfg, s, e); }
    }
  }

  lemma NoSuchWorker(cfg: Config, s: Sys, e: Event)
    requires ByWorker(e) && e.w >= |s.workers|
    ensures WorkerStep(cfg, s, e) == s
  {
  }

  lemma OnlyOldRunning(cfg: Config, db: Db, e: Event)
    ensures forall r :: |db.runs| <= r < |Outside(cfg, db, e).runs| ==> Outside(cfg, db, e).runs[r].status == Pending
  {
    hide Review, RequestRepair, Reclassify, DecideScope, AddDraft, ScopeRows;
    match e
    case Scope(r, c, wanted) =>
      if DecideScope(db, r, c, wanted).Ok? { DecideScopeStays(db, r, c, wanted); }
    case Generate(a) =>
      if AddDraft(db, a).Ok? { AddDraftRuns(db, a); }
    case Decide(id, approve, now) =>
      if Review(db, id, approve, now).Ok? { ReviewAddsNoRun(db, id, approve, now); }
    case AskRepair(i, now) =>
      if RequestRepair(db, i, cfg.maxRepairs, now).Ok? { RequestRepairItems(db, i, cfg.maxRepairs, now); }
    case Correct(i, verdict) =>
      if Reclassify(db, i, verdict).Ok? { ReclassifyRuns(db, i, verdict); }
    case _ =>
  }

  lemma AddDraftRuns(db: Db, a: Artifact)
    requires AddDraft(db, a).Ok?
    ensures AddDraft(db, a).value.runs == db.runs
  {
    hide Storable;
  }

  lemma ReclassifyRuns(db: Db, i: nat, verdict: Verdict)
    requires Reclassify(db, i, verdict).Ok?
    ensures Reclassify(db, i, verdict).value.runs == db.runs
  {
  }

  lemma ReviewAddsNoRun(db: Db, id: nat, approve: bool, now: int)
    requires Review(db, id, approve, now).Ok?
    ensures |Review(db, id, approve, now).value.runs| == |db.runs|
  {
    hide DecideJobs, FirstAwaiting, MaxAttempt, AutoQueued;
  }

  lemma KeptWorkerStep(cfg: Config, s: Sys, e: Event, r: nat)
    requires Inv(s) && ByWorker(e) && e.w < |s.workers| && !Orphaned(s, r) && !LosesRun(s, e, r)
    ensures !Orphaned(WorkerStep(cfg, s, e), r)
  {
    hide Sound, SavesOk, Exclusive, Save, SavedItems, FinishedAttempt;
    var t, mine := WorkerStep(cfg, s, e), s.workers[e.w];
    assert WorkerOk(s.db, mine);
    if e.SaveAll? && mine.Processing? && Save(s.db, mine.run, mine.token, e.outcomes, cfg.maxInfra, e.now, cfg.delay).Ok? {
      SaveEffect(s.db, mine.run, mine.token, e.outcomes, cfg.maxInfra, e.now, cfg.delay);
    }
    assert |t.db.runs| == |s.db.runs| && |t.workers| == |s.workers|;
    if r < |t.db.runs| && t.db.runs[r].status == Running {
      if s.db.runs[r].status == Running {
        var v :| 0 <= v < |s.workers| && Holds(s.workers[v], r);
        assert v != e.w ==> Holds(t.workers[v], r);
        assert v == e.w ==> Holds(t.workers[e.w], r) by { OwnHold(cfg, s, e, r); }
      } else {
        assert e.Claim? && Holds(t.workers[e.w], r);
      }
    }
  }

  lemma OwnHold(cfg: Config, s: Sys, e: Event, r: nat)
    requires Inv(s) && ByWorker(e) && e.w < |s.workers| && r < |s.db.runs| && !LosesRun(s, e, r)
    requires r < |WorkerStep(cfg, s, e).db.runs| && WorkerStep(cfg, s, e).db.runs[r].status == Running
    ensures Holds(s.workers[e.w], r) ==> Holds(WorkerStep(cfg, s, e).workers[e.w], r)
  {
    hide Sound, SavesOk, Exclusive, Save, SavedItems, FinishedAttempt, Claimable;
    var mine := s.workers[e.w];
    assert WorkerOk(s.db, mine);
    if e.SaveAll? && mine.Processing? && Save(s.db, mine.run, mine.token, e.outcomes, cfg.maxInfra, e.now, cfg.delay).Ok? {
      SaveEffect(s.db, mine.run, mine.token, e.outcomes, cfg.maxInfra, e.now, cfg.delay);
    }
    if e.GiveBack? && mine.Releasing? {
      RunningIsCounted(s.db, mine.run);
    }
  }

  /** After any events a run is orphaned if and only if its holder crashed, or failed to release it, on the way. */
  lemma {:induction false} OrphanedExactly(cfg: Config, s: Sys, events: seq<Event>, r: nat)
    requires Initial(s)
    ensures Orphaned(Play(cfg, s, events), r) <==> Lost(cfg, s, events, r)
  {
    hide Inv, Step, LosesRun, Orphaned, Lost;
    if events == [] {
      NothingLost(cfg, s, r);
    } else {
      var init, last := events[..|events| - 1], events[|events| - 1];
      var before := Play(cfg, s, init);
      OrphanedExactly(cfg, s, init, r);
      Reachable(cfg, s, init);
      LostStep(cfg, s, events, r);
      if Orphaned(before, r) {
        OrphanStep(cfg, before, last, r);
      } else if LosesRun(before, last, r) {
        LosingOrphans(cfg, before, last, r);
      } else {
        KeptStep(cfg, before, last, r);
      }
    }
  }

  lemma NothingLost(cfg: Config, s: Sys, r: nat)
    requires Initial(s)
    ensures !Orphaned(s, r) && !Lost(cfg, s, [], r)
  {
  }

  lemma LostStep(cfg: Config, s: Sys, events: seq<Event>, r: nat)
    requires events != []
    ensures var init, last := events[..|events| - 1], events[|events| - 1];
            Lost(cfg, s, events, r) <==> Lost(cfg, s, init, r) || LosesRun(Play(cfg, s, init), last, r)
  {
    hide LosesRun, Play;
    var n := |events| - 1;
    var init := events[..n];
    assert forall k :: 0 <= k <= n ==> init[..k] == events[..k];
    if Lost(cfg, s, events, r) {
      var k :| 0 <= k < |events| && LosesRun(Play(cfg, s, events[..k]), events[k], r);
      assert k < n ==> init[..k] == events[..k] && init[k] == events[k];
    }
    if Lost(cfg, s, init, r) {
      var k :| 0 <= k < n && LosesRun(Play(cfg, s, init[..k]), init[k], r);
      assert events[..k] == init[..k] && events[k] == init[k];
    }
  }

  // ---- repair jobs whose worker is gone ----

  predicate SomeoneRepairs(reps: seq<Repairer>, j: nat) {
    exists w :: 0 <= w < |reps| && !reps[w].Free? && reps[w].job == j
  }

  predicate Deserted(s: Sys, j: nat) {
    j < |s.db.jobs| && s.db.jobs[j].status == Repairing && !SomeoneRepairs(s.repairers, j)
  }

  /** The worker on the job crashes, or cannot give the job back. */
  predicate LosesJob(s: Sys, e: Event, j: nat) {
    (e.CrashRepairer? || e.ReturnFails?) && e.w < |s.repairers| && !s.repairers[e.w].Free? && s.repairers[e.w].job == j
  }

  predicate JobLost(cfg: Config, s: Sys, events: seq<Event>, j: nat) {
    exists k :: 0 <= k < |events| && LosesJob(Play(cfg, s, events[..k]), events[k], j)
  }

  predicate AllInOrder(cfg: Config, s: Sys) {
    Inv(s) && Contracts(s.db.items) && RepairSide(cfg, s)
  }

  /** No event moves a deserted job, and nobody takes it up. */
  lemma DesertedStep(cfg: Config, s: Sys, e: Event, j: nat)
    requires AllInOrder(cfg, s) && Deserted(s, j)
    ensures Deserted(Step(cfg, s, e), j) && Step(cfg, s, e).db.jobs[j] == s.db.jobs[j]
  {
    hide Sound, WorkersOk, SavesOk, Exclusive, Contracts, JobsOk, Outside, RepairerStep, WorkerStep, ArtifactsStay, JobsStay;
    if ByRepairer(e) {
      DesertedRepairerStep(cfg, s, e, j);
    } else if ByWorker(e) {
      WorkerTables(cfg, s, e);
    } else {
      OutsideJobs(cfg, s.db, e);
    }
  }

  lemma DesertedRepairerStep(cfg: Config, s: Sys, e: Event, j: nat)
    requires RepairSide(cfg, s) && ByRepairer(e) && Deserted(s, j)
    ensures Deserted(RepairerStep(cfg, s, e), j) && RepairerStep(cfg, s, e).db.jobs[j] == s.db.jobs[j]
  {
    hide JobsOk, RepairGuard.SameSemanticAssertions, Storable;
    assert forall w :: 0 <= w < |s.repairers| && !s.repairers[w].Free? ==> s.repairers[w].job != j;
  }

  lemma LosingDeserts(cfg: Config, s: Sys, e: Event, j: nat)
    requires RepairSide(cfg, s) && LosesJob(s, e, j)
    ensures Deserted(Step(cfg, s, e), j)
  {
    hide JobsOk;
    HeldRepair(s.db, s.repairers, e.w);
  }

  /** Nothing else deserts a job. */
  lemma TendedStep(cfg: Config, s: Sys, e: Event, j: nat)
    requires AllInOrder(cfg, s) && !Deserted(s, j) && !LosesJob(s, e, j)
    ensures !Deserted(Step(cfg, s, e), j)
  {
    hide Sound, WorkersOk, SavesOk, Exclusive, Contracts, JobsOk, Outside, RepairerStep, WorkerStep, ArtifactsStay, SomeoneRepairs;
    if ByRepairer(e) {
      TendedRepairerStep(cfg, s, e, j);
    } else if ByWorker(e) {
      WorkerTables(cfg, s, e);
    } else {
      OutsideStartsNothing(cfg, s.db, e, j);
    }
  }

  lemma OutsideStartsNothing(cfg: Config, db: Db, e: Event, j: nat)
    ensures var after := Outside(cfg, db, e);
            j < |after.jobs| && after.jobs[j].status == Repairing ==> j < |db.jobs| && db.jobs[j].status == Repairing
  {
    hide CreateRun, Request, Reclassify, Review, RequestRepair, DecideScope, AddDraft;
    match e
    case Create(cases, left, analysis) => OutsideJobsSame(cfg, db, e);
    case Scope(r, c, wanted) => OutsideJobsSame(cfg, db, e);
    case Ask(r, now) => OutsideJobsSame(cfg, db, e);
    case Correct(i, verdict) => OutsideJobsSame(cfg, db, e);
    case Generate(a) => OutsideJobsSame(cfg, db, e);
    case Decide(id, approve, now) =>
      if Review(db, id, approve, now).Ok? { ReviewDecides(db, id, approve, now); }
    case AskRepair(i, now) =>
      if RequestRepair(db, i, cfg.maxRepairs, now).Ok? { RequestRepairQueues(db, i, cfg.maxRepairs, now); }
    case _ =>
  }

  lemma OutsideJobsSame(cfg: Config, db: Db, e: Event)
    requires !e.Decide? && !e.AskRepair?
    ensures Outside(cfg, db, e).jobs == db.jobs
  {
    hide ScopeRows, Storable, AttemptExists, AnyUnstarted;
  }

  lemma RequestRepairQueues(db: Db, i: nat, maxRepairs: int, now: int)
    requires RequestRepair(db, i, maxRepairs, now).Ok?
    ensures var after := RequestRepair(db, i, maxRepairs, now).value.0.jobs;
            db.jobs <= after && forall k :: |db.jobs| <= k < |after| ==> after[k].status == Queued
  {
    hide ActiveJob, MaxJobAttempt;
  }

  lemma TendedRepairerStep(cfg: Config, s: Sys, e: Event, j: nat)
    requires RepairSide(cfg, s) && ByRepairer(e) && !Deserted(s, j) && !LosesJob(s, e, j)
    ensures !Deserted(RepairerStep(cfg, s, e), j)
  {
    hide JobsOk, RepairersOk, RepairerStep, Deserted;
    if e.StartRepair? {
      TendedStart(cfg, s, e, j);
    } else if e.w < |s.repairers| {
      TendedOwn(cfg, s, e, j);
    } else {
      NoSuchRepairer(cfg, s, e);
    }
  }

  lemma NoSuchRepairer(cfg: Config, s: Sys, e: Event)
    requires ByRepairer(e) && !e.StartRepair? && e.w >= |s.repairers|
    ensures RepairerStep(cfg, s, e) == s
  {
    hide RepairGuard.SameSemanticAssertions, CompleteRepair, LoadRepairSubject;
  }

  lemma TendedStart(cfg: Config, s: Sys, e: Event, j: nat)
    requires e.StartRepair? && !Deserted(s, j)
    ensures !Deserted(RepairerStep(cfg, s, e), j)
  {
    var t := RepairerStep(cfg, s, e);
    if t != s && j < |t.db.jobs| && t.db.jobs[j].status == Repairing {
      if j == e.job {
        assert !t.repairers[e.w].Free? && t.repairers[e.w].job == j;
      } else {
        var v :| 0 <= v < |s.repairers| && !s.repairers[v].Free? && s.repairers[v].job == j;
        assert t.repairers[v] == s.repairers[v];
      }
    }
  }

  /** A worker that has a job moves no other, and lets go of it only by ending it or losing it. */
  lemma OwnJobOnly(cfg: Config, s: Sys, e: Event)
    requires RepairSide(cfg, s) && ByRepairer(e) && !e.StartRepair? && e.w < |s.repairers|
    ensures var t, mine := RepairerStep(cfg, s, e), s.repairers[e.w];
            && |t.db.jobs| == |s.db.jobs| && |t.repairers| == |s.repairers|
            && (forall v :: 0 <= v < |s.repairers| && v != e.w ==> t.repairers[v] == s.repairers[v])
            && (forall k :: 0 <= k < |s.db.jobs| && (mine.Free? || k != mine.job) ==> t.db.jobs[k] == s.db.jobs[k])
            && (!mine.Free? && !e.CrashRepairer? && !e.ReturnFails? && t.repairers[e.w].Free? ==>
                  mine.job < |t.db.jobs| && t.db.jobs[mine.job].status != Repairing)
            && (!t.repairers[e.w].Free? ==> !mine.Free? && t.repairers[e.w].job == mine.job)
  {
    hide JobsOk, RepairersOk, RepairGuard.SameSemanticAssertions, Storable, LoadRepairSubject;
    if !s.repairers[e.w].Free? {
      HeldRepair(s.db, s.repairers, e.w);
    }
  }

  lemma TendedOwn(cfg: Config, s: Sys, e: Event, j: nat)
    requires RepairSide(cfg, s) && ByRepairer(e) && !e.StartRepair? && e.w < |s.repairers|
    requires !Deserted(s, j) && !LosesJob(s, e, j)
    ensures !Deserted(RepairerStep(cfg, s, e), j)
  {
    hide RepairSide, RepairerStep;
    OwnJobOnly(cfg, s, e);
    var t, mine := RepairerStep(cfg, s, e), s.repairers[e.w];
    if j < |t.db.jobs| && t.db.jobs[j].status == Repairing {
      if mine.Free? || j != mine.job {
        var v :| 0 <= v < |s.repairers| && !s.repairers[v].Free? && s.repairers[v].job == j;
        assert !t.repairers[v].Free? && t.repairers[v].job == j;
      } else {
        assert !t.repairers[e.w].Free? && t.repairers[e.w].job == j;
      }
    }
  }

  /** After any events a job is deserted if and only if its worker crashed, or could not give it back, on the way. */
  lemma {:induction false} DesertedExactly(cfg: Config, s: Sys, events: seq<Event>, j: nat)
    requires Initial(s)
    ensures Deserted(Play(cfg, s, events), j) <==> JobLost(cfg, s, events, j)
  {
    hide Inv, Contracts, RepairSide, Step, LosesJob, Deserted, JobLost;
    if events == [] {
      NoJobLost(cfg, s, j);
    } else {
      var init, last := events[..|events| - 1], events[|events| - 1];
      var before := Play(cfg, s, init);
      DesertedExactly(cfg, s, init, j);
      JobsForever(cfg, s, init);
      JobLostStep(cfg, s, events, j);
      if Deserted(before, j) {
        DesertedStep(cfg, before, last, j);
      } else if LosesJob(before, last, j) {
        LosingDeserts(cfg, before, last, j);
      } else {
        TendedStep(cfg, before, last, j);
      }
    }
  }

  lemma NoJobLost(cfg: Config, s: Sys, j: nat)
    requires Initial(s)
    ensures !Deserted(s, j) && !JobLost(cfg, s, [], j)
  {
  }

  lemma JobLostStep(cfg: Config, s: Sys, events: seq<Event>, j: nat)
    requires events != []
    ensures var init, last := events[..|events| - 1], events[|events| - 1];
            JobLost(cfg, s, events, j) <==> JobLost(cfg, s, init, j) || LosesJob(Play(cfg, s, init), last, j)
  {
    hide LosesJob, Play;
    var n := |events| - 1;
    var init := events[..n];
    assert forall k :: 0 <= k <= n ==> init[..k] == events[..k];
    if JobLost(cfg, s, events, j) {
      var k :| 0 <= k < |events| && LosesJob(Play(cfg, s, events[..k]), events[k], j);
      assert k < n ==> init[..k] == events[..k] && init[k] == events[k];
    }
    if JobLost(cfg, s, init, j) {
      var k :| 0 <= k < n && LosesJob(Play(cfg, s, init[..k]), init[k], j);
      assert events[..k] == init[..k] && events[k] == init[k];
    }
  }

  /** The run and case of the job can never again be given another: every request that succeeds returns this one. */
  lemma {:induction false} DesertedBlocks(cfg: Config, s: Sys, later: seq<Event>, j: nat, i: nat, now: int)
    requires AllInOrder(cfg, s) && Deserted(s, j)
    ensures var db := Play(cfg, s, later).db;
            && AllInOrder(cfg, Play(cfg, s, later)) && Deserted(Play(cfg, s, later), j) && db.jobs[j] == s.db.jobs[j]
            && (i < |db.items| && (db.items[i].run, db.items[i].testCase) == JobKey(db.items, db.jobs[j]) ==>
                  RequestRepair(db, i, cfg.maxRepairs, now).Ok? ==> RequestRepair(db, i, cfg.maxRepairs, now) == Ok((db, j)))
  {
    hide Inv, Contracts, RepairSide, Step, Deserted, RequestRepair, JobsStay, ArtifactsStay, ItemsStay, JobKey;
    if later != [] {
      var init := Play(cfg, s, later[..|later| - 1]);
      var e := later[|later| - 1];
      DesertedBlocks(cfg, s, later[..|later| - 1], j, i, now);
      DesertedStep(cfg, init, e, j);
      StepKeeps(cfg, init, e);
      StepContracts(cfg, init, e);
      StepJobs(cfg, init, e);
    }
    var db := Play(cfg, s, later).db;
    assert j < |db.jobs| by { DesertedInRange(Play(cfg, s, later), j); }
    if i < |db.items| && (db.items[i].run, db.items[i].testCase) == JobKey(db.items, db.jobs[j]) &&
       RequestRepair(db, i, cfg.maxRepairs, now).Ok? {
      ActiveBlocks(cfg, Play(cfg, s, later), j, i, now);
    }
  }

  lemma DesertedInRange(s: Sys, j: nat)
    requires Deserted(s, j)
    ensures j < |s.db.jobs|
  {
  }

  lemma ActiveBlocks(cfg: Config, s: Sys, j: nat, i: nat, now: int)
    requires RepairSide(cfg, s) && Deserted(s, j) && i < |s.db.items|
    requires (s.db.items[i].run, s.db.items[i].testCase) == JobKey(s.db.items, s.db.jobs[j])
    requires RequestRepair(s.db, i, cfg.maxRepairs, now).Ok?
    ensures RequestRepair(s.db, i, cfg.maxRepairs, now) == Ok((s.db, j))
  {
    hide JobOk, Numbered, WithinLimit, RepairedOnce, AllStorable, RepairersOk, ActiveJob, MaxJobAttempt;
    var active := ActiveJob(s.db, JobKey(s.db.items, s.db.jobs[j]));
    assert active.Some?;
    SameActive(s.db.items, s.db.jobs, active.value, j);
  }

  lemma SameActive(items: seq<Item>, jobs: seq<Job>, i: nat, j: nat)
    requires OneActive(items, jobs) && i < |jobs| && j < |jobs| && JobKey(items, jobs[i]) == JobKey(items, jobs[j])
    requires Active(jobs[i].status) && Active(jobs[j].status)
    ensures i == j
  {
  }
}
