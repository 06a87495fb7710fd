/** Which runs have something to execute: what empties a run, what stocks it again, and what its claims then find. */
module RunStock {
  import opened Results
  import opened RunModel
  import opened RunInvariants
  import opened RunWorkers
  import opened RunTheorems
  import opened RunStuck

  /** The run has an item at the attempt it is at. */
  predicate Stocked(db: Db, r: nat) {
    r < |db.runs| && HasAttempt(db.items, r, Top(db.runs[r]))
  }

  /** The run is on record and has none. */
  predicate Empty(db: Db, r: nat) {
    r < |db.runs| && !HasAttempt(db.items, r, Top(db.runs[r]))
  }

  /** An exclusion that deletes something and leaves no item at the run's attempt. */
  predicate Empties(db: Db, e: Event, r: nat) {
    && e.Scope? && e.run == r && !e.wanted && Changes(db, r, e.testCase.testCase, false)
    && AnyUnstarted(db.items, r, e.testCase.testCase)
    && !KeepsTop(db.items, r, Top(db.runs[r]), e.testCase.testCase)
  }

  /** The approval puts an item of this run back into it. */
  predicate RepairsInto(db: Db, e: Event, r: nat) {
    && e.Decide? && e.approve && Review(db, e.artifact, true, e.now).Ok?
    && var job := FirstAwaiting(db.jobs, e.artifact);
       job.Some? && db.jobs[job.value].item < |db.items| && db.items[db.jobs[job.value].item].run == r
  }

  /** The decision inserts a first try while the run is still at its first attempt. */
  predicate IncludesInto(db: Db, e: Event, r: nat) {
    && e.Scope? && e.run == r && e.wanted && Changes(db, r, e.testCase.testCase, true)
    && !AttemptExists(db.items, r, e.testCase.testCase, 1) && Top(db.runs[r]) == 1
  }

  predicate Restocks(db: Db, e: Event, r: nat) {
    IncludesInto(db, e, r) || RepairsInto(db, e, r)
  }

  // ---- what each transaction does to the stock ----

  predicate SameStock(before: Db, after: Db, r: nat) {
    (Stocked(after, r) <==> Stocked(before, r)) && (Empty(after, r) <==> Empty(before, r))
  }

  ghost predicate StockStays(before: Db, after: Db) {
    forall r: nat :: SameStock(before, after, r)
  }

  /** Rows that stay at their attempt, items that are left alone. */
  lemma CalmStock(db: Db, after: Db)
    requires after.items == db.items && |after.runs| == |db.runs|
    requires forall r :: 0 <= r < |db.runs| ==> Top(after.runs[r]) == Top(db.runs[r])
    ensures StockStays(db, after)
  {
    hide HasAttempt, Top;
  }

  lemma SameRunsStock(db: Db, after: Db)
    requires after.items == db.items && after.runs == db.runs
    ensures StockStays(db, after)
  {
    hide HasAttempt, Top;
  }

  lemma OneRowStock(db: Db, r: nat, run: Run)
    requires r < |db.runs| && Top(run) == Top(db.runs[r])
    ensures StockStays(db, SetRun(db, r, run))
  {
    hide Top;
    CalmStock(db, SetRun(db, r, run));
  }

  lemma ReclassifyStock(db: Db, i: nat, verdict: Verdict)
    requires Reclassify(db, i, verdict).Ok?
    ensures StockStays(db, Reclassify(db, i, verdict).value)
  {
    var after := Reclassify(db, i, verdict).value;
    forall r: nat ensures SameStock(db, after, r) {
      if r < |db.runs| {
        AttemptsStay(db.items, after.items, r, Top(db.runs[r]));
        AttemptsStay(after.items, db.items, r, Top(db.runs[r]));
      }
    }
  }

  lemma AutoQueueStock(db: Db, analysis: Option<nat>, now: int)
    ensures StockStays(db, AutoQueue(db, analysis, now))
  {
    hide FullyAutomated, StockStays;
    CalmStock(db, AutoQueue(db, analysis, now));
  }

  /** Items added for one run are no other run's. */
  lemma AddedElsewhere(before: seq<Item>, after: seq<Item>, r: nat, k: nat, top: nat)
    requires before <= after && k != r
    requires forall i :: |before| <= i < |after| ==> after[i].run == r
    ensures HasAttempt(after, k, top) <==> HasAttempt(before, k, top)
  {
    AttemptsGrow(before, after, k, top);
    if HasAttempt(after, k, top) {
      var i :| 0 <= i < |after| && InAttempt(after[i], k, top);
      assert InAttempt(before[i], k, top);
    }
  }

  /** A new run has something to execute; the others keep what they have. */
  lemma CreateStock(db: Db, cases: seq<ScopedCase>, left: set<nat>, analysis: Option<nat>, r: nat)
    requires CreateRun(db, cases, left, analysis).Ok?
    ensures var after := CreateRun(db, cases, left, analysis).value;
            if r == |db.runs| then Stocked(after, r) && !Empty(after, r) else SameStock(db, after, r)
  {
    hide HasAttempt, ScopeRows;
    var after := CreateRun(db, cases, left, analysis).value;
    var n := |db.items|;
    if r < |db.runs| {
      AddedElsewhere(db.items, after.items, |db.runs|, r, Top(db.runs[r]));
    } else if r == |db.runs| {
      assert after.items[n] == FirstTry(r, cases[0]);
      LatestAdded(after.items, n, r);
    }
  }

  /** A save that commits found items at its attempt. */
  lemma SavedHasAttempt(db: Db, r: nat, token: nat, os: seq<Outcome>, maxInfra: int, now: int, delay: nat)
    requires Save(db, r, token, os, maxInfra, now, delay).Ok?
    ensures HasAttempt(db.items, r, token)
  {
    hide SaveOutcomes, CloseAttempt, Written;
    SaveOutcomesExact(db, r, token, os, maxInfra);
    assert InAttempt(db.items[os[0].item], r, token);
  }

  /** Whatever the worker reports for a claim without items, nothing can be saved: its processing can only fail. */
  lemma StrandedSavesNothing(db: Db, r: nat, token: nat, os: seq<Outcome>, maxInfra: int, now: int, delay: nat)
    requires !HasAttempt(db.items, r, token)
    ensures Save(db, r, token, os, maxInfra, now, delay).Err?
  {
    hide Save;
    if Save(db, r, token, os, maxInfra, now, delay).Ok? {
      SavedHasAttempt(db, r, token, os, maxInfra, now, delay);
    }
  }

  lemma SavedElsewhere(before: seq<Item>, after: seq<Item>, r: nat, token: nat, retry: bool, k: nat, top: nat)
    requires SavedItems(before, after, r, token, retry) && k != r
    ensures HasAttempt(after, k, top) <==> HasAttempt(before, k, top)
  {
    SavedAttempts(before, after, r, token, retry, k, top);
    if HasAttempt(after, k, top) {
      var i :| 0 <= i < |after| && InAttempt(after[i], k, top);
      assert InAttempt(before[i], k, top);
    }
  }

  lemma SaveStock(db: Db, r: nat, token: nat, os: seq<Outcome>, maxInfra: int, now: int, delay: nat)
    requires Save(db, r, token, os, maxInfra, now, delay).Ok?
    ensures StockStays(db, Save(db, r, token, os, maxInfra, now, delay).value)
  {
    hide Save, SavedItems, HasAttempt, FinishedAttempt, AnyRetry;
    SaveEffect(db, r, token, os, maxInfra, now, delay);
    SavedHasAttempt(db, r, token, os, maxInfra, now, delay);
    var after := Save(db, r, token, os, maxInfra, now, delay).value;
    var retry := AnyRetry(os, token, maxInfra);
    forall k: nat ensures SameStock(db, after, k) {
      SavedAttempts(db.items, after.items, r, token, retry, r, token);
      if k < |db.runs| && k != r {
        SavedElsewhere(db.items, after.items, r, token, retry, k, Top(db.runs[k]));
      }
    }
  }

  /** Re-queuing stocks the repaired item's run, whatever it had before, and no other. */
  lemma RequeueStock(db: Db, source: nat, artifact: nat, now: int, k: nat)
    requires Sound(db) && RequeueRun(db, source, artifact, now).Ok?
    ensures source < |db.items|
    ensures var after := RequeueRun(db, source, artifact, now).value;
            if k == db.items[source].run then Stocked(after, k) && !Empty(after, k) else SameStock(db, after, k)
  {
    hide MaxAttempt, HasItems, HasAttempt, Keeps, AlignedAt, Sound;
    RequeueKeeps(db, source, artifact, now);
    var after := RequeueRun(db, source, artifact, now).value;
    var r := db.items[source].run;
    LatestAdded(after.items, |db.items|, r);
    if k != r && k < |db.runs| {
      AddedElsewhere(db.items, after.items, r, k, Top(db.runs[k]));
    }
  }

  /** A review stocks the run it puts a repaired item into, and changes no other run's stock. */
  lemma ReviewStock(db: Db, id: nat, approve: bool, now: int, r: nat)
    requires Sound(db) && Review(db, id, approve, now).Ok?
    ensures var after := Review(db, id, approve, now).value;
            if RepairsInto(db, Decide(id, approve, now), r) then Stocked(after, r) && !Empty(after, r)
            else SameStock(db, after, r)
  {
    hide Sound, Stocked, Empty, RequeueRun, AutoQueue, DecideJobs, FirstAwaiting;
    var decided := db.(artifacts := db.artifacts[id := db.artifacts[id].(approval := if approve then Approved else Rejected)],
                       jobs := DecideJobs(db.jobs, id, approve));
    SoundParts(db, decided);
    SameRunsStock(db, decided);
    assert SameStock(db, decided, r);
    if approve {
      var job := FirstAwaiting(db.jobs, id);
      var analysis := decided.artifacts[id].analysis;
      if job.None? {
        AutoQueueStock(decided, analysis, now);
        assert SameStock(decided, AutoQueue(decided, analysis, now), r);
      } else {
        var requeued := RequeueRun(decided, db.jobs[job.value].item, id, now).value;
        RequeueStock(decided, db.jobs[job.value].item, id, now, r);
        AutoQueueStock(requeued, analysis, now);
        assert SameStock(requeued, AutoQueue(requeued, analysis, now), r);
      }
    }
  }

  /** A decision about one run changes no other run's stock. */
  lemma ScopeElsewhere(db: Db, r: nat, c: ScopedCase, wanted: bool, k: nat)
    requires DecideScope(db, r, c, wanted).Ok? && k != r
    ensures SameStock(db, DecideScope(db, r, c, wanted).value, k)
  {
    hide AnyUnstarted, AttemptExists, Top;
    var after := DecideScope(db, r, c, wanted).value;
    if k < |db.runs| {
      var top := Top(db.runs[k]);
      assert forall i :: 0 <= i < |after.items| && InAttempt(after.items[i], k, top) ==>
               i < |db.items| && InAttempt(db.items[i], k, top);
      assert forall i :: 0 <= i < |db.items| && InAttempt(db.items[i], k, top) ==> InAttempt(after.items[i], k, top);
    }
  }

  /** What a decision does to its own run. */
  lemma ScopeStock(db: Db, r: nat, c: ScopedCase, wanted: bool)
    requires DecideScope(db, r, c, wanted).Ok?
    ensures var after := DecideScope(db, r, c, wanted).value;
            Empty(after, r) <==> Empties(db, Scope(r, c, wanted), r) || (Empty(db, r) && !IncludesInto(db, Scope(r, c, wanted), r))
  {
    hide Unstarted, AnyUnstarted, HasItems, HasAttempt, KeepsTop, OnlyUnstarted, Included, Excluded, Top, AttemptExists;
    if Changes(db, r, c.testCase, wanted) {
      var top := Top(db.runs[r]);
      if wanted {
        if AttemptExists(db.items, r, c.testCase, 1) {
          NothingIncluded(db.items, r, c);
        } else {
          IncludedAttempts(db.items, r, c, top);
        }
      } else {
        ExcludedAttempts(db.items, r, c.testCase, top);
        KeptIsThere(db.items, r, top, c.testCase);
      }
    }
  }

  lemma KeptIsThere(items: seq<Item>, r: nat, top: nat, testCase: nat)
    ensures KeepsTop(items, r, top, testCase) ==> HasAttempt(items, r, top)
  {
    if KeepsTop(items, r, top, testCase) {
      var i :| 0 <= i < |items| && InAttempt(items[i], r, top) && !Unstarted(items[i], r, testCase);
      assert InAttempt(items[i], r, top);
    }
  }

  lemma WorkerStock(cfg: Config, s: Sys, e: Event)
    requires Inv(s) && ByWorker(e)
    ensures StockStays(s.db, WorkerStep(cfg, s, e).db)
  {
    hide Inv, Save, RetryOrFail, RenewRun, Claimable, StockStays, Stocked, Empty;
    SameRunsStock(s.db, s.db);
    if e.w < |s.workers| {
      var r, token := if s.workers[e.w].Idle? then 0 else s.workers[e.w].run, if s.workers[e.w].Idle? then 0 else s.workers[e.w].token;
      match e
      case Claim(w, r, now) =>
        if s.workers[w].Idle? && Claimable(s.db, r, now) { ClaimStock(s.db, r, now, cfg.lease); }
      case Renew(w, now) =>
        if RenewRun(s.db, r, token, now, cfg.lease).Ok? { RenewStock(s.db, r, token, now, cfg.lease); }
      case SaveAll(w, os, now) =>
        if Save(s.db, r, token, os, cfg.maxInfra, now, cfg.delay).Ok? {
          SaveStock(s.db, r, token, os, cfg.maxInfra, now, cfg.delay);
        }
      case GiveBack(w, now) =>
        if RetryOrFail(s.db, r, token, cfg.maxRunAttempts, now, cfg.delay).Ok? {
          GiveBackStock(s.db, r, token, cfg.maxRunAttempts, now, cfg.delay);
        }
      case _ =>
    }
  }

  lemma ClaimStock(db: Db, r: nat, now: int, lease: nat)
    requires Claimable(db, r, now)
    ensures StockStays(db, ClaimRun(db, r, now, lease))
  {
    OneRowStock(db, r, ClaimRun(db, r, now, lease).runs[r]);
  }

  lemma RenewStock(db: Db, r: nat, token: nat, now: int, lease: nat)
    requires RenewRun(db, r, token, now, lease).Ok?
    ensures StockStays(db, RenewRun(db, r, token, now, lease).value)
  {
    OneRowStock(db, r, db.runs[r].(lease := Some(now + lease)));
  }

  lemma GiveBackStock(db: Db, r: nat, token: nat, maxAttempts: int, now: int, delay: nat)
    requires RetryOrFail(db, r, token, maxAttempts, now, delay).Ok?
    ensures StockStays(db, RetryOrFail(db, r, token, maxAttempts, now, delay).value)
  {
    OneRowStock(db, r, RetryOrFail(db, r, token, maxAttempts, now, delay).value.runs[r]);
  }

  lemma OutsideStock(cfg: Config, db: Db, e: Event, r: nat)
    requires Sound(db) && !ByWorker(e) && !ByRepairer(e)
    ensures Empty(Outside(cfg, db, e), r) <==> Empties(db, e, r) || (Empty(db, r) && !Restocks(db, e, r))
  {
    hide Sound, Stocked, Empty, CreateRun, Request, Reclassify, Review, RequestRepair, AddDraft, DecideScope, FirstAwaiting,
         KeepsTop, AttemptExists, AnyUnstarted, Top, StockStays;
    match e
    case Create(cases, left, analysis) =>
      NotYetThere(db, r);
      if CreateRun(db, cases, left, analysis).Ok? { CreateStock(db, cases, left, analysis, r); }
    case Scope(run, c, wanted) =>
      if DecideScope(db, run, c, wanted).Ok? {
        if r == run {
          ScopeStock(db, r, c, wanted);
        } else {
          ScopeElsewhere(db, run, c, wanted, r);
        }
      } else {
        RefusedMovesNothing(db, e, r);
      }
    case Ask(run, now) =>
      if Request(db, run, now).Ok? { RequestStock(db, run, now); StockAt(db, Request(db, run, now).value, r); }
    case Correct(i, verdict) =>
      if Reclassify(db, i, verdict).Ok? { ReclassifyStock(db, i, verdict); StockAt(db, Reclassify(db, i, verdict).value, r); }
    case Generate(a) =>
      if AddDraft(db, a).Ok? {
        AddDraftTables(db, a);
        SameRunsStock(db, AddDraft(db, a).value);
        StockAt(db, AddDraft(db, a).value, r);
      }
    case Decide(id, approve, now) =>
      if Review(db, id, approve, now).Ok? { ReviewStock(db, id, approve, now, r); }
    case AskRepair(i, now) =>
      if RequestRepair(db, i, cfg.maxRepairs, now).Ok? {
        RequestRepairItems(db, i, cfg.maxRepairs, now);
        SameRunsStock(db, RequestRepair(db, i, cfg.maxRepairs, now).value.0);
        StockAt(db, RequestRepair(db, i, cfg.maxRepairs, now).value.0, r);
      }
    case _ =>
  }

  lemma StockAt(db: Db, after: Db, r: nat)
    requires StockStays(db, after)
    ensures SameStock(db, after, r)
  {
  }

  lemma NotYetThere(db: Db, r: nat)
    ensures Empty(db, r) ==> r < |db.runs|
  {
  }

  /** A refused decision would not have emptied or stocked anything. */
  lemma RefusedMovesNothing(db: Db, e: Event, r: nat)
    requires e.Scope? && DecideScope(db, e.run, e.testCase, e.wanted).Err?
    ensures !Empties(db, e, r) && !Restocks(db, e, r)
  {
    hide KeepsTop, AttemptExists, AnyUnstarted, Top;
  }

  lemma RequestStock(db: Db, r: nat, now: int)
    requires Request(db, r, now).Ok?
    ensures StockStays(db, Request(db, r, now).value)
  {
    OneRowStock(db, r, Request(db, r, now).value.runs[r]);
  }

  lemma AddDraftTables(db: Db, a: Artifact)
    requires AddDraft(db, a).Ok?
    ensures AddDraft(db, a).value == db.(artifacts := AddDraft(db, a).value.artifacts)
  {
    hide Storable;
  }

  // ---- along any run of the system ----

  /** One step leaves a run empty exactly if it empties it, or finds it empty and does not stock it. */
  lemma StepStock(cfg: Config, s: Sys, e: Event, r: nat)
    requires Inv(s)
    ensures Empty(Step(cfg, s, e).db, r) <==> Empties(s.db, e, r) || (Empty(s.db, r) && !Restocks(s.db, e, r))
  {
    hide Sound, WorkersOk, SavesOk, Exclusive, Outside, WorkerStep, RepairerStep, Stocked, Empty;
    if ByRepairer(e) {
      RepairerKeepsRuns(cfg, s, e);
      SameRunsStock(s.db, RepairerStep(cfg, s, e).db);
      assert SameStock(s.db, RepairerStep(cfg, s, e).db, r);
    } else if ByWorker(e) {
      WorkerStock(cfg, s, e);
      assert SameStock(s.db, WorkerStep(cfg, s, e).db, r);
    } else {
      OutsideStock(cfg, s.db, e, r);
    }
  }

  /** From event k on, nothing stocks the run. */
  predicate NotRestocked(cfg: Config, s: Sys, events: seq<Event>, k: nat, r: nat) {
    forall l :: k <= l < |events| ==> !Restocks(Play(cfg, s, events[..l]).db, events[l], r)
  }

  predicate EmptiesAt(cfg: Config, s: Sys, events: seq<Event>, k: nat, r: nat)
    requires k < |events|
  {
    Empties(Play(cfg, s, events[..k]).db, events[k], r)
  }

  /** Somewhere along the events the run was emptied, and not stocked again. */
  predicate LeftEmpty(cfg: Config, s: Sys, events: seq<Event>, r: nat) {
    exists k :: 0 <= k < |events| && EmptiesAt(cfg, s, events, k, r) && NotRestocked(cfg, s, events, k + 1, r)
  }

  lemma LastEmptying(cfg: Config, s: Sys, events: seq<Event>, r: nat)
    requires events != []
    ensures var init, last := events[..|events| - 1], events[|events| - 1]; var db := Play(cfg, s, init).db;
            LeftEmpty(cfg, s, events, r) <==> Empties(db, last, r) || (LeftEmpty(cfg, s, init, r) && !Restocks(db, last, r))
  {
    hide Empties, Restocks, Play;
    var n := |events| - 1;
    var init := events[..n];
    assert forall k :: 0 <= k <= n ==> init[..k] == events[..k];
    if LeftEmpty(cfg, s, events, r) {
      var k :| 0 <= k < |events| && EmptiesAt(cfg, s, events, k, r) && NotRestocked(cfg, s, events, k + 1, r);
      if k < n {
        assert init[..k] == events[..k];
        assert EmptiesAt(cfg, s, init, k, r);
        forall l | k + 1 <= l < n ensures !Restocks(Play(cfg, s, init[..l]).db, init[l], r) {
          assert init[..l] == events[..l];
        }
        assert NotRestocked(cfg, s, init, k + 1, r);
      }
    }
    if Empties(Play(cfg, s, init).db, events[n], r) {
      assert EmptiesAt(cfg, s, events, n, r) && NotRestocked(cfg, s, events, n + 1, r);
    }
    if LeftEmpty(cfg, s, init, r) && !Restocks(Play(cfg, s, init).db, events[n], r) {
      var k :| 0 <= k < |init| && EmptiesAt(cfg, s, init, k, r) && NotRestocked(cfg, s, init, k + 1, r);
      assert init[..k] == events[..k];
      forall l | k + 1 <= l < |events| ensures !Restocks(Play(cfg, s, events[..l]).db, events[l], r) {
        assert l < n ==> init[..l] == events[..l];
      }
      assert EmptiesAt(cfg, s, events, k, r) && NotRestocked(cfg, s, events, k + 1, r);
    }
  }

  /** After any events a run has nothing to execute if and only if it was emptied on the way and not stocked again. */
  lemma {:induction false} EmptyExactly(cfg: Config, s: Sys, events: seq<Event>, r: nat)
    requires Initial(s)
    ensures Empty(Play(cfg, s, events).db, r) <==> LeftEmpty(cfg, s, events, r)
  {
    hide Inv, Step, Empty, Empties, Restocks, LeftEmpty;
    if events == [] {
      NothingEmptied(cfg, s, r);
    } else {
      var init := events[..|events| - 1];
      EmptyExactly(cfg, s, init, r);
      Reachable(cfg, s, init);
      LastEmptying(cfg, s, events, r);
      StepStock(cfg, Play(cfg, s, init), events[|events| - 1], r);
    }
  }

  lemma NothingEmptied(cfg: Config, s: Sys, r: nat)
    requires Initial(s)
    ensures !Empty(s.db, r) && !LeftEmpty(cfg, s, [], r)
  {
  }

  /** No run on record is ever empty. */
  ghost predicate StockedAlong(cfg: Config, s: Sys, events: seq<Event>) {
    forall n, r: nat :: 0 <= n <= |events| ==> !Empty(Play(cfg, s, events[..n]).db, r)
  }

  ghost predicate NeverEmpties(cfg: Config, s: Sys, events: seq<Event>) {
    forall k, r: nat :: 0 <= k < |events| ==> !Empties(Play(cfg, s, events[..k]).db, events[k], r)
  }

  /**
   * Every run has something to execute all along if and only if every exclusion that deletes anything leaves an item at
   * its run's attempt.
   */
  lemma StockedExactly(cfg: Config, s: Sys, events: seq<Event>)
    requires Initial(s)
    ensures StockedAlong(cfg, s, events) <==> NeverEmpties(cfg, s, events)
  {
    hide Play, Empty, Empties;
    if NeverEmpties(cfg, s, events) {
      forall n, r: nat | 0 <= n <= |events| ensures !Empty(Play(cfg, s, events[..n]).db, r) {
        EmptyWasEmptied(cfg, s, events, n, r);
      }
    }
    if StockedAlong(cfg, s, events) {
      forall k, r: nat | 0 <= k < |events| ensures !Empties(Play(cfg, s, events[..k]).db, events[k], r) {
        EmptiedIsEmpty(cfg, s, events, k, r);
      }
    }
  }

  lemma EmptyWasEmptied(cfg: Config, s: Sys, events: seq<Event>, n: nat, r: nat)
    requires Initial(s) && n <= |events|
    ensures Empty(Play(cfg, s, events[..n]).db, r) ==>
              exists k :: 0 <= k < n && Empties(Play(cfg, s, events[..k]).db, events[k], r)
  {
    hide Play, Empty, Empties, NotRestocked;
    var es := events[..n];
    EmptyExactly(cfg, s, es, r);
    if Empty(Play(cfg, s, es).db, r) {
      var k :| 0 <= k < n && EmptiesAt(cfg, s, es, k, r);
      assert es[..k] == events[..k];
    }
  }

  lemma EmptiedIsEmpty(cfg: Config, s: Sys, events: seq<Event>, k: nat, r: nat)
    requires Initial(s) && k < |events|
    ensures Empties(Play(cfg, s, events[..k]).db, events[k], r) ==> Empty(Play(cfg, s, events[..k + 1]).db, r)
  {
    hide Inv, Step, Empty, Empties, Restocks;
    assert events[..k + 1][..k] == events[..k];
    Reachable(cfg, s, events[..k]);
    StepStock(cfg, Play(cfg, s, events[..k]), events[k], r);
  }

  // ---- what a claim finds ----

  /** A run on record is stocked exactly if it has items at all and its row agrees with them. */
  lemma StockedMeans(db: Db, r: nat)
    requires r < |db.runs|
    ensures Stocked(db, r) <==> HasItems(db.items, r) && AlignedAt(db.items, r, db.runs[r])
  {
    hide HasItems, HasAttempt, Top;
    AttemptIsItem(db.items, r, Top(db.runs[r]));
  }

  /**
   * After a claim nothing of the attempt has run and nothing is ahead of it; and the attempt has items to execute
   * exactly if the run was stocked.
   */
  lemma ClaimFindsWork(db: Db, r: nat, now: int, lease: nat)
    requires Sound(db) && Claimable(db, r, now)
    ensures var after := ClaimRun(db, r, now, lease); var token := after.runs[r].attemptCount;
            && HeldAt(after, r, token)
            && (HasAttempt(after.items, r, token) <==> Stocked(db, r))
            && (forall i :: 0 <= i < |after.items| && InAttempt(after.items[i], r, token) ==> after.items[i].status == NotRun)
            && (forall i :: 0 <= i < |after.items| && Live(after.items[i]) && after.items[i].run == r ==> after.items[i].attempt <= token)
  {
    hide HasAttempt;
    var after := ClaimRun(db, r, now, lease);
    var token := after.runs[r].attemptCount;
    forall i | 0 <= i < |after.items| && Live(after.items[i]) && after.items[i].run == r
      ensures after.items[i].attempt <= token && (after.items[i].attempt == token ==> after.items[i].status == NotRun)
    {
      assert ItemOk(db.runs, db.items[i]);
    }
  }

  /** In every reachable state a claim finds items exactly if its run was not left empty, and all it finds has not run. */
  lemma ClaimsFindItems(cfg: Config, s: Sys, events: seq<Event>, r: nat, now: int)
    requires Initial(s) && Claimable(Play(cfg, s, events).db, r, now)
    ensures var after := ClaimRun(Play(cfg, s, events).db, r, now, cfg.lease); var token := after.runs[r].attemptCount;
            && (HasAttempt(after.items, r, token) <==> !LeftEmpty(cfg, s, events, r))
            && (forall i :: 0 <= i < |after.items| && InAttempt(after.items[i], r, token) ==> after.items[i].status == NotRun)
  {
    hide Sound, LeftEmpty, HasAttempt, Step, WorkersOk, SavesOk, Exclusive, HasItems, AlignedAt;
    Reachable(cfg, s, events);
    EmptyExactly(cfg, s, events, r);
    ClaimFindsWork(Play(cfg, s, events).db, r, now, cfg.lease);
  }

  // ---- empty runs that stay ----

  /** To be executed, or being executed, with nothing to execute. */
  predicate Barren(db: Db, r: nat, top: nat) {
    Empty(db, r) && Open(db.runs[r]) && Top(db.runs[r]) == top
  }

  /** Past its first attempt an open run is not stocked by anybody: new cases start at 1, repairs want a finished run. */
  lemma OpenNotRestocked(db: Db, e: Event, r: nat)
    requires r < |db.runs| && Open(db.runs[r]) && Top(db.runs[r]) >= 2
    ensures !Restocks(db, e, r)
  {
    hide RepairsInto, AttemptExists;
    if RepairsInto(db, e, r) {
      RepairsFinishedRuns(db, e, r);
    }
  }

  lemma RepairsFinishedRuns(db: Db, e: Event, r: nat)
    requires r < |db.runs| && RepairsInto(db, e, r)
    ensures !Open(db.runs[r])
  {
    hide AutoQueue, DecideJobs, MaxAttempt;
  }

  predicate OpenStays(before: Db, after: Db, r: nat) {
    r < |before.runs| && Open(before.runs[r]) ==>
      r < |after.runs| && Open(after.runs[r]) && Top(after.runs[r]) == Top(before.runs[r])
  }

  lemma OutsideOpen(cfg: Config, db: Db, e: Event, r: nat)
    ensures OpenStays(db, Outside(cfg, db, e), r)
  {
    hide Review, RequestRepair, Reclassify, DecideScope, AddDraft, ScopeRows;
    match e
    case Scope(run, c, wanted) =>
      if DecideScope(db, run, c, wanted).Ok? { DecideScopeStays(db, run, c, wanted); }
    case Generate(a) =>
      if AddDraft(db, a).Ok? { AddDraftRuns(db, a); }
    case Decide(id, approve, now) =>
      if Review(db, id, approve, now).Ok? { ReviewOpen(db, id, approve, now, r); }
    case AskRepair(i, now) =>
      if RequestRepair(db, i, cfg.maxRepairs, now).Ok? { RequestRepairItems(db, i, cfg.maxRepairs, now); }
    case Correct(i, verdict) =>
      if Reclassify(db, i, verdict).Ok? { ReclassifyRuns(db, i, verdict); }
    case _ =>
  }

  lemma ReviewOpen(db: Db, id: nat, approve: bool, now: int, r: nat)
    requires Review(db, id, approve, now).Ok?
    ensures OpenStays(db, Review(db, id, approve, now).value, r)
  {
    hide DecideJobs, FirstAwaiting, MaxAttempt, FullyAutomated;
  }

  lemma WorkerOpen(cfg: Config, s: Sys, e: Event, r: nat)
    requires Inv(s) && ByWorker(e) && r < |s.db.runs| && Barren(s.db, r, Top(s.db.runs[r]))
    requires Top(s.db.runs[r]) < cfg.maxRunAttempts
    ensures OpenStays(s.db, WorkerStep(cfg, s, e).db, r)
  {
    hide Sound, Exclusive, SavesOk, WorkersOk, Save, SavedItems, FinishedAttempt, HasAttempt;
    if e.SaveAll? && e.w < |s.workers| && s.workers[e.w].Processing? {
      var run, token := s.workers[e.w].run, s.workers[e.w].token;
      if Save(s.db, run, token, e.outcomes, cfg.maxInfra, e.now, cfg.delay).Ok? {
        SaveEffect(s.db, run, token, e.outcomes, cfg.maxInfra, e.now, cfg.delay);
        SavedHasAttempt(s.db, run, token, e.outcomes, cfg.maxInfra, e.now, cfg.delay);
      }
    }
  }

  /** One step leaves an empty open run below the limit as it is, unless it stocks it. */
  lemma BarrenStep(cfg: Config, s: Sys, e: Event, r: nat, top: nat)
    requires Inv(s) && Barren(s.db, r, top) && top < cfg.maxRunAttempts && !Restocks(s.db, e, r)
    ensures Barren(Step(cfg, s, e).db, r, top)
  {
    hide Inv, HasAttempt, Outside, WorkerStep, RepairerStep, Empties, Restocks, Top, Open;
    StepStock(cfg, s, e, r);
    if ByRepairer(e) {
      RepairerKeepsRuns(cfg, s, e);
    } else if ByWorker(e) {
      WorkerOpen(cfg, s, e, r);
    } else {
      OutsideOpen(cfg, s.db, e, r);
    }
  }

  /** A run that is empty past its first attempt and below the limit never completes and never fails, whatever follows. */
  lemma {:induction false} BarrenForever(cfg: Config, s: Sys, events: seq<Event>, r: nat, top: nat)
    requires Inv(s) && Barren(s.db, r, top) && 2 <= top < cfg.maxRunAttempts
    ensures Inv(Play(cfg, s, events)) && Barren(Play(cfg, s, events).db, r, top)
  {
    hide Inv, Step, Empty, Open, Top, Restocks;
    if events != [] {
      var init, e := Play(cfg, s, events[..|events| - 1]), events[|events| - 1];
      BarrenForever(cfg, s, events[..|events| - 1], r, top);
      StepKeeps(cfg, init, e);
      BarrenParts(init.db, r, top);
      OpenNotRestocked(init.db, e, r);
      BarrenStep(cfg, init, e, r, top);
    }
  }

  lemma BarrenParts(db: Db, r: nat, top: nat)
    requires Barren(db, r, top)
    ensures r < |db.runs| && Open(db.runs[r]) && Top(db.runs[r]) == top
  {
  }

  /** The approval's automatic queueing takes a run without first tries for one whose cases are all automated. */
  lemma EmptyIsAutomated(db: Db, r: nat, analysis: Option<nat>, now: int)
    requires Empty(db, r) && db.runs[r].status == Pending && db.runs[r].attemptCount == 0
    requires analysis.Some? && db.runs[r].analysis == analysis
    ensures FullyAutomated(db, r)
    ensures var after := AutoQueue(db, analysis, now);
            after.runs[r] == db.runs[r].(requested := true, nextAttemptAt := now) && Empty(after, r)
  {
    assert forall i :: 0 <= i < |db.items| ==> !InAttempt(db.items[i], r, 1);
    AutoQueueStock(db, analysis, now);
    assert SameStock(db, AutoQueue(db, analysis, now), r);
  }
}
