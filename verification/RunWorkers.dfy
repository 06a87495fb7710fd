/** Workers, reviewers and requesters interleaved over one database. */
module RunWorkers {
  import opened Results
  import opened RunModel
  import opened RunInvariants
  import opened RepairGuard

  /** A worker's place in runOnce: process; stop the renewals and wait for them; give the claim back if processing failed. */
  datatype Worker =
    | Idle
    | Processing(run: nat, token: nat)
    | Stopping(run: nat, token: nat, saved: bool)
    | Releasing(run: nat, token: nat)

  datatype Repairer = Free | Loading(job: nat, token: nat) | Proposing(job: nat, token: nat, subject: Artifact)

  datatype Config = Config(maxInfra: int, maxRunAttempts: int, maxRepairs: int, maxQueue: int,
                           lease: nat, delay: nat, fold: Folding)

  /** saves is history only: the (run, attempt) pairs whose save has committed, oldest first. */
  datatype Sys = Sys(db: Db, workers: seq<Worker>, repairers: seq<Repairer>, saves: seq<(nat, nat)>)

  datatype Event =
    | Create(cases: seq<ScopedCase>, left: set<nat>, analysis: Option<nat>)
    | Scope(run: nat, testCase: ScopedCase, wanted: bool)
    | Ask(run: nat, now: int)
    | Claim(w: nat, run: nat, now: int)
    | Renew(w: nat, now: int)
    | SaveAll(w: nat, outcomes: seq<Outcome>, now: int)
    | ProcessingFails(w: nat)
    | RenewalsEnd(w: nat)
    | GiveBack(w: nat, now: int)
    | ReleaseFails(w: nat)
    | Crash(w: nat)
    | Correct(item: nat, verdict: Verdict)
    | Generate(draft: Artifact)
    | Decide(artifact: nat, approve: bool, now: int)
    | AskRepair(item: nat, now: int)
    | StartRepair(w: nat, job: nat, now: int)
    | LoadSubject(w: nat)
    | RenewJob(w: nat, now: int)
    | Propose(w: nat, afterHash: string, assertions: seq<string>)
    | Abandon(w: nat)
    | ReturnJob(w: nat, now: int)
    | ReturnFails(w: nat)
    | CrashRepairer(w: nat)

  function Or(db: Db, result: Result<Db>): Db {
    if result.Ok? then result.value else db
  }

  /** The table changes of everyone who is not a run worker. */
  function Outside(cfg: Config, db: Db, e: Event): Db {
    match e
    case Create(cases, left, analysis) => Or(db, CreateRun(db, cases, left, analysis))
    case Scope(r, c, wanted) => Or(db, DecideScope(db, r, c, wanted))
    case Ask(r, now) => Or(db, Request(db, r, now))
    case Correct(i, verdict) => Or(db, Reclassify(db, i, verdict))
    case Generate(a) => Or(db, AddDraft(db, a))
    case Decide(id, approve, now) => Or(db, Review(db, id, approve, now))
    case AskRepair(i, now) =>
      var result := RequestRepair(db, i, cfg.maxRepairs, now);
      if result.Ok? then result.value.0 else db
    case _ => db
  }

  /** A run worker's own steps. */
  function WorkerStep(cfg: Config, s: Sys, e: Event): Sys {
    match e
    case Claim(w, r, now) =>
      if w < |s.workers| && s.workers[w].Idle? && Claimable(s.db, r, now)
      then s.(db := ClaimRun(s.db, r, now, cfg.lease), workers := s.workers[w := Processing(r, s.db.runs[r].attemptCount + 1)])
      else s
    case Renew(w, now) =>
      if w < |s.workers| && (s.workers[w].Processing? || s.workers[w].Stopping?)
      then s.(db := Or(s.db, RenewRun(s.db, s.workers[w].run, s.workers[w].token, now, cfg.lease)))
      else s
    case SaveAll(w, os, now) =>
      if w < |s.workers| && s.workers[w].Processing? then
        var r, token := s.workers[w].run, s.workers[w].token;
        var result := Save(s.db, r, token, os, cfg.maxInfra, now, cfg.delay);
        s.(db := Or(s.db, result), workers := s.workers[w := Stopping(r, token, result.Ok?)],
           saves := if result.Ok? then s.saves + [(r, token)] else s.saves)
      else s
    case ProcessingFails(w) =>
      if w < |s.workers| && s.workers[w].Processing?
      then s.(workers := s.workers[w := Stopping(s.workers[w].run, s.workers[w].token, false)])
      else s
    case RenewalsEnd(w) =>
      if w < |s.workers| && s.workers[w].Stopping?
      then s.(workers := s.workers[w := if s.workers[w].saved then Idle else Releasing(s.workers[w].run, s.workers[w].token)])
      else s
    case GiveBack(w, now) =>
      if w < |s.workers| && s.workers[w].Releasing?
      then s.(db := Or(s.db, RetryOrFail(s.db, s.workers[w].run, s.workers[w].token, cfg.maxRunAttempts, now, cfg.delay)),
              workers := s.workers[w := Idle])
      else s
    case ReleaseFails(w) =>
      if w < |s.workers| && s.workers[w].Releasing? then s.(workers := s.workers[w := Idle]) else s
    case Crash(w) =>
      if w < |s.workers| then s.(workers := s.workers[w := Idle]) else s
    case _ => s
  }

  /** A repair worker's own steps; a proposal reaches the database only past the assertion and source guards. */
  function RepairerStep(cfg: Config, s: Sys, e: Event): Sys {
    match e
    case StartRepair(w, j, now) =>
      if w < |s.repairers| && s.repairers[w].Free? && RepairClaimable(s.db, j, now)
      then s.(db := ClaimRepair(s.db, j, now, cfg.lease),
              repairers := s.repairers[w := Loading(j, s.db.jobs[j].queueAttempts + 1)])
      else s
    case LoadSubject(w) =>
      if w < |s.repairers| && s.repairers[w].Loading? then
        var r := s.repairers[w];
        var subject := LoadRepairSubject(s.db, r.job, r.token);
        if subject.Ok? then s.(repairers := s.repairers[w := Proposing(r.job, r.token, subject.value)]) else s
      else s
    case RenewJob(w, now) =>
      if w < |s.repairers| && !s.repairers[w].Free?
      then s.(db := Or(s.db, RenewRepair(s.db, s.repairers[w].job, s.repairers[w].token, now, cfg.lease)))
      else s
    case Propose(w, afterHash, assertions) =>
      if w < |s.repairers| && s.repairers[w].Proposing? && afterHash != "" &&
         afterHash != s.repairers[w].subject.sourceHash &&
         SameSemanticAssertions(s.repairers[w].subject.assertions, assertions, cfg.fold) then
        var r := s.repairers[w];
        var result := CompleteRepair(s.db, r.job, r.token, r.subject, afterHash, assertions);
        if result.Ok? then s.(db := result.value, repairers := s.repairers[w := Free]) else s
      else s
    case Abandon(w) =>
      if w < |s.repairers| && s.repairers[w].Proposing?
      then s.(db := Or(s.db, MarkUnrepairable(s.db, s.repairers[w].job, s.repairers[w].token)),
              repairers := s.repairers[w := Free])
      else s
    case ReturnJob(w, now) =>
      if w < |s.repairers| && !s.repairers[w].Free?
      then s.(db := Or(s.db, RetryOrFailRepair(s.db, s.repairers[w].job, s.repairers[w].token, cfg.maxQueue, now, cfg.delay)),
              repairers := s.repairers[w := Free])
      else s
    case ReturnFails(w) =>
      if w < |s.repairers| then s.(repairers := s.repairers[w := Free]) else s
    case CrashRepairer(w) =>
      if w < |s.repairers| then s.(repairers := s.repairers[w := Free]) else s
    case _ => s
  }

  predicate ByWorker(e: Event) {
    e.Claim? || e.Renew? || e.SaveAll? || e.ProcessingFails? || e.RenewalsEnd? || e.GiveBack? || e.ReleaseFails? || e.Crash?
  }

  predicate ByRepairer(e: Event) {
    e.StartRepair? || e.LoadSubject? || e.RenewJob? || e.Propose? || e.Abandon? || e.ReturnJob? || e.ReturnFails? ||
    e.CrashRepairer?
  }

  function Step(cfg: Config, s: Sys, e: Event): Sys {
    if ByWorker(e) then WorkerStep(cfg, s, e)
    else if ByRepairer(e) then RepairerStep(cfg, s, e)
    else s.(db := Outside(cfg, s.db, e))
  }

  /** The state after a whole interleaving. */
  function Play(cfg: Config, s: Sys, events: seq<Event>): Sys {
    if events == [] then s else Step(cfg, Play(cfg, s, events[..|events| - 1]), events[|events| - 1])
  }

  /** An empty database and workers that hold nothing. */
  predicate Initial(s: Sys) {
    && s.db == Db([], [], [], [], map[]) && s.saves == []
    && (forall w :: 0 <= w < |s.workers| ==> s.workers[w].Idle?)
    && (forall w :: 0 <= w < |s.repairers| ==> s.repairers[w].Free?)
  }

  // ---- who holds a run ----

  /** The worker still may write: its processing or its release is ahead of it. */
  predicate Holds(worker: Worker, r: nat) {
    (worker.Processing? || worker.Releasing? || (worker.Stopping? && !worker.saved)) && worker.run == r
  }

  predicate Beyond(run: Run, token: nat) {
    run.attemptCount >= token && (run.status == Running ==> run.attemptCount > token)
  }

  /** The claim (r, token) is over for good: its attempt has finished items, and the run has moved past it. */
  predicate Past(db: Db, r: nat, token: nat) {
    r < |db.runs| && Beyond(db.runs[r], token) && FinishedAttempt(db.items, r, token)
  }

  predicate WorkerOk(db: Db, worker: Worker) {
    && (worker.Processing? || worker.Releasing? || (worker.Stopping? && !worker.saved) ==> HeldAt(db, worker.run, worker.token))
    && (worker.Stopping? && worker.saved ==> Past(db, worker.run, worker.token))
  }

  predicate WorkersOk(db: Db, workers: seq<Worker>) {
    forall w :: 0 <= w < |workers| ==> WorkerOk(db, workers[w])
  }

  predicate Exclusive(workers: seq<Worker>) {
    forall v, w :: 0 <= v < w < |workers| && !workers[v].Idle? && !workers[w].Idle? && Holds(workers[v], workers[v].run) ==>
      !Holds(workers[w], workers[v].run)
  }

  predicate SavesOk(db: Db, saves: seq<(nat, nat)>) {
    && (forall k :: 0 <= k < |saves| ==> Past(db, saves[k].0, saves[k].1))
    && (forall k, l :: 0 <= k < l < |saves| && saves[k].0 == saves[l].0 ==> saves[k].1 < saves[l].1)
  }

  predicate Inv(s: Sys) {
    Sound(s.db) && WorkersOk(s.db, s.workers) && Exclusive(s.workers) && SavesOk(s.db, s.saves)
  }

  ghost predicate PastStays(db: Db, after: Db) {
    forall r, token :: Past(db, r, token) ==> Past(after, r, token)
  }

  /** Nothing a run worker relies on moves: running rows stay, nothing starts running, what is past stays past. */
  ghost predicate Quiet(db: Db, after: Db) {
    && |after.runs| >= |db.runs|
    && (forall r :: 0 <= r < |db.runs| ==> QuietRow(db.runs[r], after.runs[r]))
    && PastStays(db, after)
  }

  predicate QuietRow(before: Run, after: Run) {
    && (after.status == Running <==> before.status == Running)
    && (before.status == Running ==> after == before)
  }

  lemma FinishedStays(before: seq<Item>, after: seq<Item>, r: nat, token: nat)
    requires ItemsStay(before, after) && FinishedAttempt(before, r, token)
    ensures FinishedAttempt(after, r, token)
  {
    var i :| 0 <= i < |before| && InAttempt(before[i], r, token) && before[i].status.Done?;
    assert RowStays(before[i], after[i]);
  }

  /** Rows that keep their counters, or move on, keep the past. */
  lemma PastMoves(db: Db, after: Db)
    requires ItemsStay(db.items, after.items) && |after.runs| >= |db.runs|
    requires forall r, token :: 0 <= r < |db.runs| && Beyond(db.runs[r], token) ==> Beyond(after.runs[r], token)
    ensures PastStays(db, after)
  {
    hide ItemsStay, FinishedAttempt, Beyond;
    forall r, token | Past(db, r, token) ensures Past(after, r, token) {
      FinishedStays(db.items, after.items, r, token);
    }
  }

  lemma CountersQuiet(db: Db, after: Db)
    requires ItemsStay(db.items, after.items) && |after.runs| >= |db.runs|
    requires forall r :: 0 <= r < |db.runs| ==>
               QuietRow(db.runs[r], after.runs[r]) && after.runs[r].attemptCount == db.runs[r].attemptCount
    ensures Quiet(db, after)
  {
    hide ItemsStay, PastStays;
    PastMoves(db, after);
  }

  lemma QuietKeeps(db: Db, after: Db, workers: seq<Worker>, saves: seq<(nat, nat)>)
    requires Quiet(db, after) && WorkersOk(db, workers) && SavesOk(db, saves)
    ensures WorkersOk(after, workers) && SavesOk(after, saves)
  {
    hide Past;
    forall w | 0 <= w < |workers| ensures WorkerOk(after, workers[w]) {
      assert WorkerOk(db, workers[w]);
      if !workers[w].Idle? {
        assert workers[w].run < |db.runs| ==> QuietRow(db.runs[workers[w].run], after.runs[workers[w].run]);
      }
    }
    forall k | 0 <= k < |saves| ensures Past(after, saves[k].0, saves[k].1) {
      assert Past(db, saves[k].0, saves[k].1);
    }
  }

  lemma AutoQueueIsQuiet(db: Db, analysis: Option<nat>, now: int)
    ensures Quiet(db, AutoQueue(db, analysis, now))
  {
    hide FullyAutomated, ItemsStay, Quiet;
    StayRefl(db.items);
    CountersQuiet(db, AutoQueue(db, analysis, now));
  }

  lemma QuietTwice(a: Db, b: Db, c: Db)
    requires Quiet(a, b) && Quiet(b, c)
    ensures Quiet(a, c)
  {
    hide Past;
    forall r | 0 <= r < |a.runs| ensures QuietRow(a.runs[r], c.runs[r]) {
      assert QuietRow(a.runs[r], b.runs[r]) && QuietRow(b.runs[r], c.runs[r]);
    }
  }

  /** Re-queuing for a repair may lower attempt_count, but never below an attempt that has finished items. */
  lemma RequeueIsQuiet(db: Db, source: nat, artifact: nat, now: int)
    requires Sound(db) && RequeueRun(db, source, artifact, now).Ok?
    ensures Quiet(db, RequeueRun(db, source, artifact, now).value)
  {
    hide Sound, MaxAttempt, Keeps, AlignedAt;
    RequeueKeeps(db, source, artifact, now);
    var after := RequeueRun(db, source, artifact, now).value;
    AppendedStay(db.items, after.items);
    forall r, token | Past(db, r, token) ensures Past(after, r, token) {
      FinishedStays(db.items, after.items, r, token);
      var i :| 0 <= i < |db.items| && InAttempt(db.items[i], r, token) && db.items[i].status.Done?;
      MaxAttemptReaches(db.items, r, i);
    }
  }

  lemma ReviewIsQuiet(db: Db, id: nat, approve: bool, now: int)
    requires Sound(db) && Review(db, id, approve, now).Ok?
    ensures Quiet(db, Review(db, id, approve, now).value)
  {
    hide Sound, RequeueRun, AutoQueue, DecideJobs, FirstAwaiting, Quiet, Keeps;
    var decided := db.(artifacts := db.artifacts[id := db.artifacts[id].(approval := if approve then Approved else Rejected)],
                       jobs := DecideJobs(db.jobs, id, approve));
    assert Sound(decided) by { SoundParts(db, decided); }
    SameRunsQuiet(db, decided);
    if approve {
      var job := FirstAwaiting(db.jobs, id);
      var analysis := decided.artifacts[id].analysis;
      if job.None? {
        AutoQueueIsQuiet(decided, analysis, now);
        QuietTwice(db, decided, AutoQueue(decided, analysis, now));
      } else {
        var requeued := RequeueRun(decided, db.jobs[job.value].item, id, now).value;
        RequeueIsQuiet(decided, db.jobs[job.value].item, id, now);
        AutoQueueIsQuiet(requeued, analysis, now);
        QuietTwice(db, decided, requeued);
        QuietTwice(db, requeued, AutoQueue(requeued, analysis, now));
      }
    }
  }

  lemma SoundParts(db: Db, after: Db)
    requires Sound(db) && after.runs == db.runs && after.items == db.items
    ensures Sound(after)
  {
    hide ItemOk, RowOk;
  }

  lemma SameRunsQuiet(db: Db, after: Db)
    requires after.runs == db.runs && after.items == db.items
    ensures Quiet(db, after)
  {
    hide ItemsStay, Quiet;
    StayRefl(db.items);
    CountersQuiet(db, after);
  }

  /** Everyone outside the workers keeps soundness, and all but scope decisions keep the agreement. */
  lemma OutsideKeeps(cfg: Config, db: Db, e: Event)
    requires Sound(db)
    ensures Sound(Outside(cfg, db, e)) && Quiet(db, Outside(cfg, db, e))
    ensures !e.Scope? ==> Keeps(db, Outside(cfg, db, e))
  {
    hide Sound, Aligned, Quiet, CreateRun, Request, Reclassify, Review, RequestRepair, AddDraft, DecideScope;
    SameRunsQuiet(db, db);
    match e
    case Create(cases, left, analysis) =>
      if CreateRun(db, cases, left, analysis).Ok? {
        CreateKeeps(db, cases, left, analysis);
        CreateIsQuiet(db, cases, left, analysis);
      }
    case Scope(r, c, wanted) =>
      if DecideScope(db, r, c, wanted).Ok? {
        DecideScopeSound(db, r, c, wanted);
        ScopeIsQuiet(db, r, c, wanted);
      }
    case Ask(r, now) =>
      if Request(db, r, now).Ok? {
        RequestKeeps(db, r, now);
        RequestIsQuiet(db, r, now);
      }
    case Correct(i, verdict) =>
      if Reclassify(db, i, verdict).Ok? {
        ReclassifyKeeps(db, i, verdict);
        ReclassifyIsQuiet(db, i, verdict);
      }
    case Generate(a) =>
      if AddDraft(db, a).Ok? {
        AddDraftIsQuiet(db, a);
      }
    case Decide(id, approve, now) =>
      if Review(db, id, approve, now).Ok? {
        ReviewKeeps(db, id, approve, now);
        ReviewIsQuiet(db, id, approve, now);
      }
    case AskRepair(i, now) =>
      if RequestRepair(db, i, cfg.maxRepairs, now).Ok? {
        RequestRepairIsQuiet(db, i, cfg.maxRepairs, now);
      }
    case _ =>
  }

  lemma CreateIsQuiet(db: Db, cases: seq<ScopedCase>, left: set<nat>, analysis: Option<nat>)
    requires CreateRun(db, cases, left, analysis).Ok?
    ensures Quiet(db, CreateRun(db, cases, left, analysis).value)
  {
    hide Quiet, ScopeRows, ItemsStay;
    var after := CreateRun(db, cases, left, analysis).value;
    AppendedStay(db.items, after.items);
    CountersQuiet(db, after);
  }

  lemma ScopeIsQuiet(db: Db, r: nat, c: ScopedCase, wanted: bool)
    requires DecideScope(db, r, c, wanted).Ok?
    ensures Quiet(db, DecideScope(db, r, c, wanted).value)
  {
    hide Quiet, ItemsStay, DecideScope;
    DecideScopeStays(db, r, c, wanted);
    CountersQuiet(db, DecideScope(db, r, c, wanted).value);
  }

  lemma RequestIsQuiet(db: Db, r: nat, now: int)
    requires Request(db, r, now).Ok?
    ensures Quiet(db, Request(db, r, now).value)
  {
    hide Quiet, ItemsStay;
    StayRefl(db.items);
    CountersQuiet(db, Request(db, r, now).value);
  }

  lemma ReclassifyIsQuiet(db: Db, i: nat, verdict: Verdict)
    requires Reclassify(db, i, verdict).Ok?
    ensures Quiet(db, Reclassify(db, i, verdict).value)
  {
    hide Quiet;
    CountersQuiet(db, Reclassify(db, i, verdict).value);
  }

  lemma AddDraftIsQuiet(db: Db, a: Artifact)
    requires Sound(db) && AddDraft(db, a).Ok?
    ensures var after := AddDraft(db, a).value; Keeps(db, after) && Quiet(db, after)
  {
    hide Sound, Keeps, Quiet, Storable;
    SoundIgnores(db, AddDraft(db, a).value);
    SameRunsQuiet(db, AddDraft(db, a).value);
  }

  lemma RequestRepairIsQuiet(db: Db, i: nat, maxRepairs: int, now: int)
    requires Sound(db) && RequestRepair(db, i, maxRepairs, now).Ok?
    ensures var after := RequestRepair(db, i, maxRepairs, now).value.0; Keeps(db, after) && Quiet(db, after)
  {
    hide Sound, Keeps, Quiet, ActiveJob, MaxJobAttempt;
    var after := RequestRepair(db, i, maxRepairs, now).value.0;
    SoundIgnores(db, after);
    SameRunsQuiet(db, after);
  }

  /** Repair workers never touch runs or items. */
  lemma RepairerKeepsRuns(cfg: Config, s: Sys, e: Event)
    requires ByRepairer(e)
    ensures var t := RepairerStep(cfg, s, e);
            t.db == s.db.(artifacts := t.db.artifacts, jobs := t.db.jobs) && t.workers == s.workers && t.saves == s.saves
  {
    hide SameSemanticAssertions, Storable;
  }

  // ---- the run workers' steps ----

  /** A step that moves one run's row keeps what is known about the other runs. */
  lemma OtherRowsKeep(db: Db, after: Db, r: nat, workers: seq<Worker>, w: nat, worker: Worker)
    requires w < |workers| && WorkersOk(db, workers)
    requires |after.runs| == |db.runs| && r < |db.runs| && forall k :: 0 <= k < |db.runs| && k != r ==> after.runs[k] == db.runs[k]
    requires WorkerOk(after, worker)
    requires forall v :: 0 <= v < |workers| && v != w ==> !Holds(workers[v], r)
    requires PastStays(db, after)
    ensures WorkersOk(after, workers[w := worker])
  {
    hide Past;
    var next := workers[w := worker];
    forall v | 0 <= v < |next| ensures WorkerOk(after, next[v]) {
      if v != w {
        assert WorkerOk(db, workers[v]);
        if !workers[v].Idle? {
          assert !Holds(workers[v], r);
        }
      }
    }
  }

  lemma PastSavesKeep(db: Db, after: Db, saves: seq<(nat, nat)>)
    requires SavesOk(db, saves) && PastStays(db, after)
    ensures SavesOk(after, saves)
  {
    hide Past;
  }

  /** A run worker's write: one row that moves beyond what it was beyond, and items that stay. */
  lemma RowMoves(db: Db, after: Db, r: nat)
    requires ItemsStay(db.items, after.items) && r < |db.runs| == |after.runs|
    requires forall k :: 0 <= k < |db.runs| && k != r ==> after.runs[k] == db.runs[k]
    requires forall token :: Beyond(db.runs[r], token) ==> Beyond(after.runs[r], token)
    ensures PastStays(db, after)
  {
    hide ItemsStay, PastStays, Beyond;
    PastMoves(db, after);
  }

  lemma NobodyHoldsPending(s: Sys, r: nat)
    requires WorkersOk(s.db, s.workers) && r < |s.db.runs| && s.db.runs[r].status != Running
    ensures forall v :: 0 <= v < |s.workers| ==> !Holds(s.workers[v], r)
  {
    forall v | 0 <= v < |s.workers| ensures !Holds(s.workers[v], r) {
      assert WorkerOk(s.db, s.workers[v]);
    }
  }

  lemma ClaimStep(cfg: Config, s: Sys, w: nat, r: nat, now: int)
    requires Inv(s) && w < |s.workers| && s.workers[w].Idle? && Claimable(s.db, r, now)
    ensures Inv(WorkerStep(cfg, s, Claim(w, r, now)))
  {
    hide Sound, WorkersOk, SavesOk, Past, ItemsStay;
    var t := WorkerStep(cfg, s, Claim(w, r, now));
    ClaimKeeps(s.db, r, now, cfg.lease);
    NobodyHoldsPending(s, r);
    StayRefl(s.db.items);
    RowMoves(s.db, t.db, r);
    OtherRowsKeep(s.db, t.db, r, s.workers, w, t.workers[w]);
    PastSavesKeep(s.db, t.db, s.saves);
  }

  lemma RenewStep(cfg: Config, s: Sys, w: nat, now: int)
    requires Inv(s)
    ensures Inv(WorkerStep(cfg, s, Renew(w, now)))
  {
    hide Sound, WorkersOk, SavesOk, Exclusive, Past, ItemsStay;
    if w < |s.workers| && (s.workers[w].Processing? || s.workers[w].Stopping?) {
      var r, token := s.workers[w].run, s.workers[w].token;
      if RenewRun(s.db, r, token, now, cfg.lease).Ok? {
        var after := RenewRun(s.db, r, token, now, cfg.lease).value;
        RenewKeeps(s.db, r, token, now, cfg.lease);
        StayRefl(s.db.items);
        RowMoves(s.db, after, r);
        RenewedLeaseOnly(s.db, r, token, now, cfg.lease, s.workers);
        PastSavesKeep(s.db, after, s.saves);
      }
    }
  }

  lemma RenewedLeaseOnly(db: Db, r: nat, token: nat, now: int, lease: nat, workers: seq<Worker>)
    requires RenewRun(db, r, token, now, lease).Ok? && WorkersOk(db, workers)
    requires PastStays(db, RenewRun(db, r, token, now, lease).value)
    ensures WorkersOk(RenewRun(db, r, token, now, lease).value, workers)
  {
    hide Past;
    forall v | 0 <= v < |workers| ensures WorkerOk(RenewRun(db, r, token, now, lease).value, workers[v]) {
      assert WorkerOk(db, workers[v]);
    }
  }

  lemma SaveStep(cfg: Config, s: Sys, w: nat, os: seq<Outcome>, now: int)
    requires Inv(s) && w < |s.workers| && s.workers[w].Processing?
    ensures Inv(WorkerStep(cfg, s, SaveAll(w, os, now)))
  {
    hide Sound, WorkersOk, SavesOk, Save, SavedItems, AnyRetry, FinishedAttempt, ItemsStay, PastStays;
    var r, token := s.workers[w].run, s.workers[w].token;
    var t := WorkerStep(cfg, s, SaveAll(w, os, now));
    assert WorkerOk(s.db, s.workers[w]) by { OneWorker(s, w); }
    if Save(s.db, r, token, os, cfg.maxInfra, now, cfg.delay).Ok? {
      SaveKeeps(s.db, r, token, os, cfg.maxInfra, now, cfg.delay);
      SaveEffect(s.db, r, token, os, cfg.maxInfra, now, cfg.delay);
      SavedItemsStay(s.db.items, t.db.items, r, token, AnyRetry(os, token, cfg.maxInfra));
    } else {
      StayRefl(s.db.items);
    }
    RowMoves(s.db, t.db, r);
    OtherRowsKeep(s.db, t.db, r, s.workers, w, t.workers[w]);
    PastSavesKeep(s.db, t.db, s.saves);
    if Save(s.db, r, token, os, cfg.maxInfra, now, cfg.delay).Ok? {
      SaveLogged(s.db, t.db, s.saves, r, token);
    }
  }

  lemma SavedItemsStay(before: seq<Item>, after: seq<Item>, r: nat, token: nat, retry: bool)
    requires SavedItems(before, after, r, token, retry)
    ensures ItemsStay(before, after)
  {
  }

  lemma OneWorker(s: Sys, w: nat)
    requires WorkersOk(s.db, s.workers) && w < |s.workers|
    ensures WorkerOk(s.db, s.workers[w])
  {
  }

  lemma SaveLogged(db: Db, after: Db, saves: seq<(nat, nat)>, r: nat, token: nat)
    requires SavesOk(db, saves) && SavesOk(after, saves)
    requires HeldAt(db, r, token) && Past(after, r, token)
    ensures SavesOk(after, saves + [(r, token)])
  {
    hide FinishedAttempt;
    forall k | 0 <= k < |saves| && saves[k].0 == r ensures saves[k].1 < token {
      assert Past(db, saves[k].0, saves[k].1);
    }
  }

  lemma GiveBackStep(cfg: Config, s: Sys, w: nat, now: int)
    requires Inv(s) && w < |s.workers| && s.workers[w].Releasing?
    ensures Inv(WorkerStep(cfg, s, GiveBack(w, now)))
    ensures RetryOrFail(s.db, s.workers[w].run, s.workers[w].token, cfg.maxRunAttempts, now, cfg.delay).Ok?
  {
    hide Sound, WorkersOk, SavesOk, Past, ItemsStay;
    var r, token := s.workers[w].run, s.workers[w].token;
    var t := WorkerStep(cfg, s, GiveBack(w, now));
    OneWorker(s, w);
    RunningIsCounted(s.db, r);
    RetryOrFailKeeps(s.db, r, token, cfg.maxRunAttempts, now, cfg.delay);
    StayRefl(s.db.items);
    RowMoves(s.db, t.db, r);
    OtherRowsKeep(s.db, t.db, r, s.workers, w, Idle);
    PastSavesKeep(s.db, t.db, s.saves);
  }

  lemma RunningIsCounted(db: Db, r: nat)
    requires Sound(db) && r < |db.runs| && db.runs[r].status == Running
    ensures db.runs[r].attemptCount >= 1
  {
    assert RowOk(db.runs[r]);
  }

  /** Steps that move only the worker itself: away from a claim, or on within it. */
  lemma LocalStep(s: Sys, w: nat, worker: Worker)
    requires Inv(s) && w < |s.workers|
    requires worker.Idle? ||
             (worker.Stopping? && !worker.saved && s.workers[w] == Processing(worker.run, worker.token)) ||
             (worker.Releasing? && s.workers[w] == Stopping(worker.run, worker.token, false))
    ensures Inv(s.(workers := s.workers[w := worker]))
  {
    hide Sound, SavesOk;
    assert WorkerOk(s.db, s.workers[w]);
  }

  /** The invariant of the whole system survives every step of every actor. */
  lemma StepKeeps(cfg: Config, s: Sys, e: Event)
    requires Inv(s)
    ensures Inv(Step(cfg, s, e))
  {
    hide Sound, WorkersOk, SavesOk, Exclusive, Save, RepairerStep, RenewRun, ClaimRun, RetryOrFail, Outside, Inv;
    assert Sound(s.db) && WorkersOk(s.db, s.workers) && SavesOk(s.db, s.saves) by { InvParts(s); }
    if ByRepairer(e) {
      RepairerKeepsRuns(cfg, s, e);
      var t := RepairerStep(cfg, s, e);
      SoundParts(s.db, t.db);
      SameRunsQuiet(s.db, t.db);
      QuietKeeps(s.db, t.db, s.workers, s.saves);
      InvFrom(s, t);
    } else if !ByWorker(e) {
      OutsideKeeps(cfg, s.db, e);
      QuietKeeps(s.db, Outside(cfg, s.db, e), s.workers, s.saves);
      InvFrom(s, s.(db := Outside(cfg, s.db, e)));
    } else {
      WorkerStepKeeps(cfg, s, e);
    }
  }

  lemma InvParts(s: Sys)
    requires Inv(s)
    ensures Sound(s.db) && WorkersOk(s.db, s.workers) && SavesOk(s.db, s.saves) && Exclusive(s.workers)
  {
  }

  lemma InvFrom(s: Sys, t: Sys)
    requires Inv(s) && t.workers == s.workers && t.saves == s.saves
    requires Sound(t.db) && WorkersOk(t.db, t.workers) && SavesOk(t.db, t.saves)
    ensures Inv(t)
  {
  }

  lemma WorkerStepKeeps(cfg: Config, s: Sys, e: Event)
    requires Inv(s) && ByWorker(e)
    ensures Inv(WorkerStep(cfg, s, e))
  {
    hide Inv, Save, RenewRun, ClaimRun, RetryOrFail, Claimable;
    match e
    case Claim(w, r, now) =>
      if w < |s.workers| && s.workers[w].Idle? && Claimable(s.db, r, now) { ClaimStep(cfg, s, w, r, now); }
    case Renew(w, now) => RenewStep(cfg, s, w, now);
    case SaveAll(w, os, now) =>
      if w < |s.workers| && s.workers[w].Processing? { SaveStep(cfg, s, w, os, now); }
    case ProcessingFails(w) =>
      if w < |s.workers| && s.workers[w].Processing? {
        LocalStep(s, w, Stopping(s.workers[w].run, s.workers[w].token, false));
      }
    case RenewalsEnd(w) =>
      if w < |s.workers| && s.workers[w].Stopping? {
        LocalStep(s, w, if s.workers[w].saved then Idle else Releasing(s.workers[w].run, s.workers[w].token));
      }
    case GiveBack(w, now) =>
      if w < |s.workers| && s.workers[w].Releasing? { GiveBackStep(cfg, s, w, now); }
    case ReleaseFails(w) =>
      if w < |s.workers| && s.workers[w].Releasing? { LocalStep(s, w, Idle); }
    case Crash(w) =>
      if w < |s.workers| { LocalStep(s, w, Idle); }
    case _ =>
  }

  /** Every reachable state satisfies the invariant, whatever the interleaving and whatever the clock readings. */
  lemma {:induction false} Reachable(cfg: Config, s: Sys, events: seq<Event>)
    requires Initial(s)
    ensures Inv(Play(cfg, s, events))
  {
    hide Inv, Step;
    if events == [] {
      InitialIsFine(s);
    } else {
      Reachable(cfg, s, events[..|events| - 1]);
      StepKeeps(cfg, Play(cfg, s, events[..|events| - 1]), events[|events| - 1]);
    }
  }

  lemma InitialIsFine(s: Sys)
    requires Initial(s)
    ensures Inv(s)
  {
  }

  // ---- scope decisions and the agreement ----

  /** What the guard in front of a scope decision would have to say. */
  predicate DecisionAgrees(db: Db, e: Event) {
    e.Scope? ==> ScopeAgrees(db, e.run, e.testCase.testCase, e.wanted)
  }

  /** Every scope decision keeps the agreement in the state it meets. */
  predicate Guarded(cfg: Config, s: Sys, events: seq<Event>) {
    forall k :: 0 <= k < |events| ==> DecisionAgrees(Play(cfg, s, events[..k]).db, events[k])
  }

  lemma WorkerAligned(cfg: Config, s: Sys, e: Event)
    requires Inv(s) && ByWorker(e)
    ensures Keeps(s.db, WorkerStep(cfg, s, e).db)
  {
    hide Sound, Keeps, Save, RenewRun, ClaimRun, RetryOrFail, Claimable;
    SoundIgnores(s.db, s.db);
    if e.w < |s.workers| {
      var r, token := if s.workers[e.w].Idle? then 0 else s.workers[e.w].run, if s.workers[e.w].Idle? then 0 else s.workers[e.w].token;
      match e
      case Claim(w, r, now) =>
        if s.workers[w].Idle? && Claimable(s.db, r, now) { ClaimKeeps(s.db, r, now, cfg.lease); }
      case Renew(w, now) =>
        if RenewRun(s.db, r, token, now, cfg.lease).Ok? { RenewKeeps(s.db, r, token, now, cfg.lease); }
      case SaveAll(w, os, now) =>
        if Save(s.db, r, token, os, cfg.maxInfra, now, cfg.delay).Ok? {
          SaveKeeps(s.db, r, token, os, cfg.maxInfra, now, cfg.delay);
        }
      case GiveBack(w, now) =>
        if RetryOrFail(s.db, r, token, cfg.maxRunAttempts, now, cfg.delay).Ok? {
          RetryOrFailKeeps(s.db, r, token, cfg.maxRunAttempts, now, cfg.delay);
        }
      case _ =>
    }
  }

  /** One step keeps the agreement if and only if it is not a scope decision that breaks it. */
  lemma StepAligned(cfg: Config, s: Sys, e: Event)
    requires Inv(s) && Aligned(s.db)
    ensures Aligned(Step(cfg, s, e).db) <==> DecisionAgrees(s.db, e)
  {
    hide Sound, Aligned, WorkersOk, SavesOk, Exclusive, Outside, WorkerStep, RepairerStep, ScopeAgrees, DecideScope;
    if ByRepairer(e) {
      RepairerKeepsRuns(cfg, s, e);
      SoundIgnores(s.db, RepairerStep(cfg, s, e).db);
    } else if ByWorker(e) {
      WorkerAligned(cfg, s, e);
    } else if e.Scope? {
      OutsideScope(cfg, s.db, e);
      if DecideScope(s.db, e.run, e.testCase, e.wanted).Ok? {
        DecideScopeExact(s.db, e.run, e.testCase, e.wanted);
      } else {
        RefusedAgrees(s.db, e.run, e.testCase, e.wanted);
      }
    } else {
      OutsideKeeps(cfg, s.db, e);
    }
  }

  lemma OutsideScope(cfg: Config, db: Db, e: Event)
    requires e.Scope?
    ensures Outside(cfg, db, e) == Or(db, DecideScope(db, e.run, e.testCase, e.wanted))
  {
  }

  lemma RefusedAgrees(db: Db, r: nat, c: ScopedCase, wanted: bool)
    requires DecideScope(db, r, c, wanted).Err?
    ensures ScopeAgrees(db, r, c.testCase, wanted)
  {
    hide Included, Excluded, KeepsTop, OnlyUnstarted, AttemptExists, HasItems;
  }

  predicate AlignedAlong(cfg: Config, s: Sys, events: seq<Event>) {
    forall n :: 0 <= n <= |events| ==> Aligned(Play(cfg, s, events[..n]).db)
  }

  /** The agreement holds all along a run of the system if and only if every scope decision passed the check. */
  lemma {:induction false} AlignedExactly(cfg: Config, s: Sys, events: seq<Event>)
    requires Initial(s)
    ensures AlignedAlong(cfg, s, events) <==> Guarded(cfg, s, events)
  {
    hide Inv, Aligned, Step, DecisionAgrees, AlignedAlong, Guarded;
    if events == [] {
      NothingIsAligned(cfg, s);
    } else {
      var n := |events| - 1;
      var init, before := events[..n], Play(cfg, s, events[..n]);
      AlignedExactly(cfg, s, init);
      LastStep(cfg, s, events);
      Reachable(cfg, s, init);
      if Aligned(before.db) {
        StepAligned(cfg, before, events[n]);
      }
    }
  }

  lemma LastStep(cfg: Config, s: Sys, events: seq<Event>)
    requires events != []
    ensures var init, last := events[..|events| - 1], events[|events| - 1];
            && (AlignedAlong(cfg, s, events) <==> AlignedAlong(cfg, s, init) && Aligned(Play(cfg, s, events).db))
            && (AlignedAlong(cfg, s, init) ==> Aligned(Play(cfg, s, init).db))
            && (Guarded(cfg, s, events) <==> Guarded(cfg, s, init) && DecisionAgrees(Play(cfg, s, init).db, last))
  {
    hide Aligned, DecisionAgrees, Play;
    var n := |events| - 1;
    var init := events[..n];
    assert events[..|events|] == events && init[..n] == init;
    assert forall k :: 0 <= k <= n ==> init[..k] == events[..k];
    if AlignedAlong(cfg, s, init) && Aligned(Play(cfg, s, events).db) {
      forall m | 0 <= m <= |events| ensures Aligned(Play(cfg, s, events[..m]).db) {
        assert m <= n ==> init[..m] == events[..m];
      }
    }
    if AlignedAlong(cfg, s, events) {
      forall m | 0 <= m <= n ensures Aligned(Play(cfg, s, init[..m]).db) {
        assert init[..m] == events[..m];
      }
    }
    if Guarded(cfg, s, events) {
      forall k | 0 <= k < n ensures DecisionAgrees(Play(cfg, s, init[..k]).db, init[k]) {
        assert DecisionAgrees(Play(cfg, s, events[..k]).db, events[k]);
      }
      assert DecisionAgrees(Play(cfg, s, events[..n]).db, events[n]);
    }
    if Guarded(cfg, s, init) && DecisionAgrees(Play(cfg, s, init).db, events[n]) {
      forall k | 0 <= k < |events| ensures DecisionAgrees(Play(cfg, s, events[..k]).db, events[k]) {
        assert k < n ==> DecisionAgrees(Play(cfg, s, init[..k]).db, init[k]);
      }
    }
  }

  lemma NothingIsAligned(cfg: Config, s: Sys)
    requires Initial(s)
    ensures AlignedAlong(cfg, s, []) && Guarded(cfg, s, [])
  {
    var none: seq<Event> := [];
    assert none[..0] == none;
  }
}
