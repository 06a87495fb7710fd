/** Runs that are claimed again and again, and concrete runs of the system that end up stuck. */
module RunLoops {
  import opened Results
  import opened RunModel
  import opened RunInvariants
  import opened RunWorkers
  import opened RunTheorems
  import opened RepairJobs
  import opened RunStuck
  import opened RunStock

  // ---- failed runs ----

  /** A run fails only at the limit. */
  predicate FailedAtLimit(cfg: Config, db: Db) {
    forall r :: 0 <= r < |db.runs| && db.runs[r].status == Failed ==> db.runs[r].attemptCount >= cfg.maxRunAttempts
  }

  /** Outside the workers no run becomes failed, and a failed one is left alone or queued again. */
  predicate NoFailure(db: Db, after: Db) {
    && |db.runs| <= |after.runs|
    && (forall r :: 0 <= r < |db.runs| && after.runs[r].status == Failed ==> after.runs[r] == db.runs[r])
    && (forall r :: |db.runs| <= r < |after.runs| ==> after.runs[r].status == Pending)
  }

  lemma OutsideFailsNothing(cfg: Config, db: Db, e: Event)
    ensures NoFailure(db, Outside(cfg, db, e))
  {
    hide Review, RequestRepair, Reclassify, DecideScope, AddDraft, ScopeRows;
    match e
    case Scope(r, c, wanted) =>
      if DecideScope(db, r, c, wanted).Ok? { DecideScopeStays(db, r, c, wanted); }
    case Generate(a) =>
      if AddDraft(db, a).Ok? { AddDraftRuns(db, a); }
    case Decide(id, approve, now) =>
      if Review(db, id, approve, now).Ok? { ReviewFailsNothing(db, id, approve, now); }
    case AskRepair(i, now) =>
      if RequestRepair(db, i, cfg.maxRepairs, now).Ok? { RequestRepairItems(db, i, cfg.maxRepairs, now); }
    case Correct(i, verdict) =>
      if Reclassify(db, i, verdict).Ok? { ReclassifyRuns(db, i, verdict); }
    case _ =>
  }

  lemma ReviewFailsNothing(db: Db, id: nat, approve: bool, now: int)
    requires Review(db, id, approve, now).Ok?
    ensures NoFailure(db, Review(db, id, approve, now).value)
  {
    hide DecideJobs, FirstAwaiting, MaxAttempt, FullyAutomated;
  }

  lemma WorkerFails(cfg: Config, s: Sys, e: Event)
    requires Inv(s) && FailedAtLimit(cfg, s.db) && ByWorker(e)
    ensures FailedAtLimit(cfg, WorkerStep(cfg, s, e).db)
  {
    hide Sound, Exclusive, SavesOk, WorkersOk, Save, SavedItems, FinishedAttempt;
    if e.SaveAll? && e.w < |s.workers| && s.workers[e.w].Processing? {
      var r, token := s.workers[e.w].run, s.workers[e.w].token;
      if Save(s.db, r, token, e.outcomes, cfg.maxInfra, e.now, cfg.delay).Ok? {
        SaveEffect(s.db, r, token, e.outcomes, cfg.maxInfra, e.now, cfg.delay);
      }
    }
  }

  /** In every reachable state a failed run has used up its claims at the attempt where it failed. */
  lemma {:induction false} FailedAtLimitForever(cfg: Config, s: Sys, events: seq<Event>)
    requires Initial(s)
    ensures FailedAtLimit(cfg, Play(cfg, s, events).db)
  {
    hide Inv, Outside, WorkerStep, RepairerStep;
    if events != [] {
      var before, e := Play(cfg, s, events[..|events| - 1]), events[|events| - 1];
      FailedAtLimitForever(cfg, s, events[..|events| - 1]);
      Reachable(cfg, s, events[..|events| - 1]);
      if ByRepairer(e) {
        RepairerKeepsRuns(cfg, before, e);
      } else if ByWorker(e) {
        WorkerFails(cfg, before, e);
      } else {
        OutsideFailsNothing(cfg, before.db, e);
      }
    }
  }

  // ---- processing that always fails ----

  /** One worker's failing turn: claim, fail, wait for the renewals, give back. */
  function Turn(w: nat, r: nat, t: int): seq<Event> {
    [Claim(w, r, t), ProcessingFails(w), RenewalsEnd(w), GiveBack(w, t)]
  }

  lemma PlayStep(cfg: Config, s: Sys, events: seq<Event>, k: nat)
    requires k < |events|
    ensures Play(cfg, s, events[..k + 1]) == Step(cfg, Play(cfg, s, events[..k]), events[k])
  {
    assert events[..k + 1][..k] == events[..k];
  }

  lemma {:induction false} PlayConcat(cfg: Config, s: Sys, a: seq<Event>, b: seq<Event>)
    ensures Play(cfg, s, a + b) == Play(cfg, Play(cfg, s, a), b)
  {
    hide Step;
    if b == [] {
      assert a + b == a;
    } else {
      var n := |b| - 1;
      assert (a + b)[..|a + b| - 1] == a + b[..n];
      PlayConcat(cfg, s, a, b[..n]);
    }
  }

  /** What is left of a failing turn: the run is due later; or it has failed, if its attempt is at the limit. */
  function AfterTurn(cfg: Config, s: Sys, r: nat, t: int): Sys
    requires r < |s.db.runs|
  {
    var run := s.db.runs[r];
    s.(db := SetRun(s.db, r, if run.attemptCount + 1 >= cfg.maxRunAttempts
                             then run.(status := Failed, attemptCount := run.attemptCount + 1, lease := None)
                             else run.(nextAttemptAt := t + cfg.delay, lease := None)))
  }

  lemma TurnPlays(cfg: Config, s: Sys, w: nat, r: nat, t: int)
    requires w < |s.workers| && s.workers[w].Idle? && Claimable(s.db, r, t)
    ensures Play(cfg, s, Turn(w, r, t)) == AfterTurn(cfg, s, r, t)
  {
    hide Play;
    var es, token := Turn(w, r, t), s.db.runs[r].attemptCount + 1;
    var claimed := s.(db := ClaimRun(s.db, r, t, cfg.lease), workers := s.workers[w := Processing(r, token)]);
    NothingPlayed(cfg, s, es);
    PlayStep(cfg, s, es, 0);
    PlayStep(cfg, s, es, 1);
    PlayStep(cfg, s, es, 2);
    PlayStep(cfg, s, es, 3);
    assert es[..4] == es;
    assert Play(cfg, s, es[..1]) == claimed;
    assert Play(cfg, s, es[..2]) == claimed.(workers := s.workers[w := Stopping(r, token, false)]);
    assert Play(cfg, s, es[..3]) == claimed.(workers := s.workers[w := Releasing(r, token)]);
    assert s.workers[w := Idle] == s.workers;
    Restored(s.db, r, claimed.db);
  }

  lemma Restored(db: Db, r: nat, claimed: Db)
    requires r < |db.runs| && claimed == db.(runs := claimed.runs) && |claimed.runs| == |db.runs|
    requires forall k :: 0 <= k < |db.runs| && k != r ==> claimed.runs[k] == db.runs[k]
    ensures forall run :: SetRun(claimed, r, run) == SetRun(db, r, run)
  {
    forall run ensures SetRun(claimed, r, run) == SetRun(db, r, run) {
      assert claimed.runs[r := run] == db.runs[r := run];
    }
  }

  lemma NothingPlayed(cfg: Config, s: Sys, events: seq<Event>)
    ensures Play(cfg, s, events[..0]) == s
  {
  }

  /** n failing turns, each as soon as the run is due again. */
  function Turns(cfg: Config, w: nat, r: nat, t: int, n: nat): seq<Event> {
    if n == 0 then [] else Turns(cfg, w, r, t, n - 1) + Turn(w, r, t + (n - 1) * cfg.delay)
  }

  /** The row after n turns that put it back. */
  function PutBack(cfg: Config, s: Sys, r: nat, t: int, n: nat): Sys
    requires r < |s.db.runs|
  {
    if n == 0 then s
    else s.(db := SetRun(s.db, r, s.db.runs[r].(nextAttemptAt := t + n * cfg.delay, lease := None)))
  }

  /**
   * A run whose processing always fails is put back at the same attempt, without bound, exactly if that attempt is
   * below the limit; at the limit the first failing turn is the last.
   */
  lemma {:induction false} ReclaimedExactly(cfg: Config, s: Sys, w: nat, r: nat, t: int, n: nat)
    requires w < |s.workers| && s.workers[w].Idle? && Claimable(s.db, r, t) && n >= 1
    ensures s.db.runs[r].attemptCount + 1 < cfg.maxRunAttempts ==>
              && Play(cfg, s, Turns(cfg, w, r, t, n)) == PutBack(cfg, s, r, t, n)
              && Claimable(PutBack(cfg, s, r, t, n).db, r, t + n * cfg.delay)
    ensures s.db.runs[r].attemptCount + 1 >= cfg.maxRunAttempts ==>
              Play(cfg, s, Turns(cfg, w, r, t, 1)) == AfterTurn(cfg, s, r, t) && AfterTurn(cfg, s, r, t).db.runs[r].status == Failed
  {
    hide Play, Step;
    TurnPlays(cfg, s, w, r, t);
    assert Turns(cfg, w, r, t, 0) == [] && Turns(cfg, w, r, t, 1) == [] + Turn(w, r, t) == Turn(w, r, t);
    if s.db.runs[r].attemptCount + 1 < cfg.maxRunAttempts && n > 1 {
      var before, due := PutBack(cfg, s, r, t, n - 1), t + (n - 1) * cfg.delay;
      ReclaimedExactly(cfg, s, w, r, t, n - 1);
      PlayConcat(cfg, s, Turns(cfg, w, r, t, n - 1), Turn(w, r, due));
      TurnPlays(cfg, before, w, r, due);
      Restored(s.db, r, before.db);
      assert due + cfg.delay == t + n * cfg.delay;
    }
  }

  // ---- runs that find nothing to do ----

  /** A queued run that has no item at the attempt it is to execute. */
  predicate Stranded(db: Db, r: nat) {
    r < |db.runs| && db.runs[r].status == Pending && db.runs[r].requested && Empty(db, r)
  }

  // ---- concrete runs of the system ----

  const A := ScopedCase(0, "a", "a")
  const B := ScopedCase(1, "b", "b")

  /** Two cases; the first attempt ends with one infrastructure error; then that case is taken out of scope. */
  const EXCLUSION: seq<Event> :=
    [Create([A, B], {}, None), Ask(0, 0), Claim(0, 0, 0),
     SaveAll(0, [Outcome(0, None, "", InfraError), Outcome(1, None, "", Passed)], 0), RenewalsEnd(0), Scope(0, A, false)]

  const FIRST_A := FirstTry(0, A)
  const FIRST_B := FirstTry(0, B)

  function Created(s: Sys): Sys {
    s.(db := Db([Run(Pending, 0, false, 0, None, None)], [FIRST_A, FIRST_B], [], [], map[(0, 0) := true, (0, 1) := true]))
  }

  function Asked(s: Sys): Sys {
    Created(s).(db := Created(s).db.(runs := [Run(Pending, 0, true, 0, None, None)]))
  }

  function Begun(cfg: Config, s: Sys): Sys
    requires |s.workers| > 0
  {
    Asked(s).(db := Asked(s).db.(runs := [Run(Running, 1, true, 0, Some(cfg.lease), None)]),
              workers := s.workers[0 := Processing(0, 1)])
  }

  lemma CreatedPlays(cfg: Config, s: Sys)
    requires Initial(s)
    ensures Step(cfg, s, EXCLUSION[0]) == Created(s)
  {
    hide WorkerStep, RepairerStep;
    var cases := [A, B];
    assert (set c | c in cases :: c.testCase) == {0, 1} by {
      assert cases[0] == A && cases[1] == B;
    }
    assert ScopeRows(0, {0, 1}, {}) == map[(0, 0) := true, (0, 1) := true];
    assert seq(2, k requires 0 <= k < 2 => FirstTry(0, cases[k])) == [FIRST_A, FIRST_B];
    var made := CreateRun(s.db, cases, {}, None);
    assert made.Ok?;
    assert made.value.items == [FIRST_A, FIRST_B];
    assert made.value.scope == map[(0, 0) := true, (0, 1) := true];
  }

  lemma AskedPlays(cfg: Config, s: Sys)
    requires Initial(s)
    ensures Step(cfg, Created(s), EXCLUSION[1]) == Asked(s)
  {
    hide WorkerStep, RepairerStep;
  }

  lemma BegunPlays(cfg: Config, s: Sys)
    requires Initial(s) && |s.workers| > 0
    ensures Step(cfg, Asked(s), EXCLUSION[2]) == Begun(cfg, s)
  {
    hide Outside, RepairerStep;
  }

  /** The run is being executed by worker 0. */
  lemma ThreeEvents(cfg: Config, s: Sys)
    requires Initial(s) && |s.workers| > 0
    ensures Play(cfg, s, EXCLUSION[..3]) == Begun(cfg, s)
  {
    hide Play, Step, Created, Asked, Begun;
    NothingPlayed(cfg, s, EXCLUSION);
    PlayStep(cfg, s, EXCLUSION, 0);
    PlayStep(cfg, s, EXCLUSION, 1);
    PlayStep(cfg, s, EXCLUSION, 2);
    CreatedPlays(cfg, s);
    AskedPlays(cfg, s);
    BegunPlays(cfg, s);
  }

  /** An orphaned run is reachable: create, ask, claim, crash. */
  lemma OrphanReached(cfg: Config, s: Sys)
    requires Initial(s) && |s.workers| > 0
    ensures Orphaned(Play(cfg, s, EXCLUSION[..3] + [Crash(0)]), 0)
  {
    hide Play, Orphaned;
    var begun, es := EXCLUSION[..3], EXCLUSION[..3] + [Crash(0)];
    assert es[..3] == begun && es[..4] == es;
    PlayStep(cfg, s, es, 3);
    ThreeEvents(cfg, s);
    Reachable(cfg, s, begun);
    LosingOrphans(cfg, Begun(cfg, s), Crash(0), 0);
  }

  function AllSaved(cfg: Config, s: Sys): Sys
    requires |s.workers| > 0
  {
    s.(db := Db([Run(Pending, 1, true, cfg.delay, None, None)],
                [FIRST_A.(status := Done(InfraError)), FIRST_B.(status := Done(Passed)), FIRST_A.(attempt := 2)],
                [], [], map[(0, 0) := true, (0, 1) := true]),
       workers := s.workers[0 := Stopping(0, 1, true)], saves := [(0, 1)])
  }

  lemma AllSavedPlays(cfg: Config, s: Sys)
    requires Initial(s) && |s.workers| > 0 && cfg.maxInfra >= 2
    ensures Step(cfg, Begun(cfg, s), EXCLUSION[3]) == AllSaved(cfg, s)
  {
    hide Outside, RepairerStep;
    var db, os := Begun(cfg, s).db, [Outcome(0, None, "", InfraError), Outcome(1, None, "", Passed)];
    var one := [FIRST_A.(status := Done(InfraError)), FIRST_B];
    var two := one + [FIRST_A.(attempt := 2)];
    assert os[..0] == [] && os[..1] == [os[0]] && os[..1][..0] == [];
    assert SaveOutcomes(db, 0, 1, os[..0], cfg.maxInfra) == Ok(db);
    assert db.items[0 := one[0]] == one;
    assert SaveOutcome(db, 0, 1, os[0], cfg.maxInfra) == Ok(db.(items := two));
    assert SaveOutcomes(db, 0, 1, os[..1], cfg.maxInfra) == Ok(db.(items := two));
    assert two[1 := FIRST_B.(status := Done(Passed))] == AllSaved(cfg, s).db.items;
    assert SaveOutcomes(db, 0, 1, os, cfg.maxInfra) == Ok(db.(items := AllSaved(cfg, s).db.items));
    assert os[0] in os && Retries(os[0], 1, cfg.maxInfra);
    assert AnyRetry(os, 1, cfg.maxInfra);
    assert s.workers[0 := Processing(0, 1)][0 := Stopping(0, 1, true)] == s.workers[0 := Stopping(0, 1, true)];
  }

  function TakenOut(cfg: Config, s: Sys): Sys
    requires |s.workers| > 0
  {
    var t := AllSaved(cfg, s);
    t.(db := t.db.(items := t.db.items[2 := FIRST_A.(attempt := 2, status := Removed)], scope := map[(0, 0) := false, (0, 1) := true]),
       workers := s.workers)
  }

  lemma TakenOutPlays(cfg: Config, s: Sys)
    requires Initial(s) && |s.workers| > 0
    ensures Step(cfg, Step(cfg, AllSaved(cfg, s), EXCLUSION[4]), EXCLUSION[5]) == TakenOut(cfg, s)
  {
    hide RepairerStep;
    var t := Step(cfg, AllSaved(cfg, s), EXCLUSION[4]);
    assert s.workers[0 := Stopping(0, 1, true)][0 := Idle] == s.workers;
    assert t == AllSaved(cfg, s).(workers := s.workers);
    assert Unstarted(t.db.items[2], 0, 0) && AnyUnstarted(t.db.items, 0, 0);
    assert Excluded(t.db.items, 0, 0) == TakenOut(cfg, s).db.items;
    assert map[(0, 0) := true, (0, 1) := true][(0, 0) := false] == map[(0, 0) := false, (0, 1) := true];
  }

  lemma SixEvents(cfg: Config, s: Sys)
    requires Initial(s) && |s.workers| > 0 && cfg.maxInfra >= 2
    ensures Play(cfg, s, EXCLUSION) == TakenOut(cfg, s)
  {
    hide Play, Step, Begun, AllSaved, TakenOut;
    ThreeEvents(cfg, s);
    PlayStep(cfg, s, EXCLUSION, 3);
    PlayStep(cfg, s, EXCLUSION, 4);
    PlayStep(cfg, s, EXCLUSION, 5);
    assert EXCLUSION[..6] == EXCLUSION;
    AllSavedPlays(cfg, s);
    TakenOutPlays(cfg, s);
  }

  lemma TakenOutStranded(cfg: Config, s: Sys)
    requires |s.workers| > 0
    ensures Stranded(TakenOut(cfg, s).db, 0) && !Aligned(TakenOut(cfg, s).db)
    ensures forall t :: t >= cfg.delay ==> Claimable(TakenOut(cfg, s).db, 0, t)
  {
    var db := TakenOut(cfg, s).db;
    assert Live(db.items[1]) && db.items[1].run == 0;
    assert !AlignedAt(db.items, 0, db.runs[0]);
  }

  /**
   * Excluding the one case that was to be tried again strands the run: it stays queued at attempt 2, has no item
   * there, and for every n it is claimed n times in vain.
   */
  lemma ExclusionStrands(cfg: Config, s: Sys, n: nat)
    requires Initial(s) && |s.workers| > 0 && cfg.maxInfra >= 2 && cfg.maxRunAttempts > 2 && n >= 1
    ensures Stranded(Play(cfg, s, EXCLUSION).db, 0) && !Aligned(Play(cfg, s, EXCLUSION).db)
    ensures var t := Play(cfg, s, EXCLUSION + Turns(cfg, 0, 0, cfg.delay, n));
            t == PutBack(cfg, Play(cfg, s, EXCLUSION), 0, cfg.delay, n) && Stranded(t.db, 0)
  {
    hide Play, Step, Stranded, Aligned, PutBack;
    SixEvents(cfg, s);
    TakenOutStranded(cfg, s);
    PlayConcat(cfg, s, EXCLUSION, Turns(cfg, 0, 0, cfg.delay, n));
    ReclaimedExactly(cfg, TakenOut(cfg, s), 0, 0, cfg.delay, n);
    StillStranded(cfg, TakenOut(cfg, s), 0, cfg.delay, n);
  }

  lemma StillStranded(cfg: Config, s: Sys, r: nat, t: int, n: nat)
    requires Stranded(s.db, r)
    ensures Stranded(PutBack(cfg, s, r, t, n).db, r)
  {
  }

  /** Nothing gets this run out: whatever events follow, it is still open at attempt 2 with nothing to execute. */
  lemma ExclusionStrandsForGood(cfg: Config, s: Sys, later: seq<Event>)
    requires Initial(s) && |s.workers| > 0 && cfg.maxInfra >= 2 && cfg.maxRunAttempts > 2
    ensures Barren(Play(cfg, s, EXCLUSION + later).db, 0, 2)
  {
    hide Play, Step, Inv, Barren;
    SixEvents(cfg, s);
    TakenOutBarren(cfg, s);
    Reachable(cfg, s, EXCLUSION);
    PlayConcat(cfg, s, EXCLUSION, later);
    BarrenForever(cfg, TakenOut(cfg, s), later, 0, 2);
  }

  lemma TakenOutBarren(cfg: Config, s: Sys)
    requires |s.workers| > 0
    ensures Barren(TakenOut(cfg, s).db, 0, 2)
  {
    hide Stranded;
    TakenOutStranded(cfg, s);
    StrandedIsEmpty(TakenOut(cfg, s).db, 0);
  }

  lemma StrandedIsEmpty(db: Db, r: nat)
    requires Stranded(db, r)
    ensures Empty(db, r)
  {
  }

  // ---- a run emptied at its first attempt ----

  /** The one case of a queued run is taken out of scope before it has run. */
  const EMPTYING: seq<Event> := [Create([A], {}, None), Ask(0, 0), Scope(0, A, false)]

  function Single(s: Sys, requested: bool): Sys {
    s.(db := Db([Run(Pending, 0, requested, 0, None, None)], [FIRST_A], [], [], map[(0, 0) := true]))
  }

  function Emptied(s: Sys): Sys {
    s.(db := Db([Run(Pending, 0, true, 0, None, None)], [FIRST_A.(status := Removed)], [], [], map[(0, 0) := false]))
  }

  lemma SinglePlays(cfg: Config, s: Sys)
    requires Initial(s)
    ensures Step(cfg, s, EMPTYING[0]) == Single(s, false)
  {
    hide WorkerStep, RepairerStep;
    var cases := [A];
    assert (set c | c in cases :: c.testCase) == {0} by { assert cases[0] == A; }
    assert ScopeRows(0, {0}, {}) == map[(0, 0) := true];
    assert seq(1, k requires 0 <= k < 1 => FirstTry(0, cases[k])) == [FIRST_A];
    assert CreateRun(s.db, cases, {}, None).value.items == [FIRST_A];
  }

  lemma EmptiedPlays(cfg: Config, s: Sys)
    requires Initial(s)
    ensures Step(cfg, Single(s, false), EMPTYING[1]) == Single(s, true)
    ensures Step(cfg, Single(s, true), EMPTYING[2]) == Emptied(s)
    ensures DecisionAgrees(Single(s, true).db, EMPTYING[2])
  {
    hide WorkerStep, RepairerStep;
    var db := Single(s, true).db;
    assert Unstarted(db.items[0], 0, 0) && AnyUnstarted(db.items, 0, 0);
    assert OnlyUnstarted(db.items, 0, 0);
    assert Excluded(db.items, 0, 0) == Emptied(s).db.items;
    assert map[(0, 0) := true][(0, 0) := false] == map[(0, 0) := false];
  }

  lemma EmptyingPlays(cfg: Config, s: Sys)
    requires Initial(s)
    ensures Play(cfg, s, EMPTYING) == Emptied(s) && Guarded(cfg, s, EMPTYING)
  {
    hide Play, Step, Single, Emptied, ScopeAgrees;
    NothingPlayed(cfg, s, EMPTYING);
    PlayStep(cfg, s, EMPTYING, 0);
    PlayStep(cfg, s, EMPTYING, 1);
    PlayStep(cfg, s, EMPTYING, 2);
    assert EMPTYING[..3] == EMPTYING;
    SinglePlays(cfg, s);
    EmptiedPlays(cfg, s);
  }

  lemma EmptiedStranded(s: Sys)
    ensures Stranded(Emptied(s).db, 0) && Claimable(Emptied(s).db, 0, 0)
  {
  }

  /**
   * A decision that keeps the agreement can still leave nothing to execute: taking the only case out of a queued run
   * strands it, and for every n it is claimed n times in vain.
   */
  lemma EmptyingStrands(cfg: Config, s: Sys, n: nat)
    requires Initial(s) && |s.workers| > 0 && cfg.maxRunAttempts > 1 && n >= 1
    ensures Guarded(cfg, s, EMPTYING) && AlignedAlong(cfg, s, EMPTYING)
    ensures Stranded(Play(cfg, s, EMPTYING).db, 0)
    ensures var t := Play(cfg, s, EMPTYING + Turns(cfg, 0, 0, 0, n));
            t == PutBack(cfg, Play(cfg, s, EMPTYING), 0, 0, n) && Stranded(t.db, 0)
  {
    hide Play, Step, Stranded, AlignedAlong, Guarded, PutBack;
    EmptyingPlays(cfg, s);
    AlignedExactly(cfg, s, EMPTYING);
    EmptiedStranded(s);
    PlayConcat(cfg, s, EMPTYING, Turns(cfg, 0, 0, 0, n));
    ReclaimedExactly(cfg, Emptied(s), 0, 0, 0, n);
    StillStranded(cfg, Emptied(s), 0, 0, n);
  }

  // ---- a deserted repair job ----

  const DRAFT := Artifact(0, "h", "a", Draft, [], None)

  /** An approved test fails to run, a repair is asked for and taken up. */
  const REPAIR: seq<Event> :=
    [Generate(DRAFT), Decide(0, true, 0), Create([A], {}, None), Ask(0, 0), Claim(0, 0, 0),
     SaveAll(0, [Outcome(0, Some(0), "h", AutomationError)], 0), RenewalsEnd(0), AskRepair(0, 0), StartRepair(0, 0, 0)]

  const BROKEN := FIRST_A.(artifact := Some(0), sourceHash := "h", status := Done(AutomationError))

  function Drafted(s: Sys): Sys {
    s.(db := Db([], [], [DRAFT], [], map[]))
  }

  function Reviewed(s: Sys): Sys {
    s.(db := Db([], [], [DRAFT.(approval := Approved)], [], map[]))
  }

  function Planned(s: Sys): Sys {
    s.(db := Reviewed(s).db.(runs := [Run(Pending, 0, false, 0, None, None)], items := [FIRST_A], scope := map[(0, 0) := true]))
  }

  function Taken(cfg: Config, s: Sys): Sys
    requires |s.workers| > 0
  {
    s.(db := Planned(s).db.(runs := [Run(Running, 1, true, 0, Some(cfg.lease), None)]), workers := s.workers[0 := Processing(0, 1)])
  }

  function Executed(s: Sys): Sys {
    s.(db := Planned(s).db.(runs := [Run(Completed, 1, true, 0, None, None)], items := [BROKEN]), saves := [(0, 1)])
  }

  function Queueing(s: Sys): Sys {
    Executed(s).(db := Executed(s).db.(jobs := [Job(0, 0, None, 1, Queued, 0, 0, None, "a", "h", [])]))
  }

  function Repaired(cfg: Config, s: Sys): Sys
    requires |s.repairers| > 0
  {
    Executed(s).(db := Executed(s).db.(jobs := [Job(0, 0, None, 1, Repairing, 1, 0, Some(cfg.lease), "a", "h", [])]),
                 repairers := s.repairers[0 := Loading(0, 1)])
  }

  lemma DraftedPlays(cfg: Config, s: Sys)
    requires Initial(s)
    ensures Step(cfg, s, REPAIR[0]) == Drafted(s)
  {
    hide WorkerStep, RepairerStep;
  }

  lemma ReviewedPlays(cfg: Config, s: Sys)
    requires Initial(s)
    ensures Step(cfg, Drafted(s), REPAIR[1]) == Reviewed(s)
  {
    hide AutoQueued, WorkerStep, RepairerStep;
    assert [DRAFT][0 := DRAFT.(approval := Approved)] == [DRAFT.(approval := Approved)];
    assert DecideJobs([], 0, true) == [];
  }

  lemma PlannedPlays(cfg: Config, s: Sys)
    requires Initial(s)
    ensures Step(cfg, Reviewed(s), REPAIR[2]) == Planned(s)
  {
    hide WorkerStep, RepairerStep;
    var cases := [A];
    assert (set c | c in cases :: c.testCase) == {0} by { assert cases[0] == A; }
    assert ScopeRows(0, {0}, {}) == map[(0, 0) := true];
    assert seq(1, k requires 0 <= k < 1 => FirstTry(0, cases[k])) == [FIRST_A];
    assert CreateRun(Reviewed(s).db, cases, {}, None).value.items == [FIRST_A];
  }

  lemma TakenPlays(cfg: Config, s: Sys)
    requires Initial(s) && |s.workers| > 0
    ensures Step(cfg, Step(cfg, Planned(s), REPAIR[3]), REPAIR[4]) == Taken(cfg, s)
  {
    hide RepairerStep;
    assert Step(cfg, Planned(s), REPAIR[3]) ==
           s.(db := Planned(s).db.(runs := [Run(Pending, 0, true, 0, None, None)]));
  }

  lemma ExecutedPlays(cfg: Config, s: Sys)
    requires Initial(s) && |s.workers| > 0
    ensures Step(cfg, Step(cfg, Taken(cfg, s), REPAIR[5]), REPAIR[6]) == Executed(s)
  {
    hide RepairerStep;
    var db, os := Taken(cfg, s).db, [Outcome(0, Some(0), "h", AutomationError)];
    assert os[..0] == [];
    assert BindingAllowed(db, FIRST_A, os[0]);
    assert SaveOutcomes(db, 0, 1, os[..0], cfg.maxInfra) == Ok(db);
    assert [FIRST_A][0 := BROKEN] == [BROKEN];
    assert SaveOutcomes(db, 0, 1, os, cfg.maxInfra) == Ok(db.(items := [BROKEN]));
    assert !AnyRetry(os, 1, cfg.maxInfra);
    assert s.workers[0 := Processing(0, 1)][0 := Stopping(0, 1, true)] == s.workers[0 := Stopping(0, 1, true)];
    assert s.workers[0 := Stopping(0, 1, true)][0 := Idle] == s.workers;
    assert Step(cfg, Taken(cfg, s), REPAIR[5]) == Executed(s).(workers := s.workers[0 := Stopping(0, 1, true)]);
  }

  lemma QueueingPlays(cfg: Config, s: Sys)
    requires Initial(s) && 1 <= cfg.maxRepairs <= 3
    ensures Step(cfg, Executed(s), REPAIR[7]) == Queueing(s)
  {
    hide WorkerStep, RepairerStep;
  }

  lemma RepairedPlays(cfg: Config, s: Sys)
    requires Initial(s) && |s.repairers| > 0
    ensures Step(cfg, Queueing(s), REPAIR[8]) == Repaired(cfg, s)
  {
    hide WorkerStep, Outside;
  }

  lemma NineEvents(cfg: Config, s: Sys)
    requires Initial(s) && |s.workers| > 0 && |s.repairers| > 0 && 1 <= cfg.maxRepairs <= 3
    ensures Play(cfg, s, REPAIR) == Repaired(cfg, s)
  {
    hide Play, Step, Drafted, Reviewed, Planned, Taken, Executed, Queueing, Repaired;
    NothingPlayed(cfg, s, REPAIR);
    forall k | 0 <= k < 9 ensures Play(cfg, s, REPAIR[..k + 1]) == Step(cfg, Play(cfg, s, REPAIR[..k]), REPAIR[k]) {
      PlayStep(cfg, s, REPAIR, k);
    }
    assert REPAIR[..9] == REPAIR;
    DraftedPlays(cfg, s);
    ReviewedPlays(cfg, s);
    PlannedPlays(cfg, s);
    assert Play(cfg, s, REPAIR[..3]) == Planned(s) by {
      assert Play(cfg, s, REPAIR[..0 + 1]) == Drafted(s) && Play(cfg, s, REPAIR[..1 + 1]) == Reviewed(s);
      assert Play(cfg, s, REPAIR[..2 + 1]) == Planned(s);
    }
    TakenPlays(cfg, s);
    assert Play(cfg, s, REPAIR[..5]) == Taken(cfg, s) by {
      assert Play(cfg, s, REPAIR[..3 + 1]) == Step(cfg, Planned(s), REPAIR[3]);
      assert Play(cfg, s, REPAIR[..4 + 1]) == Taken(cfg, s);
    }
    ExecutedPlays(cfg, s);
    assert Play(cfg, s, REPAIR[..7]) == Executed(s) by {
      assert Play(cfg, s, REPAIR[..5 + 1]) == Step(cfg, Taken(cfg, s), REPAIR[5]);
      assert Play(cfg, s, REPAIR[..6 + 1]) == Executed(s);
    }
    QueueingPlays(cfg, s);
    RepairedPlays(cfg, s);
    assert Play(cfg, s, REPAIR[..7 + 1]) == Queueing(s);
    assert Play(cfg, s, REPAIR[..8 + 1]) == Repaired(cfg, s);
  }

  /** A deserted repair job is reachable: its worker crashes right after taking it up. */
  lemma DesertedReached(cfg: Config, s: Sys)
    requires Initial(s) && |s.workers| > 0 && |s.repairers| > 0 && 1 <= cfg.maxRepairs <= 3
    ensures Deserted(Play(cfg, s, REPAIR + [CrashRepairer(0)]), 0)
  {
    hide Play, Deserted, RepairSide;
    var es := REPAIR + [CrashRepairer(0)];
    assert es[..9] == REPAIR && es[..10] == es;
    PlayStep(cfg, s, es, 9);
    NineEvents(cfg, s);
    JobsForever(cfg, s, REPAIR);
    LosingDeserts(cfg, Repaired(cfg, s), CrashRepairer(0), 0);
  }
}
