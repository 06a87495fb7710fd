/** What holds of every run under every interleaving: claims, commits, crashes, immutable contracts. */
module RunTheorems {
  import opened Results
  import opened RunModel
  import opened RunInvariants
  import opened RunWorkers

  // ---- the unique key of items ----

  predicate SameCase(a: Item, b: Item) {
    Live(a) && Live(b) && a.run == b.run && a.testCase == b.testCase
  }

  /** UNIQUE (test_run_id, test_case_id, attempt_number). */
  predicate KeyUnique(items: seq<Item>) {
    forall i, j :: 0 <= i < j < |items| && SameCase(items[i], items[j]) ==> items[i].attempt != items[j].attempt
  }

  /** All items of one test case in one run, whatever their attempt, carry one expected result. */
  predicate OneContract(items: seq<Item>) {
    forall i, j :: 0 <= i < j < |items| && SameCase(items[i], items[j]) ==> SameContract(items[i], items[j])
  }

  predicate HasRoot(items: seq<Item>, item: Item) {
    exists j :: 0 <= j < |items| && items[j].status.Done? && items[j].run == item.run && items[j].testCase == item.testCase &&
                items[j].attempt < item.attempt
  }

  /** Later attempts of a case grow from finished earlier ones, which nobody can delete. */
  predicate Rooted(items: seq<Item>) {
    forall i :: 0 <= i < |items| && Live(items[i]) && items[i].attempt > 1 ==> HasRoot(items, items[i])
  }

  predicate Contracts(items: seq<Item>) {
    KeyUnique(items) && OneContract(items) && Rooted(items)
  }

  lemma RootStays(before: seq<Item>, after: seq<Item>, item: Item)
    requires ItemsStay(before, after) && HasRoot(before, item)
    ensures HasRoot(after, item)
  {
    var j :| 0 <= j < |before| && before[j].status.Done? && before[j].run == item.run &&
             before[j].testCase == item.testCase && before[j].attempt < item.attempt;
    assert RowStays(before[j], after[j]);
  }

  lemma RewrittenContracts(before: seq<Item>, after: seq<Item>)
    requires Contracts(before) && |before| == |after| && ItemsStay(before, after)
    ensures Contracts(after)
  {
    hide HasRoot;
    forall i, j | 0 <= i < j < |after| && SameCase(after[i], after[j])
      ensures after[i].attempt != after[j].attempt && SameContract(after[i], after[j])
    {
      assert RowStays(before[i], after[i]) && RowStays(before[j], after[j]);
      assert SameCase(before[i], before[j]);
    }
    forall i | 0 <= i < |after| && Live(after[i]) && after[i].attempt > 1 ensures HasRoot(after, after[i]) {
      assert RowStays(before[i], after[i]);
      RootStays(before, after, before[i]);
      SameRoot(after, before[i], after[i]);
    }
  }

  lemma SameRoot(items: seq<Item>, a: Item, b: Item)
    requires a.run == b.run && a.testCase == b.testCase && a.attempt == b.attempt
    ensures HasRoot(items, a) <==> HasRoot(items, b)
  {
  }

  lemma AppendedContract(items: seq<Item>, item: Item, k: nat)
    requires Contracts(items) && k < |items| && Live(items[k]) && SameContract(item, items[k])
    requires !AttemptExists(items, item.run, item.testCase, item.attempt)
    requires HasRoot(items, item)
    ensures Contracts(items + [item])
  {
    hide HasRoot;
    var after := items + [item];
    assert forall i :: 0 <= i < |items| ==> after[i] == items[i];
    AppendedStay(items, after);
    forall i | 0 <= i < |items| && SameCase(items[i], item)
      ensures items[i].attempt != item.attempt && SameContract(items[i], item)
    {
      assert i < k ==> SameCase(items[i], items[k]);
      assert k < i ==> SameCase(items[k], items[i]);
    }
    forall i | 0 <= i < |after| && Live(after[i]) && after[i].attempt > 1 ensures HasRoot(after, after[i]) {
      RootStays(items, after, after[i]);
    }
  }

  lemma AppendedFirsts(items: seq<Item>, after: seq<Item>)
    requires Contracts(items) && items <= after
    requires forall i :: |items| <= i < |after| ==> after[i].attempt == 1
    requires forall i, j :: 0 <= i < j < |after| && |items| <= j ==> !SameCase(after[i], after[j])
    ensures Contracts(after)
  {
    hide HasRoot;
    assert forall i :: 0 <= i < |items| ==> after[i] == items[i];
    AppendedStay(items, after);
    forall i | 0 <= i < |after| && Live(after[i]) && after[i].attempt > 1 ensures HasRoot(after, after[i]) {
      RootStays(items, after, after[i]);
    }
  }

  /** A case that has any item has its first one. */
  lemma {:induction false} RootedFirst(items: seq<Item>, i: nat)
    requires Rooted(items) && i < |items| && Live(items[i])
    requires forall k :: 0 <= k < |items| && Live(items[k]) ==> items[k].attempt >= 1
    ensures AttemptExists(items, items[i].run, items[i].testCase, 1)
    decreases items[i].attempt
  {
    if items[i].attempt > 1 {
      assert HasRoot(items, items[i]);
      var j :| 0 <= j < |items| && items[j].status.Done? && items[j].run == items[i].run &&
               items[j].testCase == items[i].testCase && items[j].attempt < items[i].attempt;
      RootedFirst(items, j);
    }
  }

  lemma {:induction false} SaveOutcomesContracts(db: Db, r: nat, token: nat, os: seq<Outcome>, maxInfra: int)
    requires Contracts(db.items) && SaveOutcomes(db, r, token, os, maxInfra).Ok?
    ensures var after := SaveOutcomes(db, r, token, os, maxInfra).value.items;
            Contracts(after) && ItemsStay(db.items, after)
  {
    hide Contracts, ItemsStay, BindingAllowed, SaveOutcome;
    if os == [] {
      StayRefl(db.items);
    } else {
      var init, o := os[..|os| - 1], os[|os| - 1];
      SaveOutcomesContracts(db, r, token, init, maxInfra);
      var mid := SaveOutcomes(db, r, token, init, maxInfra).value;
      SaveOutcomeContracts(mid, r, token, o, maxInfra);
      StayTrans(db.items, mid.items, SaveOutcome(mid, r, token, o, maxInfra).value.items);
    }
  }

  lemma SaveOutcomeContracts(db: Db, r: nat, token: nat, o: Outcome, maxInfra: int)
    requires Contracts(db.items) && SaveOutcome(db, r, token, o, maxInfra).Ok?
    ensures var after := SaveOutcome(db, r, token, o, maxInfra).value.items;
            Contracts(after) && ItemsStay(db.items, after)
  {
    hide Contracts, BindingAllowed, AttemptExists;
    var item := Finished(db.items[o.item], o);
    var items := db.items[o.item := item];
    RewrittenContracts(db.items, items);
    if Retries(o, token, maxInfra) {
      assert HasRoot(items, NextTry(item)) by { assert items[o.item] == item; }
      AppendedContract(items, NextTry(item), o.item);
    }
  }

  lemma CreateContracts(db: Db, cases: seq<ScopedCase>, left: set<nat>, analysis: Option<nat>)
    requires Sound(db) && Contracts(db.items) && CreateRun(db, cases, left, analysis).Ok?
    ensures var after := CreateRun(db, cases, left, analysis).value.items;
            Contracts(after) && ItemsStay(db.items, after)
  {
    hide Contracts, RowsOk, ScopeRows;
    var after := CreateRun(db, cases, left, analysis).value.items;
    var n := |db.items|;
    AppendedStay(db.items, after);
    forall i, j | 0 <= i < j < |after| && n <= j ensures !SameCase(after[i], after[j]) {
      assert after[j] == FirstTry(|db.runs|, cases[j - n]);
      if i < n {
        assert ItemOk(db.runs, db.items[i]);
      } else {
        assert after[i] == FirstTry(|db.runs|, cases[i - n]);
      }
    }
    AppendedFirsts(db.items, after);
  }

  lemma ScopeContracts(db: Db, r: nat, c: ScopedCase, wanted: bool)
    requires Sound(db) && Contracts(db.items) && DecideScope(db, r, c, wanted).Ok?
    ensures var after := DecideScope(db, r, c, wanted).value.items;
            Contracts(after) && ItemsStay(db.items, after)
  {
    hide Contracts, RowsOk, AttemptExists, AnyUnstarted;
    var after := DecideScope(db, r, c, wanted).value.items;
    DecideScopeStays(db, r, c, wanted);
    if |after| == |db.items| {
      RewrittenContracts(db.items, after);
    } else {
      var n := |db.items|;
      assert after == db.items + [FirstTry(r, c)];
      forall i | 0 <= i < n ensures !SameCase(after[i], after[n]) {
        if SameCase(after[i], after[n]) {
          LiveCounted(db);
          assert Rooted(db.items) by { RootedPart(db.items); }
          RootedFirst(db.items, i);
        }
      }
      AppendedFirsts(db.items, after);
    }
  }

  lemma RootedPart(items: seq<Item>)
    requires Contracts(items)
    ensures Rooted(items)
  {
  }

  lemma LiveCounted(db: Db)
    requires Sound(db)
    ensures forall k :: 0 <= k < |db.items| && Live(db.items[k]) ==> db.items[k].attempt >= 1
  {
    forall k | 0 <= k < |db.items| && Live(db.items[k]) ensures db.items[k].attempt >= 1 {
      assert ItemOk(db.runs, db.items[k]);
    }
  }

  lemma RequeueContracts(db: Db, source: nat, artifact: nat, now: int)
    requires Sound(db) && Contracts(db.items) && RequeueRun(db, source, artifact, now).Ok?
    ensures var after := RequeueRun(db, source, artifact, now).value.items;
            Contracts(after) && ItemsStay(db.items, after)
  {
    hide Contracts, MaxAttempt, RowOk, Keeps, AlignedAt;
    RequeueKeeps(db, source, artifact, now);
    var after := RequeueRun(db, source, artifact, now).value;
    var item := after.items[|db.items|];
    forall i | 0 <= i < |db.items| && Live(db.items[i]) && db.items[i].run == item.run ensures db.items[i].attempt < item.attempt {
      MaxAttemptReaches(db.items, item.run, i);
    }
    AppendedStay(db.items, after.items);
    assert HasRoot(db.items, item) by { assert db.items[source].status.Done?; }
    AppendedContract(db.items, item, source);
  }

  lemma ReviewContracts(db: Db, id: nat, approve: bool, now: int)
    requires Sound(db) && Contracts(db.items) && Review(db, id, approve, now).Ok?
    ensures var after := Review(db, id, approve, now).value.items;
            Contracts(after) && ItemsStay(db.items, after)
  {
    hide Sound, RequeueRun, AutoQueued, DecideJobs, FirstAwaiting, Contracts, ItemsStay;
    var decided := db.(artifacts := db.artifacts[id := db.artifacts[id].(approval := if approve then Approved else Rejected)],
                       jobs := DecideJobs(db.jobs, id, approve));
    SoundParts(db, decided);
    StayRefl(db.items);
    var job := FirstAwaiting(db.jobs, id);
    if approve && job.Some? {
      RequeueContracts(decided, db.jobs[job.value].item, id, now);
    }
  }

  lemma OutsideContracts(cfg: Config, db: Db, e: Event)
    requires Sound(db) && Contracts(db.items)
    ensures Contracts(Outside(cfg, db, e).items) && ItemsStay(db.items, Outside(cfg, db, e).items)
  {
    hide Sound, Contracts, ItemsStay, CreateRun, DecideScope, Reclassify, Review, RequestRepair;
    StayRefl(db.items);
    match e
    case Create(cases, left, analysis) =>
      if CreateRun(db, cases, left, analysis).Ok? { CreateContracts(db, cases, left, analysis); }
    case Scope(r, c, wanted) =>
      if DecideScope(db, r, c, wanted).Ok? { ScopeContracts(db, r, c, wanted); }
    case Correct(i, verdict) =>
      if Reclassify(db, i, verdict).Ok? { ReclassifyContracts(db, i, verdict); }
    case Decide(id, approve, now) =>
      if Review(db, id, approve, now).Ok? { ReviewContracts(db, id, approve, now); }
    case AskRepair(i, now) =>
      if RequestRepair(db, i, cfg.maxRepairs, now).Ok? { RequestRepairItems(db, i, cfg.maxRepairs, now); }
    case _ =>
  }

  lemma RequestRepairItems(db: Db, i: nat, maxRepairs: int, now: int)
    requires RequestRepair(db, i, maxRepairs, now).Ok?
    ensures var after := RequestRepair(db, i, maxRepairs, now).value.0;
            after == db.(jobs := after.jobs)
  {
  }

  lemma ReclassifyContracts(db: Db, i: nat, verdict: Verdict)
    requires Contracts(db.items) && Reclassify(db, i, verdict).Ok?
    ensures var after := Reclassify(db, i, verdict).value.items;
            Contracts(after) && ItemsStay(db.items, after)
  {
    hide Contracts;
    RewrittenContracts(db.items, Reclassify(db, i, verdict).value.items);
  }

  lemma WorkerContracts(cfg: Config, s: Sys, e: Event)
    requires Contracts(s.db.items) && ByWorker(e)
    ensures Contracts(WorkerStep(cfg, s, e).db.items) && ItemsStay(s.db.items, WorkerStep(cfg, s, e).db.items)
  {
    hide Contracts, ItemsStay, SaveOutcomes, Claimable;
    StayRefl(s.db.items);
    if e.SaveAll? && e.w < |s.workers| && s.workers[e.w].Processing? {
      var r, token := s.workers[e.w].run, s.workers[e.w].token;
      if SaveOutcomes(s.db, r, token, e.outcomes, cfg.maxInfra).Ok? {
        SaveOutcomesContracts(s.db, r, token, e.outcomes, cfg.maxInfra);
      }
    }
  }

  /** Every step keeps the items' key and contracts, and changes no existing row's contract. */
  lemma StepContracts(cfg: Config, s: Sys, e: Event)
    requires Inv(s) && Contracts(s.db.items)
    ensures Contracts(Step(cfg, s, e).db.items) && ItemsStay(s.db.items, Step(cfg, s, e).db.items)
  {
    hide Contracts, ItemsStay, Outside, WorkerStep, RepairerStep, Sound, WorkersOk, SavesOk, Exclusive;
    StayRefl(s.db.items);
    if ByRepairer(e) {
      RepairerKeepsRuns(cfg, s, e);
    } else if ByWorker(e) {
      WorkerContracts(cfg, s, e);
    } else {
      OutsideContracts(cfg, s.db, e);
    }
  }

  /** Along any run of the system: retries and approved repairs copy the expected result, however long the chain. */
  lemma {:induction false} ContractsForever(cfg: Config, s: Sys, before: seq<Event>, events: seq<Event>)
    requires Initial(s)
    ensures var early := Play(cfg, s, before).db.items; var late := Play(cfg, s, before + events).db.items;
            Contracts(late) && ItemsStay(early, late)
  {
    hide Contracts, ItemsStay, Inv, Step;
    var all := before + events;
    if events == [] {
      assert all == before;
      StayRefl(Play(cfg, s, before).db.items);
      if before == [] {
        NoItems();
      } else {
        ContractsForever(cfg, s, before[..|before| - 1], [before[|before| - 1]]);
        assert before[..|before| - 1] + [before[|before| - 1]] == before;
      }
    } else {
      var init := before + events[..|events| - 1];
      assert all[..|all| - 1] == init && all[|all| - 1] == events[|events| - 1];
      ContractsForever(cfg, s, before, events[..|events| - 1]);
      Reachable(cfg, s, init);
      StepContracts(cfg, Play(cfg, s, init), all[|all| - 1]);
      StayTrans(Play(cfg, s, before).db.items, Play(cfg, s, init).db.items, Play(cfg, s, all).db.items);
    }
  }

  lemma NoItems()
    ensures Contracts([])
  {
  }

  // ---- a holder never loses its claim ----

  /** The run a worker holds is running at the worker's attempt: renewals and the release cannot fail. */
  lemma HolderKeepsLease(cfg: Config, s: Sys, w: nat, now: int)
    requires Inv(s) && w < |s.workers| && !s.workers[w].Idle? && Holds(s.workers[w], s.workers[w].run)
    ensures var r, token := s.workers[w].run, s.workers[w].token;
            && HeldAt(s.db, r, token)
            && RenewRun(s.db, r, token, now, cfg.lease).Ok?
            && RetryOrFail(s.db, r, token, cfg.maxRunAttempts, now, cfg.delay).Ok?
            && (forall v :: 0 <= v < |s.workers| && v != w ==> !Holds(s.workers[v], r))
  {
    hide Sound;
    OneWorker(s, w);
    RunningIsCounted(s.db, s.workers[w].run);
  }

  /** The outcomes a worker may report: its own attempt's items, each once, with a legal artifact binding. */
  predicate Reportable(db: Db, r: nat, token: nat, os: seq<Outcome>) {
    && (forall o :: o in os ==> o.item < |db.items| && InAttempt(db.items[o.item], r, token))
    && (forall o :: o in os ==> o.item < |db.items| && BindingAllowed(db, db.items[o.item], o))
    && (forall k, l :: 0 <= k < l < |os| ==> os[k].item != os[l].item)
  }

  lemma {:induction false} ReportableSaves(db: Db, r: nat, token: nat, os: seq<Outcome>, maxInfra: int)
    requires ItemsOk(db) && KeyUnique(db.items) && HeldAt(db, r, token) && Reportable(db, r, token, os)
    ensures SaveOutcomes(db, r, token, os, maxInfra).Ok?
  {
    hide BindingAllowed, Written, Targets, ItemsOk, KeyUnique, AttemptExists, SaveOutcome;
    if os != [] {
      var init, o := os[..|os| - 1], os[|os| - 1];
      assert o in os;
      forall x | x in init ensures x in os {}
      ReportableSaves(db, r, token, init, maxInfra);
      SaveOutcomesExact(db, r, token, init, maxInfra);
      var mid := SaveOutcomes(db, r, token, init, maxInfra).value;
      forall k | 0 <= k < |init| ensures init[k].item != o.item { assert init[k] == os[k]; }
      OneMoreSaves(db, mid, r, token, init, o, maxInfra);
    }
  }

  lemma OneMoreSaves(db: Db, mid: Db, r: nat, token: nat, init: seq<Outcome>, o: Outcome, maxInfra: int)
    requires ItemsOk(db) && KeyUnique(db.items) && HeldAt(db, r, token)
    requires mid == db.(items := mid.items) && Targets(db.items, init, r, token) && Written(db.items, mid.items, init, token, maxInfra)
    requires o.item < |db.items| && InAttempt(db.items[o.item], r, token) && BindingAllowed(db, db.items[o.item], o)
    requires forall k :: 0 <= k < |init| ==> init[k].item != o.item
    ensures SaveOutcome(mid, r, token, o, maxInfra).Ok?
  {
    hide NextTry, Clones, AttemptExists, KeyUnique;
    assert mid.items[o.item] == db.items[o.item];
    assert ItemOk(db.runs, db.items[o.item]);
    assert BindingAllowed(mid, mid.items[o.item], o);
    NoCloneYet(db, mid.items, r, token, init, o, maxInfra);
    RewriteHidesNothing(mid.items, o, r, db.items[o.item].testCase, token + 1);
  }

  lemma RewriteHidesNothing(items: seq<Item>, o: Outcome, r: nat, testCase: nat, attempt: nat)
    requires o.item < |items| && Live(items[o.item]) && !AttemptExists(items, r, testCase, attempt)
    ensures !AttemptExists(items[o.item := Finished(items[o.item], o)], r, testCase, attempt)
  {
  }

  lemma NoCloneYet(db: Db, items: seq<Item>, r: nat, token: nat, init: seq<Outcome>, o: Outcome, maxInfra: int)
    requires ItemsOk(db) && KeyUnique(db.items) && HeldAt(db, r, token)
    requires Targets(db.items, init, r, token) && Written(db.items, items, init, token, maxInfra)
    requires o.item < |db.items| && InAttempt(db.items[o.item], r, token)
    requires forall k :: 0 <= k < |init| ==> init[k].item != o.item
    ensures !AttemptExists(items, r, db.items[o.item].testCase, token + 1)
  {
    hide NextTry, Retries, Clones;
    var n, c := |db.items|, db.items[o.item].testCase;
    ClonesCases(db.items, init, r, token, maxInfra);
    WrittenItems(db.items, items, init, r, token, maxInfra);
    forall i | 0 <= i < |items| ensures !(Live(items[i]) && items[i].run == r && items[i].testCase == c && items[i].attempt == token + 1) {
      if i < n {
        assert ItemOk(db.runs, db.items[i]);
        assert SameContract(items[i], db.items[i]);
      } else {
        assert items[i] == items[n..][i - n];
        var k :| 0 <= k < |init| && items[i].testCase == db.items[init[k].item].testCase;
        assert items[i].testCase != c;
      }
    }
  }

  lemma {:induction false} ClonesCases(items: seq<Item>, os: seq<Outcome>, r: nat, token: nat, maxInfra: int)
    requires Targets(items, os, r, token)
    ensures forall c :: c in Clones(items, os, token, maxInfra) ==>
              exists k :: 0 <= k < |os| && c.testCase == items[os[k].item].testCase
  {
    hide Retries;
    if os != [] {
      var init, o := os[..|os| - 1], os[|os| - 1];
      ClonesCases(items, init, r, token, maxInfra);
      forall c | c in Clones(items, os, token, maxInfra)
        ensures exists k :: 0 <= k < |os| && c.testCase == items[os[k].item].testCase
      {
        if c in Clones(items, init, token, maxInfra) {
          var k :| 0 <= k < |init| && c.testCase == items[init[k].item].testCase;
          assert init[k] == os[k];
        } else {
          assert c.testCase == items[os[|os| - 1].item].testCase;
        }
      }
    }
  }

  /** A holder's save commits exactly when it reports at least one outcome and every one is reportable. */
  lemma HolderSavesIff(db: Db, r: nat, token: nat, os: seq<Outcome>, maxInfra: int, now: int, delay: nat)
    requires Sound(db) && Contracts(db.items) && HeldAt(db, r, token)
    ensures Save(db, r, token, os, maxInfra, now, delay).Ok? <==> os != [] && Reportable(db, r, token, os)
  {
    hide SaveOutcomes, RowsOk, BindingAllowed, OneContract, Rooted;
    if os != [] && Reportable(db, r, token, os) {
      ReportableSaves(db, r, token, os, maxInfra);
      SaveOutcomesExact(db, r, token, os, maxInfra);
    }
    if Save(db, r, token, os, maxInfra, now, delay).Ok? {
      SaveOutcomesExact(db, r, token, os, maxInfra);
      SavedBindings(db, r, token, os, maxInfra);
      assert forall o :: o in os ==> o.item < |db.items|;
    }
  }

  lemma {:induction false} SavedBindings(db: Db, r: nat, token: nat, os: seq<Outcome>, maxInfra: int)
    requires SaveOutcomes(db, r, token, os, maxInfra).Ok?
    ensures forall o :: o in os ==> o.item < |db.items| && BindingAllowed(db, db.items[o.item], o)
  {
    hide BindingAllowed, Targets, Written, AttemptExists;
    if os != [] {
      var init, o := os[..|os| - 1], os[|os| - 1];
      SavedBindings(db, r, token, init, maxInfra);
      SaveOutcomesExact(db, r, token, init, maxInfra);
      TargetsInRange(db.items, init, r, token);
      var mid := SaveOutcomes(db, r, token, init, maxInfra).value;
      FreshTarget(db.items, mid.items, init, o, r, token, maxInfra);
      BindingReadsArtifacts(db, mid, db.items[o.item], o);
      assert forall x :: x in os ==> x in init || x == o;
    }
  }

  lemma BindingReadsArtifacts(db: Db, mid: Db, item: Item, o: Outcome)
    requires mid.artifacts == db.artifacts
    ensures BindingAllowed(mid, item, o) == BindingAllowed(db, item, o)
  {
  }

  /** No attempt is ever saved twice: the commits of one run carry strictly increasing attempt numbers. */
  lemma SavesAdvance(cfg: Config, s: Sys, events: seq<Event>, k: nat, l: nat)
    requires Initial(s)
    requires k < l < |Play(cfg, s, events).saves|
    requires Play(cfg, s, events).saves[k].0 == Play(cfg, s, events).saves[l].0
    ensures Play(cfg, s, events).saves[k].1 < Play(cfg, s, events).saves[l].1
  {
    hide Step;
    Reachable(cfg, s, events);
  }

  /**
   * Attempt numbers are reused: the claim after a release carries the same number as the claim released, so a renewal
   * the first worker left in flight would extend the second worker's lease. Waiting for the renewals to end before
   * giving a claim back is what rules this out.
   */
  lemma TokensAreReused(db: Db, r: nat, maxAttempts: int, t1: int, t2: int, t3: int, t4: int, lease: nat, delay: nat)
    requires Claimable(db, r, t1) && db.runs[r].attemptCount + 1 < maxAttempts
    ensures var token := db.runs[r].attemptCount + 1;
            var back := RetryOrFail(ClaimRun(db, r, t1, lease), r, token, maxAttempts, t2, delay);
            && back.Ok? && (t3 >= t2 + delay <==> Claimable(back.value, r, t3))
            && RenewRun(ClaimRun(back.value, r, t3, lease), r, token, t4, lease).Ok?
  {
  }
}
