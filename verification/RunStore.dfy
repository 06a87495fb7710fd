/** The transactions as the program runs them: statement by statement, with rollback. */
module RunStore {
  import opened Results
  import opened Text
  import opened RunModel
  import opened RunInvariants
  import opened RunWorkers

  function ErrorOf<T>(result: Result<T>): Option<Failure> {
    if result.Ok? then None else Some(result.error)
  }

  /** Who asks for a repair, and the limits set for it. */
  predicate RepairRequestOk(requester: string, maxOutput: int, maxCost: int) {
    TrimSpace(requester) != "" && 100 <= maxOutput <= 10000 && maxCost >= 0
  }

  function CasesOf(cases: seq<ScopedCase>): set<nat> {
    set c | c in cases :: c.testCase
  }

  function LeftRows(r: nat, left: set<nat>): map<(nat, nat), bool> {
    map t | t in left :: (r, t) := false
  }

  function TakenRows(r: nat, taken: set<nat>): map<(nat, nat), bool> {
    map t | t in taken :: (r, t) := true
  }

  lemma NothingTaken(r: nat, scope: map<(nat, nat), bool>, cases: seq<ScopedCase>)
    ensures scope == scope + TakenRows(r, CasesOf(cases[..0]))
  {
    assert CasesOf([]) == {} && TakenRows(r, {}) == map[];
  }

  lemma OneMoreRow(r: nat, scope: map<(nat, nat), bool>, taken: set<nat>, t: nat)
    ensures (scope + TakenRows(r, taken))[(r, t) := true] == scope + TakenRows(r, taken + {t})
  {
    var a, b := (scope + TakenRows(r, taken))[(r, t) := true], scope + TakenRows(r, taken + {t});
    assert a.Keys == b.Keys;
  }

  lemma CreatedIs(start: Db, cases: seq<ScopedCase>, left: set<nat>, analysis: Option<nat>, after: Db)
    requires cases != [] && forall i, j :: 0 <= i < j < |cases| ==> cases[i].testCase != cases[j].testCase
    requires var r := |start.runs|; var n := |start.items|;
             && after == start.(runs := start.runs + [Run(Pending, 0, false, 0, None, analysis)], items := after.items, scope := after.scope)
             && after.scope == start.scope + LeftRows(r, left) + TakenRows(r, CasesOf(cases))
             && |after.items| == n + |cases| && after.items[..n] == start.items
             && forall k :: 0 <= k < |cases| ==> after.items[n + k] == FirstTry(r, cases[k])
    ensures RunModel.CreateRun(start, cases, left, analysis) == Ok(after)
  {
    var made := RunModel.CreateRun(start, cases, left, analysis).value;
    assert made.items == after.items;
    ScopeIs(|start.runs|, CasesOf(cases), left, start.scope);
  }

  lemma ScopeIs(r: nat, included: set<nat>, left: set<nat>, scope: map<(nat, nat), bool>)
    ensures scope + ScopeRows(r, included, left) == scope + LeftRows(r, left) + TakenRows(r, included)
  {
    var a, b := scope + ScopeRows(r, included, left), scope + LeftRows(r, left) + TakenRows(r, included);
    assert a.Keys == b.Keys;
    forall x | x in a ensures a[x] == b[x] {
    }
  }

  lemma OneMoreCase(cases: seq<ScopedCase>, i: nat)
    requires i < |cases|
    ensures CasesOf(cases[..i + 1]) == CasesOf(cases[..i]) + {cases[i].testCase}
  {
    assert cases[..i + 1] == cases[..i] + [cases[i]];
  }

  class Store {
    var runs: seq<Run>
    var items: seq<Item>
    var artifacts: seq<Artifact>
    var jobs: seq<Job>
    var scope: map<(nat, nat), bool>

    function View(): Db reads this { Db(runs, items, artifacts, jobs, scope) }

    method Rollback(db: Db)
      modifies this
      ensures View() == db
    {
      runs, items, artifacts, jobs, scope := db.runs, db.items, db.artifacts, db.jobs, db.scope;
    }

    /** The run, then for every case of the release its scope row and, if it is included, its first item; all or nothing. */
    method CreateRun(cases: seq<ScopedCase>, left: set<nat>, analysis: Option<nat>) returns (error: Option<Failure>)
      modifies this
      ensures View() == Or(old(View()), RunModel.CreateRun(old(View()), cases, left, analysis))
      ensures error == ErrorOf(RunModel.CreateRun(old(View()), cases, left, analysis))
    {
      hide CasesOf, ScopeRows;
      if |cases| == 0 {
        return Some(NotFound);
      }
      var start := View();
      var r := |runs|;
      runs := runs + [Run(Pending, 0, false, 0, None, analysis)];
      LeaveOut(r, left);
      var repeated := TakeIn(r, cases);
      if repeated {
        Rollback(start);
        return Some(ConstraintViolated);
      }
      CreatedIs(start, cases, left, analysis, View());
      error := None;
    }

    method LeaveOut(r: nat, left: set<nat>)
      modifies this`scope
      ensures scope == old(scope) + LeftRows(r, left)
    {
      var todo := left;
      while todo != {}
        invariant todo <= left && scope == old(scope) + LeftRows(r, left - todo)
      {
        var t :| t in todo;
        todo := todo - {t};
        scope := scope[(r, t) := false];
      }
      assert left - todo == left;
    }

    method TakeIn(r: nat, cases: seq<ScopedCase>) returns (repeated: bool)
      modifies this`scope, this`items
      ensures repeated <==> exists i, j :: 0 <= i < j < |cases| && cases[i].testCase == cases[j].testCase
      ensures !repeated ==> scope == old(scope) + TakenRows(r, CasesOf(cases))
      ensures !repeated ==> |items| == |old(items)| + |cases| && items[..|old(items)|] == old(items) &&
                            forall k :: 0 <= k < |cases| ==> items[|old(items)| + k] == FirstTry(r, cases[k])
    {
      hide CasesOf, TakenRows;
      var i := 0;
      NothingTaken(r, scope, cases);
      while i < |cases|
        invariant 0 <= i <= |cases|
        invariant |items| == |old(items)| + i && items[..|old(items)|] == old(items)
        invariant forall k :: 0 <= k < i ==> items[|old(items)| + k] == FirstTry(r, cases[k])
        invariant scope == old(scope) + TakenRows(r, CasesOf(cases[..i]))
        invariant forall k, l :: 0 <= k < l < i ==> cases[k].testCase != cases[l].testCase
      {
        if exists k :: 0 <= k < i && cases[k].testCase == cases[i].testCase {
          return true;
        }
        OneMoreCase(cases, i);
        OneMoreRow(r, old(scope), CasesOf(cases[..i]), cases[i].testCase);
        items := items + [Item(r, cases[i].testCase, None, "", 1, NotRun, cases[i].snapshot, cases[i].expectedHash)];
        scope := scope[(r, cases[i].testCase) := true];
        i := i + 1;
      }
      assert cases[..|cases|] == cases;
      repeated := false;
    }

    /** Request: a pending run is queued at once; any other is refused. */
    method RequestRun(r: nat, requester: string, now: int) returns (error: Option<Failure>)
      modifies this`runs
      ensures TrimSpace(requester) == "" ==> error == Some(InvalidInput) && View() == old(View())
      ensures TrimSpace(requester) != "" ==>
                View() == Or(old(View()), Request(old(View()), r, now)) && error == ErrorOf(Request(old(View()), r, now))
    {
      hide TrimSpace;
      if TrimSpace(requester) == "" {
        return Some(InvalidInput);
      }
      if r >= |runs| {
        return Some(NotFound);
      }
      if runs[r].status != Pending {
        return Some(NotRequestable);
      }
      runs := runs[r := runs[r].(requested := true, nextAttemptAt := now)];
      error := None;
    }

    /** ReviewClassification: a finished item of a run that is not being executed. */
    method ReviewClassification(i: nat, verdict: Verdict, reviewer: string, reason: string) returns (error: Option<Failure>)
      modifies this`items
      ensures TrimSpace(reviewer) == "" || TrimSpace(reason) == "" ==> error == Some(InvalidInput) && View() == old(View())
      ensures TrimSpace(reviewer) != "" && TrimSpace(reason) != "" ==>
                View() == Or(old(View()), Reclassify(old(View()), i, verdict)) && error == ErrorOf(Reclassify(old(View()), i, verdict))
    {
      hide TrimSpace;
      if TrimSpace(reviewer) == "" || TrimSpace(reason) == "" {
        return Some(InvalidInput);
      }
      if i >= |items| || items[i].status == NotRun || items[i].status == Removed || items[i].run >= |runs| ||
         runs[items[i].run].status == Running {
        return Some(NotFound);
      }
      items := items[i := items[i].(status := Done(verdict))];
      error := None;
    }

    /** SaveArtifact: a generated test is stored as a draft; its hash column holds a digest, its assertions no NUL. */
    method SaveArtifact(artifact: Artifact) returns (error: Option<Failure>)
      modifies this`artifacts
      ensures View() == Or(old(View()), AddDraft(old(View()), artifact))
      ensures error == ErrorOf(AddDraft(old(View()), artifact))
    {
      if artifact.sourceHash == "" {
        return Some(ConstraintViolated);
      }
      var i := 0;
      while i < |artifact.assertions|
        invariant 0 <= i <= |artifact.assertions| && forall k :: 0 <= k < i ==> NUL !in artifact.assertions[k]
      {
        if NUL in artifact.assertions[i] {
          assert artifact.assertions[i] in artifact.assertions;
          return Some(ConstraintViolated);
        }
        i := i + 1;
      }
      artifacts := artifacts + [artifact.(approval := Draft)];
      error := None;
    }

    /** Claims some run that is ready and not locked by another session, if there is one. */
    method ClaimNext(locked: set<nat>, now: int, lease: nat) returns (claimed: Option<nat>)
      modifies this
      ensures claimed.Some? ==> claimed.value !in locked && Claimable(old(View()), claimed.value, now) &&
                                View() == ClaimRun(old(View()), claimed.value, now, lease)
      ensures claimed.None? ==> View() == old(View()) && forall r :: r !in locked ==> !Claimable(View(), r, now)
    {
      var r := 0;
      while r < |runs|
        invariant 0 <= r <= |runs| && View() == old(View())
        invariant forall k :: 0 <= k < r && k !in locked ==> !Claimable(View(), k, now)
      {
        if r !in locked && runs[r].status == Pending && runs[r].requested && runs[r].nextAttemptAt <= now &&
           (runs[r].lease == None || runs[r].lease.value <= now) {
          var run := runs[r];
          runs := runs[r := run.(status := Running, attemptCount := run.attemptCount + 1, lease := Some(now + lease))];
          return Some(r);
        }
        r := r + 1;
      }
      claimed := None;
    }

    /** The items a worker gets for its claim; a run without items is an error the worker reports. */
    method LoadAttempt(r: nat, token: nat) returns (loaded: Result<seq<nat>>)
      ensures loaded.Ok? <==> HasAttempt(items, r, token)
      ensures loaded.Ok? ==> forall i :: i in loaded.value <==> 0 <= i < |items| && InAttempt(items[i], r, token)
      ensures loaded.Ok? ==> forall k, l :: 0 <= k < l < |loaded.value| ==> loaded.value[k] < loaded.value[l]
    {
      var found: seq<nat> := [];
      var i := 0;
      while i < |items|
        invariant 0 <= i <= |items|
        invariant forall k :: k in found <==> 0 <= k < i && InAttempt(items[k], r, token)
        invariant forall k, l :: 0 <= k < l < |found| ==> found[k] < found[l]
        invariant forall k :: 0 <= k < |found| ==> found[k] < i
      {
        if items[i].run == r && items[i].attempt == token && items[i].status != Removed {
          found := found + [i];
        }
        i := i + 1;
      }
      if found == [] {
        return Err(InvalidInput);
      }
      assert found[0] in found;
      loaded := Ok(found);
    }

    /** One UPDATE of an item, guarded by run, attempt and status, with its trigger. */
    method UpdateItem(r: nat, token: nat, o: Outcome) returns (error: Option<Failure>)
      modifies this`items
      ensures error == None <==> (o.item < |old(items)| && InAttempt(old(items)[o.item], r, token) &&
                                  old(items)[o.item].status == NotRun && BindingAllowed(old(View()), old(items)[o.item], o))
      ensures error == None ==> items == old(items)[o.item := Finished(old(items)[o.item], o)]
      ensures error != None ==> items == old(items)
      ensures error != None ==>
                (error.value == if o.item < |items| && InAttempt(items[o.item], r, token) && items[o.item].status == NotRun
                                then ConstraintViolated else LeaseLost)
    {
      if o.item >= |items| || items[o.item].run != r || items[o.item].attempt != token || items[o.item].status != NotRun {
        return Some(LeaseLost);
      }
      var item := items[o.item];
      var allowed := BindingTrigger(item, o.artifact, o.sourceHash);
      if !allowed {
        return Some(ConstraintViolated);
      }
      items := items[o.item := item.(artifact := o.artifact, sourceHash := o.sourceHash, status := Done(o.verdict))];
      error := None;
    }

    /** The pairing check and the trigger: a binding is new and approved, or the one that is there. */
    method BindingTrigger(item: Item, artifact: Option<nat>, sourceHash: string) returns (allowed: bool)
      ensures forall item', verdict :: allowed == BindingAllowed(View(), item, Outcome(item', artifact, sourceHash, verdict))
    {
      if (artifact == None) != (sourceHash == "") {
        return false;
      }
      if artifact == item.artifact && sourceHash == item.sourceHash {
        return true;
      }
      if item.artifact != None || item.sourceHash != "" || artifact == None || artifact.value >= |artifacts| {
        return false;
      }
      var a := artifacts[artifact.value];
      return a.testCase == item.testCase && a.approval == Approved && a.sourceHash == sourceHash &&
             a.expectedHash == item.expectedHash;
    }

    /** The INSERT that queues the next try of an item. */
    method InsertNextTry(i: nat) returns (error: Option<Failure>)
      requires i < |items|
      modifies this`items
      ensures var next := NextTry(old(items)[i]);
              if AttemptExists(old(items), next.run, next.testCase, next.attempt)
              then error == Some(ConstraintViolated) && items == old(items)
              else error == None && items == old(items) + [next]
    {
      var item := items[i];
      if exists k :: 0 <= k < |items| && items[k].status != Removed && items[k].run == item.run &&
                     items[k].testCase == item.testCase && items[k].attempt == item.attempt + 1 {
        return Some(ConstraintViolated);
      }
      items := items + [Item(item.run, item.testCase, item.artifact, item.sourceHash, item.attempt + 1, NotRun,
                             item.snapshot, item.expectedHash)];
      error := None;
    }

    /** The statements for one outcome; a failure leaves the transaction to be rolled back. */
    method SaveOne(r: nat, token: nat, o: Outcome, maxInfra: int) returns (error: Option<Failure>)
      modifies this`items
      ensures error == ErrorOf(SaveOutcome(old(View()), r, token, o, maxInfra))
      ensures error == None ==> View() == SaveOutcome(old(View()), r, token, o, maxInfra).value
    {
      hide BindingAllowed, AttemptExists;
      error := UpdateItem(r, token, o);
      if error == None && o.verdict == InfraError && token < maxInfra {
        error := InsertNextTry(o.item);
      }
    }

    /** Save: the loop over the outcomes, the run's row, and the rollback on the first failure. */
    method Save(r: nat, token: nat, os: seq<Outcome>, maxInfra: int, now: int, delay: nat)
      returns (error: Option<Failure>)
      modifies this
      ensures View() == Or(old(View()), RunModel.Save(old(View()), r, token, os, maxInfra, now, delay))
      ensures error == ErrorOf(RunModel.Save(old(View()), r, token, os, maxInfra, now, delay))
    {
      hide SaveOutcomes, SaveOutcome, AnyRetry;
      if |os| == 0 {
        return Some(InvalidInput);
      }
      var start := View();
      var retry := false;
      var k := 0;
      NothingSaved(start, r, token, os, maxInfra);
      while k < |os|
        invariant 0 <= k <= |os|
        invariant SaveOutcomes(start, r, token, os[..k], maxInfra) == Ok(View())
        invariant View() == start.(items := items)
        invariant retry <==> AnyRetry(os[..k], token, maxInfra)
      {
        SaveOutcomesStep(start, View(), r, token, os, k, maxInfra);
        error := SaveOne(r, token, os[k], maxInfra);
        if error != None {
          FailsEarly(start, r, token, os, k + 1, maxInfra);
          Rollback(start);
          return error;
        }
        if os[k].verdict == InfraError && token < maxInfra {
          retry := true;
        }
        AnyRetryStep(os, k, token, maxInfra);
        k := k + 1;
      }
      assert os[..|os|] == os;
      if !HeldAt(View(), r, token) {
        Rollback(start);
        return Some(LeaseLost);
      }
      var run := runs[r];
      runs := runs[r := if retry then run.(status := Pending, nextAttemptAt := now + delay, lease := None)
                        else run.(status := Completed, lease := None)];
      error := None;
    }

    /**
     * Decide: the reviewer's name and comment, the scope row of an approved case, then the INSERT or the DELETE, which
     * must find something to delete.
     */
    method DecideScope(r: nat, c: ScopedCase, wanted: bool, reviewer: string, comment: string, approved: bool)
      returns (error: Option<Failure>)
      modifies this
      ensures TrimSpace(reviewer) == "" || TrimSpace(comment) == "" ==> error == Some(InvalidInput) && View() == old(View())
      ensures TrimSpace(reviewer) != "" && TrimSpace(comment) != "" && !approved ==> error == Some(NotFound) && View() == old(View())
      ensures TrimSpace(reviewer) != "" && TrimSpace(comment) != "" && approved ==>
                View() == Or(old(View()), RunModel.DecideScope(old(View()), r, c, wanted)) &&
                error == ErrorOf(RunModel.DecideScope(old(View()), r, c, wanted))
    {
      hide TrimSpace;
      if TrimSpace(reviewer) == "" || TrimSpace(comment) == "" {
        return Some(InvalidInput);
      }
      if !approved {
        return Some(NotFound);
      }
      if r >= |runs| || (r, c.testCase) !in scope {
        return Some(NotFound);
      }
      if scope[(r, c.testCase)] == wanted {
        return None;
      }
      if wanted {
        if !exists k :: 0 <= k < |items| && items[k].status != Removed && items[k].run == r &&
                        items[k].testCase == c.testCase && items[k].attempt == 1 {
          items := items + [Item(r, c.testCase, None, "", 1, NotRun, c.snapshot, c.expectedHash)];
        }
      } else {
        var changed := DeleteUnstarted(r, c.testCase);
        if changed == 0 {
          return Some(UnsafeChange);
        }
      }
      scope := scope[(r, c.testCase) := wanted];
      error := None;
    }

    method DeleteUnstarted(r: nat, testCase: nat) returns (changed: nat)
      modifies this`items
      ensures items == Excluded(old(items), r, testCase)
      ensures changed > 0 <==> AnyUnstarted(old(items), r, testCase)
      ensures changed == 0 ==> items == old(items)
    {
      ghost var before := items;
      changed := 0;
      var i := 0;
      while i < |items|
        invariant 0 <= i <= |items| == |before|
        invariant forall k :: 0 <= k < i ==>
                    items[k] == if Unstarted(before[k], r, testCase) then before[k].(status := Removed) else before[k]
        invariant forall k :: i <= k < |items| ==> items[k] == before[k]
        invariant changed > 0 <==> exists k :: 0 <= k < i && Unstarted(before[k], r, testCase)
      {
        if items[i].run == r && items[i].testCase == testCase && items[i].status == NotRun {
          items := items[i := items[i].(status := Removed)];
          changed := changed + 1;
        }
        i := i + 1;
      }
    }

    /** Review: the draft, its repair job, the finished run, the automatic queueing; all or nothing. */
    method Review(id: nat, approve: bool, now: int) returns (error: Option<Failure>)
      modifies this
      ensures View() == Or(old(View()), RunModel.Review(old(View()), id, approve, now))
      ensures error == ErrorOf(RunModel.Review(old(View()), id, approve, now))
    {
      hide BindingAllowed, FullyAutomated, MaxAttempt;
      if id >= |artifacts| {
        return Some(NotFound);
      }
      if artifacts[id].approval != Draft {
        return Some(AlreadyReviewed);
      }
      var start := View();
      artifacts := artifacts[id := artifacts[id].(approval := if approve then Approved else Rejected)];
      var job := FindAwaiting(id);
      var source := if job.Some? then jobs[job.value].item else 0;
      EndReviewed(id, approve);
      if approve && job.Some? {
        error := Requeue(source, id, now);
        if error != None {
          Rollback(start);
          return error;
        }
      }
      if approve {
        AutoQueueAll(artifacts[id].analysis, now);
      }
      error := None;
    }

    /** The UPDATE of the repair jobs that wait for this review. */
    method EndReviewed(id: nat, approve: bool)
      modifies this`jobs
      ensures jobs == DecideJobs(old(jobs), id, approve)
    {
      ghost var before := jobs;
      var k := 0;
      while k < |jobs|
        invariant 0 <= k <= |jobs| == |before|
        invariant forall i :: 0 <= i < k ==> jobs[i] == Decided(before[i], id, approve)
        invariant forall i :: k <= i < |jobs| ==> jobs[i] == before[i]
      {
        if jobs[k].status == WaitingReview && jobs[k].repaired == Some(id) {
          jobs := jobs[k := jobs[k].(status := if approve then JobApproved else JobRejected)];
        }
        k := k + 1;
      }
    }

    method FindAwaiting(id: nat) returns (j: Option<nat>)
      ensures j == FirstAwaiting(jobs, id)
    {
      j := None;
      var k := 0;
      while k < |jobs|
        invariant 0 <= k <= |jobs| && j == FirstAwaiting(jobs[..k], id)
      {
        assert jobs[..k + 1][..k] == jobs[..k];
        if jobs[k].status == WaitingReview && jobs[k].repaired == Some(id) {
          j := Some(k);
        }
        k := k + 1;
      }
      assert jobs[..|jobs|] == jobs;
    }

    method LargestAttempt(r: nat) returns (max: nat)
      ensures max == MaxAttempt(items, r)
    {
      max := 0;
      var i := 0;
      while i < |items|
        invariant 0 <= i <= |items| && max == MaxAttempt(items[..i], r)
      {
        assert items[..i + 1][..i] == items[..i];
        if items[i].run == r && items[i].status != Removed && items[i].attempt > max {
          max := items[i].attempt;
        }
        i := i + 1;
      }
      assert items[..|items|] == items;
    }

    /** The three statements that put a repaired item back into its finished run. */
    method Requeue(source: nat, artifact: nat, now: int) returns (error: Option<Failure>)
      modifies this`runs, this`items
      ensures error == ErrorOf(RequeueRun(old(View()), source, artifact, now))
      ensures error == None ==> View() == RequeueRun(old(View()), source, artifact, now).value
    {
      if source >= |items| || items[source].status != Done(AutomationError) || items[source].run >= |runs| {
        return Some(RepairNotEligible);
      }
      var s := items[source];
      if runs[s.run].status != Completed && runs[s.run].status != Failed {
        return Some(RepairNotEligible);
      }
      var max := LargestAttempt(s.run);
      var next := max + 1;
      if artifact >= |artifacts| || artifacts[artifact].approval != Approved ||
         artifacts[artifact].testCase != s.testCase || artifacts[artifact].expectedHash != s.expectedHash {
        return Some(RepairNotEligible);
      }
      if artifacts[artifact].sourceHash == "" {
        return Some(ConstraintViolated);
      }
      items := items + [Item(s.run, s.testCase, Some(artifact), artifacts[artifact].sourceHash, next, NotRun,
                             s.snapshot, s.expectedHash)];
      runs := runs[s.run := runs[s.run].(status := Pending, attemptCount := next - 1, requested := true,
                                         nextAttemptAt := now, lease := None)];
      error := None;
    }

    method AutoQueueAll(analysis: Option<nat>, now: int)
      modifies this`runs
      ensures View() == AutoQueue(old(View()), analysis, now)
    {
      hide FullyAutomated;
      ghost var start := View();
      var r := 0;
      while r < |runs|
        invariant 0 <= r <= |runs| == |start.runs|
        invariant forall k :: 0 <= k < r ==> runs[k] == AutoQueued(start, k, analysis, now)
        invariant forall k :: r <= k < |runs| ==> runs[k] == start.runs[k]
      {
        AutoQueuedLocal(start, View(), r, analysis, now);
        if runs[r].status == Pending && analysis != None && runs[r].analysis == analysis {
          var manual := HasManualCase(r);
          if !manual {
            runs := runs[r := runs[r].(requested := true, nextAttemptAt := now)];
          }
        }
        r := r + 1;
      }
      assert runs == AutoQueue(start, analysis, now).runs;
    }

    /** Some first try of the run is of a case without an approved artifact made for the run's analysis. */
    method HasManualCase(r: nat) returns (manual: bool)
      requires r < |runs|
      ensures manual <==> !FullyAutomated(View(), r)
    {
      manual := false;
      var i := 0;
      while i < |items|
        invariant 0 <= i <= |items|
        invariant forall k :: 0 <= k < i && InAttempt(items[k], r, 1) ==>
                    exists a :: 0 <= a < |artifacts| && artifacts[a].testCase == items[k].testCase &&
                                artifacts[a].analysis == runs[r].analysis && artifacts[a].approval == Approved
      {
        if items[i].run == r && items[i].attempt == 1 && items[i].status != Removed {
          var found := false;
          var a := 0;
          while a < |artifacts|
            invariant 0 <= a <= |artifacts|
            invariant found <==> exists k :: 0 <= k < a && artifacts[k].testCase == items[i].testCase &&
                                             artifacts[k].analysis == runs[r].analysis && artifacts[k].approval == Approved
          {
            if artifacts[a].testCase == items[i].testCase && artifacts[a].analysis == runs[r].analysis &&
               artifacts[a].approval == Approved {
              found := true;
            }
            a := a + 1;
          }
          if !found {
            return true;
          }
        }
        i := i + 1;
      }
    }

    /** RequestRepair: the request's own limits, eligibility, the job that is already active, the limit, the new job. */
    method RequestRepair(i: nat, requester: string, maxRepairs: int, maxOutput: int, maxCost: int, now: int)
      returns (job: Result<nat>)
      modifies this`jobs
      ensures !RepairRequestOk(requester, maxOutput, maxCost) ==> job == Err(InvalidInput) && View() == old(View())
      ensures RepairRequestOk(requester, maxOutput, maxCost) ==>
                var result := RunModel.RequestRepair(old(View()), i, maxRepairs, now);
                if result.Ok? then View() == result.value.0 && job == Ok(result.value.1)
                else View() == old(View()) && job == Err(result.error)
    {
      hide TrimSpace;
      if TrimSpace(requester) == "" || maxRepairs < 1 || maxRepairs > 3 || maxOutput < 100 || maxOutput > 10000 || maxCost < 0 {
        return Err(InvalidInput);
      }
      if i >= |items| || items[i].status == Removed || items[i].run >= |runs| || items[i].artifact == None || items[i].artifact.value >= |artifacts| ||
         artifacts[items[i].artifact.value].testCase != items[i].testCase ||
         artifacts[items[i].artifact.value].approval != Approved {
        return Err(NotFound);
      }
      var item := items[i];
      var source := artifacts[item.artifact.value];
      if item.status != Done(AutomationError) || source.expectedHash != item.expectedHash {
        return Err(RepairNotEligible);
      }
      var active, max := ScanGroup((item.run, item.testCase));
      if active.Some? {
        return Ok(active.value);
      }
      if max + 1 > maxRepairs {
        return Err(RepairLimit);
      }
      jobs := jobs + [Job(i, item.artifact.value, None, max + 1, Queued, 0, now, None,
                          item.expectedHash, source.sourceHash, source.assertions)];
      job := Ok(|jobs| - 1);
    }

    method ScanGroup(key: (nat, nat)) returns (active: Option<nat>, max: nat)
      ensures active == ActiveJob(View(), key) && max == MaxJobAttempt(items, jobs, key)
    {
      active, max := None, 0;
      var k := 0;
      while k < |jobs|
        invariant 0 <= k <= |jobs|
        invariant active == ActiveJob(View().(jobs := jobs[..k]), key) && max == MaxJobAttempt(items, jobs[..k], key)
      {
        assert jobs[..k + 1][..k] == jobs[..k] && jobs[..k + 1][k] == jobs[k];
        var owner := if jobs[k].item < |items| then (items[jobs[k].item].run, items[jobs[k].item].testCase) else (0, 0);
        if owner == key {
          if jobs[k].status == Queued || jobs[k].status == Repairing || jobs[k].status == WaitingReview {
            active := Some(k);
          }
          if jobs[k].attempt > max {
            max := jobs[k].attempt;
          }
        }
        k := k + 1;
      }
      assert jobs[..|jobs|] == jobs;
    }

    /** LoadRepairSubject: the claim, and everything the job pinned, still as it was. */
    method LoadRepairSubject(j: nat, token: nat) returns (subject: Result<Artifact>)
      ensures subject == RunModel.LoadRepairSubject(View(), j, token)
    {
      if j >= |jobs| || jobs[j].status != Repairing || jobs[j].queueAttempts != token ||
         jobs[j].item >= |items| || jobs[j].source >= |artifacts| {
        return Err(RepairLeaseLost);
      }
      var item, source := items[jobs[j].item], artifacts[jobs[j].source];
      if item.status != Done(AutomationError) || item.expectedHash != jobs[j].expectedHash ||
         source.sourceHash != jobs[j].beforeHash || source.expectedHash != jobs[j].expectedHash {
        return Err(RepairLeaseLost);
      }
      subject := Ok(source);
    }

    method RenewRepairLease(j: nat, token: nat, now: int, lease: nat) returns (error: Option<Failure>)
      modifies this`jobs
      ensures View() == Or(old(View()), RenewRepair(old(View()), j, token, now, lease))
      ensures error == ErrorOf(RenewRepair(old(View()), j, token, now, lease))
    {
      if j >= |jobs| || jobs[j].status != Repairing || jobs[j].queueAttempts != token {
        return Some(RepairLeaseLost);
      }
      jobs := jobs[j := jobs[j].(lease := Some(now + lease))];
      error := None;
    }

    /** CompleteRepair: the draft is inserted first and disappears again if the claim turns out to be lost. */
    method CompleteRepair(j: nat, token: nat, subject: Artifact, afterHash: string, assertions: seq<string>)
      returns (error: Option<Failure>)
      modifies this
      ensures View() == Or(old(View()), RunModel.CompleteRepair(old(View()), j, token, subject, afterHash, assertions))
      ensures error == ErrorOf(RunModel.CompleteRepair(old(View()), j, token, subject, afterHash, assertions))
    {
      if !Storable(assertions) {
        return Some(ConstraintViolated);
      }
      var start := View();
      artifacts := artifacts + [Artifact(subject.testCase, afterHash, subject.expectedHash, Draft, assertions, subject.analysis)];
      if j >= |jobs| || jobs[j].status != Repairing || jobs[j].queueAttempts != token {
        Rollback(start);
        return Some(RepairLeaseLost);
      }
      jobs := jobs[j := jobs[j].(status := WaitingReview, repaired := Some(|artifacts| - 1), lease := None)];
      error := None;
    }

    /** Claims some repair job that is queued, due and not locked by another session, if there is one. */
    method ClaimNextRepair(locked: set<nat>, now: int, lease: nat) returns (claimed: Option<nat>)
      modifies this`jobs
      ensures claimed.Some? ==> claimed.value !in locked && RepairClaimable(old(View()), claimed.value, now) &&
                                View() == ClaimRepair(old(View()), claimed.value, now, lease)
      ensures claimed.None? ==> View() == old(View()) && forall j :: j !in locked ==> !RepairClaimable(View(), j, now)
    {
      var j := 0;
      while j < |jobs|
        invariant 0 <= j <= |jobs| && View() == old(View())
        invariant forall k :: 0 <= k < j && k !in locked ==> !RepairClaimable(View(), k, now)
      {
        if j !in locked && jobs[j].status == Queued && jobs[j].nextAttemptAt <= now &&
           (jobs[j].lease == None || jobs[j].lease.value <= now) {
          var job := jobs[j];
          jobs := jobs[j := job.(status := Repairing, queueAttempts := job.queueAttempts + 1, lease := Some(now + lease))];
          return Some(j);
        }
        j := j + 1;
      }
      claimed := None;
    }

    /** A repair that cannot be made ends its job; one that failed on the way goes back to the queue within the limit. */
    method EndRepair(j: nat, token: nat, unrepairable: bool, maxQueue: int, now: int, delay: nat) returns (error: Option<Failure>)
      modifies this`jobs
      ensures var result := if unrepairable then MarkUnrepairable(old(View()), j, token)
                            else RetryOrFailRepair(old(View()), j, token, maxQueue, now, delay);
              View() == Or(old(View()), result) && error == ErrorOf(result)
    {
      if j >= |jobs| || jobs[j].status != Repairing || jobs[j].queueAttempts != token {
        return Some(RepairLeaseLost);
      }
      var job := jobs[j];
      if unrepairable {
        jobs := jobs[j := job.(status := Unrepairable, lease := None)];
      } else if job.queueAttempts < maxQueue {
        jobs := jobs[j := job.(status := Queued, nextAttemptAt := now + delay, lease := None)];
      } else {
        jobs := jobs[j := job.(status := JobFailed, lease := None)];
      }
      error := None;
    }

    /** The guarded UPDATE that gives a claim back. */
    method RetryOrFail(r: nat, token: nat, maxAttempts: int, now: int, delay: nat) returns (error: Option<Failure>)
      modifies this`runs
      ensures View() == Or(old(View()), RunModel.RetryOrFail(old(View()), r, token, maxAttempts, now, delay))
      ensures error == ErrorOf(RunModel.RetryOrFail(old(View()), r, token, maxAttempts, now, delay))
    {
      if r >= |runs| || runs[r].status != Running || runs[r].attemptCount != token {
        return Some(LeaseLost);
      }
      var run := runs[r];
      if run.attemptCount >= maxAttempts {
        runs := runs[r := run.(status := Failed, lease := None)];
      } else if run.attemptCount == 0 {
        return Some(ConstraintViolated);
      } else {
        runs := runs[r := run.(status := Pending, attemptCount := run.attemptCount - 1,
                               nextAttemptAt := now + delay, lease := None)];
      }
      error := None;
    }

    method RenewLease(r: nat, token: nat, now: int, lease: nat) returns (error: Option<Failure>)
      modifies this`runs
      ensures View() == Or(old(View()), RenewRun(old(View()), r, token, now, lease))
      ensures error == ErrorOf(RenewRun(old(View()), r, token, now, lease))
    {
      if r >= |runs| || runs[r].status != Running || runs[r].attemptCount != token {
        return Some(LeaseLost);
      }
      runs := runs[r := runs[r].(lease := Some(now + lease))];
      error := None;
    }

    /**
     * runOnce: claim, process while renewing, wait for the renewals, then give the claim back if processing failed.
     * report is what the processor makes of the attempt (None when it fails before saving), ticks the renewal times,
     * reached whether the release gets through to the database in time.
     */
    method RunOnce(cfg: Config, locked: set<nat>, report: Option<seq<Outcome>>, ticks: seq<int>, reached: bool, now: int)
      returns (claimed: Option<nat>, saved: bool)
      requires Sound(View())
      modifies this
      ensures Sound(View())
      ensures claimed.None? ==> View() == old(View()) && !saved
      ensures claimed.Some? ==>
                var r := claimed.value;
                && Claimable(old(View()), r, now) && |runs| == |old(runs)|
                && (runs[r].status == Running <==> !saved && !reached)
                && (forall k :: 0 <= k < |runs| && k != r ==> runs[k] == old(runs)[k])
                && (saved <==> (report.Some? &&
                      RunModel.Save(ClaimRun(old(View()), r, now, cfg.lease), r, old(runs)[r].attemptCount + 1, report.value,
                                    cfg.maxInfra, now, cfg.delay).Ok?))
                && (!saved ==> items == old(items) && Top(runs[r]) == Top(old(runs)[r]))
    {
      hide Sound, Keeps, RunModel.Save, SavedItems, FinishedAttempt, RunModel.RetryOrFail;
      saved := false;
      claimed := ClaimNext(locked, now, cfg.lease);
      if claimed.None? {
        return;
      }
      var r, token := claimed.value, runs[claimed.value].attemptCount;
      ghost var held := View();
      ClaimKeeps(old(View()), r, now, cfg.lease);
      KeepsSound(old(View()), held);
      var k := 0;
      while k < |ticks|
        invariant 0 <= k <= |ticks|
        invariant Sound(View()) && HeldAt(View(), r, token) && r < |held.runs|
        invariant View() == SetRun(held, r, held.runs[r].(lease := runs[r].lease))
      {
        ghost var before := View();
        RenewKeeps(View(), r, token, ticks[k], cfg.lease);
        var _ := RenewLease(r, token, ticks[k], cfg.lease);
        KeepsSound(before, View());
        k := k + 1;
      }
      ghost var renewed := View();
      if report.Some? {
        SaveIgnoresLease(held, r, runs[r].lease, token, report.value, cfg.maxInfra, now, cfg.delay);
        var error := Save(r, token, report.value, cfg.maxInfra, now, cfg.delay);
        if error == None {
          saved := true;
          SaveKeeps(renewed, r, token, report.value, cfg.maxInfra, now, cfg.delay);
          KeepsSound(renewed, View());
          SaveEffect(renewed, r, token, report.value, cfg.maxInfra, now, cfg.delay);
          return;
        }
      }
      if reached {
        RunningIsCounted(View(), r);
        HeldRetries(View(), r, token, cfg.maxRunAttempts, now, cfg.delay);
        RetryOrFailKeeps(View(), r, token, cfg.maxRunAttempts, now, cfg.delay);
        ghost var before := View();
        var _ := RetryOrFail(r, token, cfg.maxRunAttempts, now, cfg.delay);
        KeepsSound(before, View());
      }
    }
  }

  lemma KeepsSound(before: Db, after: Db)
    requires Keeps(before, after)
    ensures Sound(after)
  {
    hide Sound, Aligned;
  }

  lemma HeldRetries(db: Db, r: nat, token: nat, maxAttempts: int, now: int, delay: nat)
    requires HeldAt(db, r, token) && token >= 1
    ensures var result := RunModel.RetryOrFail(db, r, token, maxAttempts, now, delay);
            && result.Ok? && result.value == SetRun(db, r, result.value.runs[r])
            && result.value.runs[r].status != Running && result.value.runs[r].lease == None
  {
  }

  /** A renewal does not influence what a save does. */
  lemma SaveIgnoresLease(db: Db, r: nat, lease: Option<int>, token: nat, os: seq<Outcome>, maxInfra: int, now: int, delay: nat)
    requires r < |db.runs|
    ensures var renewed := SetRun(db, r, db.runs[r].(lease := lease));
            RunModel.Save(renewed, r, token, os, maxInfra, now, delay) == RunModel.Save(db, r, token, os, maxInfra, now, delay)
  {
    hide SaveOutcomes, AnyRetry;
    var run := db.runs[r].(lease := lease);
    var open, done := db.runs[r].(status := Pending, nextAttemptAt := now + delay, lease := None),
                      db.runs[r].(status := Completed, lease := None);
    assert db.runs[r := run][r := open] == db.runs[r := open] && db.runs[r := run][r := done] == db.runs[r := done];
    SaveOutcomesIgnoreRuns(db, SetRun(db, r, db.runs[r].(lease := lease)).runs, r, token, os, maxInfra);
  }

  lemma {:induction false} SaveOutcomesIgnoreRuns(db: Db, runs: seq<Run>, r: nat, token: nat, os: seq<Outcome>, maxInfra: int)
    ensures var a, b := SaveOutcomes(db, r, token, os, maxInfra), SaveOutcomes(db.(runs := runs), r, token, os, maxInfra);
            && (a.Ok? <==> b.Ok?)
            && (a.Ok? ==> a.value.runs == db.runs && b.value == a.value.(runs := runs))
            && (a.Err? ==> b.error == a.error)
  {
    hide AttemptExists;
    if os != [] {
      SaveOutcomesIgnoreRuns(db, runs, r, token, os[..|os| - 1], maxInfra);
    }
  }

  lemma NothingSaved(db: Db, r: nat, token: nat, os: seq<Outcome>, maxInfra: int)
    ensures SaveOutcomes(db, r, token, os[..0], maxInfra) == Ok(db) && !AnyRetry(os[..0], token, maxInfra)
  {
  }

  lemma SaveOutcomesStep(db: Db, mid: Db, r: nat, token: nat, os: seq<Outcome>, k: nat, maxInfra: int)
    requires k < |os| && SaveOutcomes(db, r, token, os[..k], maxInfra) == Ok(mid)
    ensures SaveOutcomes(db, r, token, os[..k + 1], maxInfra) == SaveOutcome(mid, r, token, os[k], maxInfra)
  {
    assert os[..k + 1][..k] == os[..k] && os[..k + 1][k] == os[k];
  }

  lemma AnyRetryStep(os: seq<Outcome>, k: nat, token: nat, maxInfra: int)
    requires k < |os|
    ensures AnyRetry(os[..k + 1], token, maxInfra) <==> AnyRetry(os[..k], token, maxInfra) || Retries(os[k], token, maxInfra)
  {
    assert os[..k + 1] == os[..k] + [os[k]];
    assert os[k] in os[..k + 1];
  }

  /** The first failing outcome decides the fate of the whole batch. */
  lemma {:induction false} FailsEarly(db: Db, r: nat, token: nat, os: seq<Outcome>, k: nat, maxInfra: int)
    requires k <= |os| && SaveOutcomes(db, r, token, os[..k], maxInfra).Err?
    ensures SaveOutcomes(db, r, token, os, maxInfra) == SaveOutcomes(db, r, token, os[..k], maxInfra)
  {
    hide SaveOutcome;
    if k < |os| {
      assert os[..|os| - 1][..k] == os[..k];
      FailsEarly(db, r, token, os[..|os| - 1], k, maxInfra);
    } else {
      assert os[..k] == os;
    }
  }

  lemma AutoQueuedLocal(db: Db, other: Db, r: nat, analysis: Option<nat>, now: int)
    requires r < |db.runs| == |other.runs| && other == db.(runs := other.runs) && other.runs[r] == db.runs[r]
    ensures AutoQueued(db, r, analysis, now) == AutoQueued(other, r, analysis, now)
  {
  }
}
