/** The queue of analyses waiting for generated tests, over one visit to GENERATING_TESTS. */
module GenerationQueue {
  import opened Results

  datatype Stage = Generating | Validating | Failed

  datatype Test = Test(recommendation: nat, filePath: string, code: string)

  /** noted says whether error_message is set. */
  datatype Job = Job(stage: Stage, attempt: nat, nextAttemptAt: int, lease: Option<int>, noted: bool, tests: seq<Test>)

  predicate Claimable(j: Job, now: int) {
    j.stage == Generating &&
    ((j.nextAttemptAt <= now && j.lease == None) || (j.lease.Some? && j.lease.value <= now))
  }

  /** The claim starts counting at 1 when neither a lease nor an error is left from before. */
  predicate Resets(j: Job) {
    j.lease == None && !j.noted
  }

  function Claimed(j: Job, now: int, lease: nat): Job {
    j.(attempt := if Resets(j) then 1 else j.attempt + 1, lease := Some(now + lease), noted := false)
  }

  predicate HeldAt(j: Job, token: nat) {
    j.stage == Generating && j.attempt == token
  }

  function Renewed(j: Job, token: nat, now: int, lease: nat): Result<Job> {
    if HeldAt(j, token) then Ok(j.(lease := Some(now + lease))) else Err(LeaseLost)
  }

  function Returned(j: Job, token: nat, maxAttempts: int, now: int, delay: nat): Result<Job> {
    if !HeldAt(j, token) then Err(LeaseLost)
    else if j.attempt < maxAttempts then Ok(j.(noted := true, nextAttemptAt := now + delay, lease := None))
    else Ok(j.(stage := Failed, noted := true, lease := None))
  }

  /** Save: every test must belong to a recommendation of this very analysis. */
  function Saved(j: Job, own: set<nat>, token: nat, tests: seq<Test>, now: int): Result<Job> {
    if exists t :: t in tests && t.recommendation !in own then Err(ConstraintViolated)
    else if !HeldAt(j, token) then Err(LeaseLost)
    else Ok(j.(stage := Validating, attempt := 0, nextAttemptAt := now, lease := None, noted := false, tests := tests))
  }

  class Repository {
    var jobs: seq<Job>

    /** Claims some job that is ready or whose lease has run out, unless another session has it locked. */
    method ClaimNext(locked: set<nat>, now: int, lease: nat) returns (id: Option<nat>)
      modifies this
      ensures id.Some? ==> id.value < |old(jobs)| && id.value !in locked && Claimable(old(jobs)[id.value], now) &&
                           jobs == old(jobs)[id.value := Claimed(old(jobs)[id.value], now, lease)]
      ensures id.Some? ==> jobs[id.value] == Step({}, Visit(old(jobs)[id.value], [], []), Claim(now, lease)).job
      ensures id.None? ==> jobs == old(jobs) &&
                           forall k :: 0 <= k < |jobs| && k !in locked ==> !Claimable(jobs[k], now)
    {
      var i := 0;
      while i < |jobs|
        invariant 0 <= i <= |jobs| && jobs == old(jobs)
        invariant forall k :: 0 <= k < i && k !in locked ==> !Claimable(jobs[k], now)
      {
        var j := jobs[i];
        if i !in locked && j.stage == Generating &&
           ((j.nextAttemptAt <= now && j.lease == None) || (j.lease != None && j.lease.value <= now)) {
          var token := if jobs[i].lease == None && !jobs[i].noted then 1 else jobs[i].attempt + 1;
          jobs := jobs[i := jobs[i].(attempt := token, lease := Some(now + lease), noted := false)];
          return Some(i);
        }
        i := i + 1;
      }
      id := None;
    }

    method RenewLease(id: nat, token: nat, now: int, lease: nat) returns (error: Option<Failure>)
      requires id < |jobs|
      modifies this
      ensures var result := Renewed(old(jobs)[id], token, now, lease);
              if result.Ok? then error == None && jobs == old(jobs)[id := result.value]
              else error == Some(result.error) && jobs == old(jobs)
      ensures jobs[id] == Step({}, Visit(old(jobs)[id], [], []), Renew(token, now, lease)).job
    {
      if jobs[id].stage != Generating || jobs[id].attempt != token {
        return Some(LeaseLost);
      }
      jobs := jobs[id := jobs[id].(lease := Some(now + lease))];
      error := None;
    }

    method RetryOrFail(id: nat, token: nat, maxAttempts: int, now: int, delay: nat) returns (error: Option<Failure>)
      requires id < |jobs|
      modifies this
      ensures var result := Returned(old(jobs)[id], token, maxAttempts, now, delay);
              if result.Ok? then error == None && jobs == old(jobs)[id := result.value]
              else error == Some(result.error) && jobs == old(jobs)
      ensures jobs[id] == Step({}, Visit(old(jobs)[id], [], []), Return(token, maxAttempts, now, delay)).job
    {
      var j := jobs[id];
      if j.stage != Generating || j.attempt != token {
        return Some(LeaseLost);
      }
      var again := j.attempt < maxAttempts;
      jobs := jobs[id := j.(stage := if again then Generating else Failed, noted := true,
                            nextAttemptAt := if again then now + delay else j.nextAttemptAt, lease := None)];
      error := None;
    }

    /** Deletes the old tests, inserts the new ones one by one, advances the job; rolls back on the first failure. */
    method Save(id: nat, own: set<nat>, token: nat, tests: seq<Test>, now: int) returns (error: Option<Failure>)
      requires id < |jobs|
      modifies this
      ensures var result := Saved(old(jobs)[id], own, token, tests, now);
              if result.Ok? then error == None && jobs == old(jobs)[id := result.value]
              else error == Some(result.error) && jobs == old(jobs)
      ensures jobs[id] == Step(own, Visit(old(jobs)[id], [], []), Event.Save(token, tests, now)).job
    {
      var start := jobs;
      jobs := jobs[id := jobs[id].(tests := [])];
      var i := 0;
      while i < |tests|
        invariant 0 <= i <= |tests|
        invariant jobs == start[id := start[id].(tests := tests[..i])]
        invariant forall k :: 0 <= k < i ==> tests[k].recommendation in own
      {
        if tests[i].recommendation !in own {
          jobs := start;
          assert tests[i] in tests;
          return Some(ConstraintViolated);
        }
        assert tests[..i] + [tests[i]] == tests[..i + 1];
        jobs := jobs[id := jobs[id].(tests := jobs[id].tests + [tests[i]])];
        i := i + 1;
      }
      assert tests[..|tests|] == tests;
      if jobs[id].stage != Generating || jobs[id].attempt != token {
        jobs := start;
        return Some(LeaseLost);
      }
      jobs := jobs[id := jobs[id].(stage := Validating, attempt := 0, nextAttemptAt := now, lease := None, noted := false)];
      error := None;
    }
  }

  // ---- one visit ----

  /** claims and commits are history only. */
  datatype Visit = Visit(job: Job, claims: seq<nat>, commits: seq<(nat, seq<Test>)>)

  datatype Event =
    | Claim(now: int, lease: nat)
    | Renew(token: nat, now: int, lease: nat)
    | Return(token: nat, maxAttempts: int, now: int, delay: nat)
    | Save(token: nat, tests: seq<Test>, now: int)

  function Put(v: Visit, r: Result<Job>): Visit {
    if r.Ok? then v.(job := r.value) else v
  }

  function Step(own: set<nat>, v: Visit, e: Event): Visit {
    match e
    case Claim(now, lease) =>
      if Claimable(v.job, now)
      then v.(job := Claimed(v.job, now, lease), claims := v.claims + [Claimed(v.job, now, lease).attempt])
      else v
    case Renew(token, now, lease) => Put(v, Renewed(v.job, token, now, lease))
    case Return(token, maxAttempts, now, delay) => Put(v, Returned(v.job, token, maxAttempts, now, delay))
    case Save(token, tests, now) =>
      var r := Saved(v.job, own, token, tests, now);
      if r.Ok? then Put(v, r).(commits := v.commits + [(token, tests)]) else v
  }

  function Play(own: set<nat>, v: Visit, events: seq<Event>): Visit {
    if events == [] then v else Step(own, Play(own, v, events[..|events| - 1]), events[|events| - 1])
  }

  /** How recommending the tests hands the job over: no lease, no error, counter at zero. */
  predicate Entered(v: Visit) {
    v.job.stage == Generating && Resets(v.job) && v.job.attempt == 0 && v.claims == [] && v.commits == []
  }

  predicate Inv(v: Visit) {
    && (forall k :: 0 <= k < |v.claims| ==> v.claims[k] == k + 1)
    && (v.job.stage == Generating ==>
          v.commits == [] && (Resets(v.job) <==> v.claims == []) && v.job.attempt == |v.claims|)
    && (v.job.stage == Failed ==> v.commits == [])
    && (v.job.stage == Validating ==>
          |v.commits| == 1 && v.commits[0] == (|v.claims|, v.job.tests) && v.claims != [])
  }

  /** A caller that was handed no token yet cannot know one; zero is never handed out. */
  predicate Legal(v: Visit, e: Event) {
    e.Claim? || e.token in v.claims
  }

  ghost predicate LegalRun(own: set<nat>, v: Visit, events: seq<Event>) {
    forall k :: 0 <= k < |events| ==> Legal(Play(own, v, events[..k]), events[k])
  }

  lemma StepKeeps(own: set<nat>, v: Visit, e: Event)
    requires Inv(v) && Legal(v, e)
    ensures Inv(Step(own, v, e))
  {
  }

  lemma {:induction false} Reachable(own: set<nat>, v: Visit, events: seq<Event>)
    requires Entered(v) && LegalRun(own, v, events)
    ensures Inv(Play(own, v, events))
  {
    hide Inv, Step;
    if events == [] {
      EnteredIsFine(v);
    } else {
      var n := |events| - 1;
      assert forall k :: 0 <= k <= n ==> events[..n][..k] == events[..k];
      Reachable(own, v, events[..n]);
      StepKeeps(own, Play(own, v, events[..n]), events[n]);
    }
  }

  lemma EnteredIsFine(v: Visit)
    requires Entered(v)
    ensures Inv(v)
  {
  }

  /** The branch that restarts the count fires on the first claim of a visit and never again. */
  lemma ResetsOnFirstClaimOnly(own: set<nat>, v: Visit, events: seq<Event>, now: int)
    requires Entered(v) && LegalRun(own, v, events) && Claimable(Play(own, v, events).job, now)
    ensures Resets(Play(own, v, events).job) <==> Play(own, v, events).claims == []
  {
    Reachable(own, v, events);
  }

  /** The tokens of a visit are 1, 2, 3, and so on, although a claim can set the counter back to 1. */
  lemma TokensCountUp(own: set<nat>, v: Visit, events: seq<Event>, k: nat)
    requires Entered(v) && LegalRun(own, v, events) && k < |Play(own, v, events).claims|
    ensures Play(own, v, events).claims[k] == k + 1
  {
    Reachable(own, v, events);
  }

  /** At most one save commits, it holds the newest token, and the job keeps exactly its tests, all recommended for it. */
  lemma OneSave(own: set<nat>, v: Visit, events: seq<Event>)
    requires Entered(v) && LegalRun(own, v, events)
    ensures var w := Play(own, v, events);
            && |w.commits| <= 1
            && (w.commits != [] <==> w.job.stage == Validating)
            && (w.commits != [] ==>
                  w.job.tests == w.commits[0].1 && w.claims != [] &&
                  w.commits[0].0 == |w.claims| == w.claims[|w.claims| - 1])
            && (w.job.stage != Validating ==> w.job.tests == v.job.tests)
            && (w.job.stage == Validating ==> forall t :: t in w.job.tests ==> t.recommendation in own)
  {
    Reachable(own, v, events);
    TestsFrom(own, v, events);
  }

  lemma {:induction false} TestsFrom(own: set<nat>, v: Visit, events: seq<Event>)
    requires v.job.stage == Generating
    ensures var w := Play(own, v, events);
            && (w.job.stage != Validating ==> w.job.tests == v.job.tests)
            && (w.job.stage == Validating ==> forall t :: t in w.job.tests ==> t.recommendation in own)
  {
    if events != [] {
      TestsFrom(own, v, events[..|events| - 1]);
    }
  }

  /** A token from before a newer claim is refused from then on, whatever happens. */
  lemma {:induction false} SupersededForever(own: set<nat>, v: Visit, earlier: seq<Event>, later: seq<Event>, token: nat)
    requires Entered(v) && LegalRun(own, v, earlier + later)
    requires token in Play(own, v, earlier).claims && token < |Play(own, v, earlier).claims|
    ensures var j := Play(own, v, earlier + later).job;
            && !HeldAt(j, token)
            && (forall now, lease :: Renewed(j, token, now, lease).Err?)
            && (forall max, now, delay :: Returned(j, token, max, now, delay).Err?)
            && (forall tests, now :: Saved(j, own, token, tests, now).Err?)
  {
    hide Step, Play;
    Reachable(own, v, earlier + later);
    ClaimsGrow(own, v, earlier, later);
  }

  lemma {:induction false} ClaimsGrow(own: set<nat>, v: Visit, earlier: seq<Event>, later: seq<Event>)
    ensures Play(own, v, earlier).claims <= Play(own, v, earlier + later).claims
  {
    if later == [] {
      assert earlier + later == earlier;
    } else {
      var n := |later| - 1;
      ClaimsGrow(own, v, earlier, later[..n]);
      assert (earlier + later)[..|earlier + later| - 1] == earlier + later[..n];
    }
  }
}
