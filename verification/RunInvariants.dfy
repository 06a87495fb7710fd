/** What every transaction keeps: attempt numbers, open items, snapshots. */
module RunInvariants {
  import opened Results
  import opened RunModel

  /** The attempt a run is at: the one it is executing, has executed, or, while pending, the next one. */
  function Top(run: Run): nat {
    if run.status == Pending then run.attemptCount + 1 else run.attemptCount
  }

  predicate Open(run: Run) {
    run.status == Pending || run.status == Running
  }

  predicate ItemOk(runs: seq<Run>, item: Item) {
    && item.run < |runs|
    && (Live(item) ==>
          && 1 <= item.attempt <= Top(runs[item.run])
          && (item.attempt == Top(runs[item.run]) && Open(runs[item.run]) ==> item.status == NotRun))
  }

  predicate RowOk(run: Run) {
    && (run.status != Running ==> run.lease == None)
    && (run.status != Pending ==> run.attemptCount >= 1)
  }

  predicate ItemsOk(db: Db) {
    forall i :: 0 <= i < |db.items| ==> ItemOk(db.runs, db.items[i])
  }

  predicate RowsOk(db: Db) {
    forall r :: 0 <= r < |db.runs| ==> RowOk(db.runs[r])
  }

  /** No item is ahead of its run, and what is to be executed next has not run. */
  predicate Sound(db: Db) {
    ItemsOk(db) && RowsOk(db)
  }

  predicate HasItems(items: seq<Item>, r: nat) {
    exists i :: 0 <= i < |items| && Live(items[i]) && items[i].run == r
  }

  predicate HasAttempt(items: seq<Item>, r: nat, attempt: nat) {
    exists i :: 0 <= i < |items| && InAttempt(items[i], r, attempt)
  }

  predicate AlignedAt(items: seq<Item>, r: nat, run: Run) {
    HasItems(items, r) ==> HasAttempt(items, r, Top(run))
  }

  /** The unstated agreement between the two files that write attempt_count: a run's row is at its largest attempt. */
  predicate Aligned(db: Db) {
    forall r :: 0 <= r < |db.runs| ==> AlignedAt(db.items, r, db.runs[r])
  }

  /** A transaction that keeps a sound database sound, and the agreement where it holds. */
  predicate Keeps(before: Db, after: Db) {
    Sound(after) && (Aligned(before) ==> Aligned(after))
  }

  /** The immutable business contract of an item. */
  predicate SameContract(a: Item, b: Item) {
    a.run == b.run && a.testCase == b.testCase && a.snapshot == b.snapshot && a.expectedHash == b.expectedHash
  }

  /** A row keeps its contract and attempt; once finished it stays finished, once removed it stays removed. */
  predicate RowStays(before: Item, after: Item) {
    && SameContract(after, before) && after.attempt == before.attempt
    && (before.status.Done? ==> after.status.Done?)
    && (Live(after) ==> Live(before))
  }

  predicate ItemsStay(before: seq<Item>, after: seq<Item>) {
    && |before| <= |after|
    && forall i :: 0 <= i < |before| ==> RowStays(before[i], after[i])
  }

  lemma StayRefl(a: seq<Item>)
    ensures ItemsStay(a, a)
  {
  }

  lemma StayTrans(a: seq<Item>, b: seq<Item>, c: seq<Item>)
    requires ItemsStay(a, b) && ItemsStay(b, c)
    ensures ItemsStay(a, c)
  {
    forall i | 0 <= i < |a| ensures RowStays(a[i], c[i]) {
      assert RowStays(a[i], b[i]) && RowStays(b[i], c[i]);
    }
  }

  lemma AppendedStay(before: seq<Item>, after: seq<Item>)
    requires before <= after
    ensures ItemsStay(before, after)
  {
  }

  // ---- steps that leave the items alone ----

  /** A run's row may change as long as it stays at its attempt, does not reopen, and drops its lease when idle. */
  predicate Calm(before: Run, after: Run) {
    && Top(after) == Top(before)
    && (Open(after) ==> Open(before))
    && (after.status != Running ==> after.lease == None)
    && (after.status != Pending ==> after.attemptCount >= 1)
  }

  lemma CalmKeeps(db: Db, after: Db)
    requires Sound(db) && after.items == db.items && |after.runs| == |db.runs|
    requires forall r :: 0 <= r < |db.runs| ==> Calm(db.runs[r], after.runs[r])
    ensures Keeps(db, after)
  {
    hide HasItems, HasAttempt;
    forall i | 0 <= i < |after.items| ensures ItemOk(after.runs, after.items[i]) {
      assert ItemOk(db.runs, db.items[i]);
      assert Calm(db.runs[db.items[i].run], after.runs[db.items[i].run]);
    }
    forall r | 0 <= r < |after.runs| ensures AlignedAt(db.items, r, db.runs[r]) ==> AlignedAt(after.items, r, after.runs[r]) {
      assert Calm(db.runs[r], after.runs[r]);
    }
  }

  lemma SameRowIsCalm(db: Db, r: nat)
    requires Sound(db) && r < |db.runs|
    ensures Calm(db.runs[r], db.runs[r])
  {
    assert RowOk(db.runs[r]);
  }

  lemma OneCalmRow(db: Db, r: nat, run: Run)
    requires Sound(db) && r < |db.runs| && Calm(db.runs[r], run)
    ensures Keeps(db, SetRun(db, r, run))
  {
    hide Sound, Calm, Keeps;
    var after := SetRun(db, r, run);
    forall k | 0 <= k < |db.runs| ensures Calm(db.runs[k], after.runs[k]) {
      SameRowIsCalm(db, k);
    }
    CalmKeeps(db, after);
  }

  lemma RequestKeeps(db: Db, r: nat, now: int)
    requires Sound(db) && Request(db, r, now).Ok?
    ensures Keeps(db, Request(db, r, now).value)
  {
    assert RowOk(db.runs[r]);
    OneCalmRow(db, r, db.runs[r].(requested := true, nextAttemptAt := now));
  }

  lemma ClaimKeeps(db: Db, r: nat, now: int, lease: nat)
    requires Sound(db) && Claimable(db, r, now)
    ensures Keeps(db, ClaimRun(db, r, now, lease))
  {
    hide Sound;
    OneCalmRow(db, r, ClaimRun(db, r, now, lease).runs[r]);
  }

  lemma RenewKeeps(db: Db, r: nat, token: nat, now: int, lease: nat)
    requires Sound(db) && RenewRun(db, r, token, now, lease).Ok?
    ensures Keeps(db, RenewRun(db, r, token, now, lease).value)
  {
    assert RowOk(db.runs[r]);
    OneCalmRow(db, r, db.runs[r].(lease := Some(now + lease)));
  }

  /** Giving a claim back lowers the counter, so the run stays at the same attempt. */
  lemma RetryOrFailKeeps(db: Db, r: nat, token: nat, maxAttempts: int, now: int, delay: nat)
    requires Sound(db) && RetryOrFail(db, r, token, maxAttempts, now, delay).Ok?
    ensures Keeps(db, RetryOrFail(db, r, token, maxAttempts, now, delay).value)
    ensures Top(RetryOrFail(db, r, token, maxAttempts, now, delay).value.runs[r]) == token
  {
    hide ItemsOk, Keeps;
    assert RowOk(db.runs[r]);
    OneCalmRow(db, r, RetryOrFail(db, r, token, maxAttempts, now, delay).value.runs[r]);
  }

  lemma AutoQueueKeeps(db: Db, analysis: Option<nat>, now: int)
    requires Sound(db)
    ensures Keeps(db, AutoQueue(db, analysis, now))
  {
    hide Sound, FullyAutomated;
    var after := AutoQueue(db, analysis, now);
    forall k | 0 <= k < |db.runs| ensures Calm(db.runs[k], after.runs[k]) {
      SameRowIsCalm(db, k);
    }
    CalmKeeps(db, after);
  }

  // ---- steps that write items ----

  lemma CreateKeeps(db: Db, cases: seq<ScopedCase>, left: set<nat>, analysis: Option<nat>)
    requires Sound(db) && CreateRun(db, cases, left, analysis).Ok?
    ensures Keeps(db, CreateRun(db, cases, left, analysis).value)
  {
    hide HasItems, HasAttempt, ScopeRows;
    var after := CreateRun(db, cases, left, analysis).value;
    var n, r := |db.items|, |db.runs|;
    forall i | 0 <= i < |after.items| ensures ItemOk(after.runs, after.items[i]) {
      if i < n {
        assert ItemOk(db.runs, db.items[i]);
      } else {
        assert after.items[i] == FirstTry(r, cases[i - n]);
      }
    }
    forall k | 0 <= k < r ensures AlignedAt(db.items, k, db.runs[k]) ==> AlignedAt(after.items, k, after.runs[k]) {
      AttemptsGrow(db.items, after.items, k, Top(db.runs[k]));
      if HasItems(after.items, k) {
        OldRunItems(db.items, after.items, k, r);
      }
    }
    NewRunItems(db, after.items, r);
  }

  lemma AttemptsGrow(before: seq<Item>, after: seq<Item>, r: nat, top: nat)
    requires before <= after
    ensures HasAttempt(before, r, top) ==> HasAttempt(after, r, top)
    ensures HasItems(before, r) ==> HasItems(after, r)
  {
    if HasAttempt(before, r, top) {
      var i :| 0 <= i < |before| && InAttempt(before[i], r, top);
      assert InAttempt(after[i], r, top);
    }
    if HasItems(before, r) {
      var i :| 0 <= i < |before| && Live(before[i]) && before[i].run == r;
      assert after[i].run == r;
    }
  }

  lemma OldRunItems(before: seq<Item>, after: seq<Item>, k: nat, r: nat)
    requires before <= after && k != r && HasItems(after, k)
    requires forall i :: |before| <= i < |after| ==> after[i].run == r
    ensures HasItems(before, k)
  {
    var i :| 0 <= i < |after| && Live(after[i]) && after[i].run == k;
    assert i < |before| && before[i].run == k;
  }

  lemma NewRunItems(db: Db, after: seq<Item>, r: nat)
    requires ItemsOk(db) && r >= |db.runs| && db.items <= after
    requires forall i :: |db.items| <= i < |after| ==> after[i].attempt == 1
    ensures HasItems(after, r) ==> HasAttempt(after, r, 1)
  {
    if HasItems(after, r) {
      var i :| 0 <= i < |after| && Live(after[i]) && after[i].run == r;
      assert i < |db.items| ==> ItemOk(db.runs, db.items[i]);
      assert InAttempt(after[i], r, 1);
    }
  }

  lemma ReclassifyKeeps(db: Db, i: nat, verdict: Verdict)
    requires Sound(db) && Reclassify(db, i, verdict).Ok?
    ensures Keeps(db, Reclassify(db, i, verdict).value)
  {
    var after := Reclassify(db, i, verdict).value;
    forall k | 0 <= k < |after.items| ensures ItemOk(after.runs, after.items[k]) {
      assert ItemOk(db.runs, db.items[k]);
      assert ItemOk(db.runs, db.items[i]);
    }
    forall k | 0 <= k < |after.runs| ensures AlignedAt(db.items, k, db.runs[k]) ==> AlignedAt(after.items, k, after.runs[k]) {
      AttemptsStay(db.items, after.items, k, Top(db.runs[k]));
    }
  }

  /** Rewriting rows without moving or removing them keeps which attempts exist. */
  lemma AttemptsStay(before: seq<Item>, after: seq<Item>, r: nat, top: nat)
    requires |before| == |after|
    requires forall i :: 0 <= i < |before| ==> after[i].run == before[i].run && after[i].attempt == before[i].attempt &&
                                               (Live(after[i]) <==> Live(before[i]))
    ensures HasItems(after, r) ==> HasItems(before, r)
    ensures HasAttempt(before, r, top) ==> HasAttempt(after, r, top)
  {
    if HasItems(after, r) {
      var i :| 0 <= i < |after| && Live(after[i]) && after[i].run == r;
      assert before[i].run == r;
    }
    if HasAttempt(before, r, top) {
      var i :| 0 <= i < |before| && InAttempt(before[i], r, top);
      assert InAttempt(after[i], r, top);
    }
  }

  // ---- Save ----

  /** The next tries a save inserts: one per retried outcome, in order. */
  function Clones(items: seq<Item>, os: seq<Outcome>, token: nat, maxInfra: int): seq<Item>
    requires forall o :: o in os ==> o.item < |items|
  {
    if os == [] then []
    else
      var o := os[|os| - 1];
      Clones(items, os[..|os| - 1], token, maxInfra) +
      if Retries(o, token, maxInfra) then [NextTry(Finished(items[o.item], o))] else []
  }

  predicate Targets(items: seq<Item>, os: seq<Outcome>, r: nat, token: nat) {
    && (forall k :: 0 <= k < |os| ==> os[k].item < |items|)
    && (forall k :: 0 <= k < |os| ==> InAttempt(items[os[k].item], r, token) && items[os[k].item].status == NotRun)
    && (forall k, l :: 0 <= k < l < |os| ==> os[k].item != os[l].item)
  }

  /** after is before with every outcome written to its own item, nothing else changed, and the clones appended. */
  predicate Written(before: seq<Item>, after: seq<Item>, os: seq<Outcome>, token: nat, maxInfra: int)
    requires forall o :: o in os ==> o.item < |before|
  {
    && |after| >= |before|
    && (forall k :: 0 <= k < |os| ==> after[os[k].item] == Finished(before[os[k].item], os[k]))
    && (forall i :: 0 <= i < |before| && (forall k :: 0 <= k < |os| ==> os[k].item != i) ==> after[i] == before[i])
    && after[|before|..] == Clones(before, os, token, maxInfra)
  }

  /** The row an outcome may still write is an old one that no earlier outcome has written. */
  lemma FreshTarget(before: seq<Item>, mid: seq<Item>, init: seq<Outcome>, o: Outcome, r: nat, token: nat, maxInfra: int)
    requires Targets(before, init, r, token)
    requires Written(before, mid, init, token, maxInfra)
    requires o.item < |mid| && InAttempt(mid[o.item], r, token) && mid[o.item].status == NotRun
    ensures o.item < |before| && mid[o.item] == before[o.item]
    ensures forall k :: 0 <= k < |init| ==> init[k].item != o.item
  {
    hide NextTry, Clones;
    ClonesAttempt(before, init, r, token, maxInfra);
    forall i | |before| <= i < |mid| ensures mid[i].attempt == token + 1 {
      assert mid[i] == mid[|before|..][i - |before|];
    }
    forall k | 0 <= k < |init| ensures init[k].item != o.item {
      assert mid[init[k].item] == Finished(before[init[k].item], init[k]);
    }
  }

  function WriteOne(items: seq<Item>, o: Outcome, token: nat, maxInfra: int): seq<Item>
    requires o.item < |items|
  {
    var item := Finished(items[o.item], o);
    items[o.item := item] + if Retries(o, token, maxInfra) then [NextTry(item)] else []
  }

  lemma WrittenStep(before: seq<Item>, mid: seq<Item>, init: seq<Outcome>, o: Outcome, token: nat, maxInfra: int)
    requires forall x :: x in init ==> x.item < |before|
    requires Written(before, mid, init, token, maxInfra)
    requires o.item < |before| && mid[o.item] == before[o.item]
    requires forall k :: 0 <= k < |init| ==> init[k].item != o.item
    ensures Written(before, WriteOne(mid, o, token, maxInfra), init + [o], token, maxInfra)
  {
    hide NextTry, Finished, Retries;
    var os, n := init + [o], |before|;
    assert os[..|os| - 1] == init && os[|os| - 1] == o;
    var after := WriteOne(mid, o, token, maxInfra);
    assert after[n..] == mid[n..] + after[|mid|..];
    assert after[n..] == Clones(before, os, token, maxInfra);
    forall k | 0 <= k < |os| ensures after[os[k].item] == Finished(before[os[k].item], os[k]) {
      if k < |init| {
        assert os[k] == init[k];
      }
    }
    forall i | 0 <= i < n && forall k :: 0 <= k < |os| ==> os[k].item != i ensures after[i] == before[i] {
      assert os[|init|].item != i;
      forall k | 0 <= k < |init| ensures init[k].item != i {
        assert os[k] == init[k];
      }
    }
  }

  lemma TargetsStep(before: seq<Item>, init: seq<Outcome>, o: Outcome, r: nat, token: nat)
    requires Targets(before, init, r, token)
    requires o.item < |before| && InAttempt(before[o.item], r, token) && before[o.item].status == NotRun
    requires forall k :: 0 <= k < |init| ==> init[k].item != o.item
    ensures Targets(before, init + [o], r, token)
  {
  }

  /** What a successful write of a batch of outcomes does, exactly. */
  lemma {:induction false} SaveOutcomesExact(db: Db, r: nat, token: nat, os: seq<Outcome>, maxInfra: int)
    requires SaveOutcomes(db, r, token, os, maxInfra).Ok?
    ensures var after := SaveOutcomes(db, r, token, os, maxInfra).value;
            && after == db.(items := after.items)
            && Targets(db.items, os, r, token)
            && Written(db.items, after.items, os, token, maxInfra)
  {
    hide BindingAllowed, AttemptExists, Targets, Written, Finished, NextTry, Retries, InAttempt;
    if os != [] {
      var init, o := os[..|os| - 1], os[|os| - 1];
      SaveOutcomesExact(db, r, token, init, maxInfra);
      var mid := SaveOutcomes(db, r, token, init, maxInfra).value;
      TargetsInRange(db.items, init, r, token);
      FreshTarget(db.items, mid.items, init, o, r, token, maxInfra);
      WrittenStep(db.items, mid.items, init, o, token, maxInfra);
      TargetsStep(db.items, init, o, r, token);
      assert os == init + [o];
      assert SaveOutcomes(db, r, token, os, maxInfra).value.items == WriteOne(mid.items, o, token, maxInfra);
    } else {
      NothingWritten(db.items, r, token, maxInfra);
    }
  }

  lemma TargetsInRange(items: seq<Item>, os: seq<Outcome>, r: nat, token: nat)
    requires Targets(items, os, r, token)
    ensures forall o :: o in os ==> o.item < |items| && InAttempt(items[o.item], r, token)
  {
  }

  lemma NothingWritten(items: seq<Item>, r: nat, token: nat, maxInfra: int)
    ensures Targets(items, [], r, token) && Written(items, items, [], token, maxInfra)
  {
    assert items[|items|..] == [];
  }

  lemma CloneContract(item: Item, o: Outcome)
    ensures SameContract(NextTry(Finished(item, o)), item)
  {
  }

  lemma {:induction false} ClonesAttempt(items: seq<Item>, os: seq<Outcome>, r: nat, token: nat, maxInfra: int)
    requires forall o :: o in os ==> o.item < |items|
    requires forall o :: o in os ==> InAttempt(items[o.item], r, token)
    ensures forall c :: c in Clones(items, os, token, maxInfra) ==>
              InAttempt(c, r, token + 1) && c.status == NotRun &&
              exists o :: o in os && SameContract(c, items[o.item])
    ensures Clones(items, os, token, maxInfra) != [] <==> AnyRetry(os, token, maxInfra)
  {
    hide Retries, SameContract;
    if os != [] {
      var init, o := os[..|os| - 1], os[|os| - 1];
      ClonesAttempt(items, init, r, token, maxInfra);
      assert os == init + [o];
      CloneContract(items[o.item], o);
    }
  }

  predicate CopiesContract(items: seq<Item>, item: Item) {
    exists k :: 0 <= k < |items| && SameContract(item, items[k])
  }

  /** What others can see of a save: the attempt's rows finished or left alone, and clones one attempt later. */
  ghost predicate SavedItems(before: seq<Item>, after: seq<Item>, r: nat, token: nat, retry: bool) {
    && |before| <= |after| && (retry <==> |after| > |before|)
    && (forall i :: 0 <= i < |before| ==> RowStays(before[i], after[i]) && (Live(before[i]) <==> Live(after[i])))
    && (forall i :: 0 <= i < |before| && !InAttempt(before[i], r, token) ==> after[i] == before[i])
    && (forall i :: |before| <= i < |after| ==>
          InAttempt(after[i], r, token + 1) && after[i].status == NotRun && CopiesContract(before, after[i]))
  }

  /** A finished row of the attempt: nothing ever removes it or starts it again. */
  predicate FinishedAttempt(items: seq<Item>, r: nat, token: nat) {
    exists i :: 0 <= i < |items| && InAttempt(items[i], r, token) && items[i].status.Done?
  }

  lemma WrittenItems(before: seq<Item>, after: seq<Item>, os: seq<Outcome>, r: nat, token: nat, maxInfra: int)
    requires Targets(before, os, r, token) && Written(before, after, os, token, maxInfra)
    ensures SavedItems(before, after, r, token, AnyRetry(os, token, maxInfra))
    ensures os != [] ==> FinishedAttempt(after, r, token)
  {
    hide NextTry, Retries, AnyRetry, Clones;
    ClonesAttempt(before, os, r, token, maxInfra);
    assert |after| == |before| + |Clones(before, os, token, maxInfra)|;
    forall i | 0 <= i < |before|
      ensures RowStays(before[i], after[i]) && (Live(before[i]) <==> Live(after[i]))
      ensures !InAttempt(before[i], r, token) ==> after[i] == before[i]
    {
      if k :| 0 <= k < |os| && os[k].item == i {
        assert after[os[k].item] == Finished(before[os[k].item], os[k]);
      }
    }
    forall i | |before| <= i < |after|
      ensures InAttempt(after[i], r, token + 1) && after[i].status == NotRun
      ensures CopiesContract(before, after[i])
    {
      var c := after[|before|..][i - |before|];
      assert c in Clones(before, os, token, maxInfra);
      var o :| o in os && SameContract(c, before[o.item]);
    }
    if os != [] {
      assert after[os[0].item] == Finished(before[os[0].item], os[0]);
      assert InAttempt(after[os[0].item], r, token) && after[os[0].item].status.Done?;
    }
  }

  lemma SaveEffect(db: Db, r: nat, token: nat, os: seq<Outcome>, maxInfra: int, now: int, delay: nat)
    requires Save(db, r, token, os, maxInfra, now, delay).Ok?
    ensures var after := Save(db, r, token, os, maxInfra, now, delay).value;
            var retry := AnyRetry(os, token, maxInfra);
            && HeldAt(db, r, token)
            && SavedItems(db.items, after.items, r, token, retry) && FinishedAttempt(after.items, r, token)
            && after == db.(items := after.items, runs := db.runs[r := after.runs[r]])
            && after.runs[r].status == (if retry then Pending else Completed)
            && after.runs[r].attemptCount == token && after.runs[r].lease == None
            && (retry ==> token < maxInfra)
            && after.runs[r].analysis == db.runs[r].analysis
  {
    hide SaveOutcomes, Targets, Written, SavedItems, FinishedAttempt;
    SaveOutcomesExact(db, r, token, os, maxInfra);
    var mid := SaveOutcomes(db, r, token, os, maxInfra).value;
    TargetsInRange(db.items, os, r, token);
    WrittenItems(db.items, mid.items, os, r, token, maxInfra);
  }

  lemma SavedItemsKeep(db: Db, items: seq<Item>, r: nat, token: nat, retry: bool, run: Run)
    requires Sound(db) && HeldAt(db, r, token) && SavedItems(db.items, items, r, token, retry)
    requires run.status == (if retry then Pending else Completed) && run.attemptCount == token && run.lease == None
    ensures Keeps(db, SetRun(db, r, run).(items := items))
  {
    hide HasItems, HasAttempt;
    var after := SetRun(db, r, run).(items := items);
    forall i | 0 <= i < |items| ensures ItemOk(after.runs, items[i]) {
      if i < |db.items| {
        assert ItemOk(db.runs, db.items[i]);
      }
    }
    assert RowOk(db.runs[r]);
    forall k | 0 <= k < |after.runs| ensures AlignedAt(db.items, k, db.runs[k]) ==> AlignedAt(items, k, after.runs[k]) {
      SavedAttempts(db.items, items, r, token, retry, k, Top(db.runs[k]));
    }
  }

  lemma SavedAttempts(before: seq<Item>, after: seq<Item>, r: nat, token: nat, retry: bool, k: nat, top: nat)
    requires SavedItems(before, after, r, token, retry)
    ensures HasAttempt(before, k, top) ==> HasAttempt(after, k, top)
    ensures HasItems(after, k) ==> HasItems(before, k) || (retry && k == r)
    ensures retry ==> HasAttempt(after, r, token + 1)
  {
    if HasAttempt(before, k, top) {
      var i :| 0 <= i < |before| && InAttempt(before[i], k, top);
      assert InAttempt(after[i], k, top);
    }
    if HasItems(after, k) && !(retry && k == r) {
      var i :| 0 <= i < |after| && Live(after[i]) && after[i].run == k;
      assert i < |before| && before[i].run == k;
    }
    if retry {
      assert InAttempt(after[|before|], r, token + 1);
    }
  }

  lemma SaveKeeps(db: Db, r: nat, token: nat, os: seq<Outcome>, maxInfra: int, now: int, delay: nat)
    requires Sound(db) && Save(db, r, token, os, maxInfra, now, delay).Ok?
    ensures Keeps(db, Save(db, r, token, os, maxInfra, now, delay).value)
  {
    hide Sound, SavedItems, Save, Keeps;
    SaveEffect(db, r, token, os, maxInfra, now, delay);
    var after := Save(db, r, token, os, maxInfra, now, delay).value;
    SavedItemsKeep(db, after.items, r, token, AnyRetry(os, token, maxInfra), after.runs[r]);
    assert after == SetRun(db, r, after.runs[r]).(items := after.items);
  }

  // ---- what a save does, outcome by outcome ----

  /** The outcomes that ended in an infrastructure error, in order. */
  function InfraErrors(os: seq<Outcome>): seq<Outcome> {
    if os == [] then []
    else InfraErrors(os[..|os| - 1]) + if os[|os| - 1].verdict == InfraError then [os[|os| - 1]] else []
  }

  /** The item once more, one attempt later, bound as the outcome says and with its expected result. */
  predicate TriedAgain(again: Item, item: Item, o: Outcome) {
    && again.run == item.run && again.testCase == item.testCase && again.attempt == item.attempt + 1 && again.status == NotRun
    && again.snapshot == item.snapshot && again.expectedHash == item.expectedHash
    && again.artifact == o.artifact && again.sourceHash == o.sourceHash
  }

  /** The item with the outcome's verdict and binding, and otherwise as it was. */
  predicate Reported(now: Item, item: Item, o: Outcome) {
    && now.status == Done(o.verdict) && now.artifact == o.artifact && now.sourceHash == o.sourceHash
    && now.run == item.run && now.testCase == item.testCase && now.attempt == item.attempt
    && now.snapshot == item.snapshot && now.expectedHash == item.expectedHash
  }

  /**
   * What a save does. Every outcome is written to its own item of the attempt. Exactly the infrastructure errors, and
   * they only below the limit, get a next try each, in order; if there is one the run is queued again, after the delay,
   * and otherwise it is completed.
   */
  lemma SavedExactly(db: Db, r: nat, token: nat, os: seq<Outcome>, maxInfra: int, now: int, delay: nat)
    requires Save(db, r, token, os, maxInfra, now, delay).Ok?
    ensures r < |db.runs| && forall k :: 0 <= k < |os| ==> os[k].item < |db.items|
    ensures forall k :: 0 <= k < |InfraErrors(os)| ==> InfraErrors(os)[k].item < |db.items|
    ensures var after := Save(db, r, token, os, maxInfra, now, delay).value; var n := |db.items|;
            var again := if token < maxInfra then InfraErrors(os) else [];
            && |after.items| == n + |again|
            && (forall k :: 0 <= k < |os| ==> Reported(after.items[os[k].item], db.items[os[k].item], os[k]))
            && (forall i :: 0 <= i < n && (forall k :: 0 <= k < |os| ==> os[k].item != i) ==> after.items[i] == db.items[i])
            && (forall k :: 0 <= k < |again| ==> TriedAgain(after.items[n + k], db.items[again[k].item], again[k]))
            && after.runs == db.runs[r := if again != [] then db.runs[r].(status := Pending, nextAttemptAt := now + delay, lease := None)
                                          else db.runs[r].(status := Completed, lease := None)]
            && after == db.(items := after.items, runs := after.runs)
    ensures forall k :: 0 <= k < |os| ==>
              var item := db.items[os[k].item]; item.run == r && item.attempt == token && item.status == NotRun
  {
    hide SaveOutcomes, Written, Clones, Retries, AnyRetry, NextTry, Finished;
    SaveOutcomesExact(db, r, token, os, maxInfra);
    var mid := SaveOutcomes(db, r, token, os, maxInfra).value;
    ErrorsAreOutcomes(os);
    WrittenReports(db.items, mid.items, os, token, maxInfra);
    ClonesAreErrors(db.items, os, token, maxInfra);
    RetryIsError(os, token, maxInfra);
    var n := |db.items|;
    var clones := Clones(db.items, os, token, maxInfra);
    forall k | 0 <= k < |clones| ensures mid.items[n + k] == clones[k] {
      assert mid.items[n..][k] == clones[k];
    }
  }

  lemma {:induction false} ErrorsAreOutcomes(os: seq<Outcome>)
    ensures forall o :: o in InfraErrors(os) ==> o in os
  {
    if os != [] {
      ErrorsAreOutcomes(os[..|os| - 1]);
    }
  }

  lemma WrittenReports(before: seq<Item>, after: seq<Item>, os: seq<Outcome>, token: nat, maxInfra: int)
    requires forall o :: o in os ==> o.item < |before|
    requires Written(before, after, os, token, maxInfra)
    ensures |after| >= |before| && after[|before|..] == Clones(before, os, token, maxInfra)
    ensures forall k :: 0 <= k < |os| ==> Reported(after[os[k].item], before[os[k].item], os[k])
    ensures forall i :: 0 <= i < |before| && (forall k :: 0 <= k < |os| ==> os[k].item != i) ==> after[i] == before[i]
  {
    hide Clones;
    forall k | 0 <= k < |os| ensures Reported(after[os[k].item], before[os[k].item], os[k]) {
      assert after[os[k].item] == Finished(before[os[k].item], os[k]);
    }
  }

  lemma {:induction false} ClonesAreErrors(items: seq<Item>, os: seq<Outcome>, token: nat, maxInfra: int)
    requires forall o :: o in os ==> o.item < |items|
    ensures forall o :: o in InfraErrors(os) ==> o.item < |items|
    ensures var clones := Clones(items, os, token, maxInfra); var again := if token < maxInfra then InfraErrors(os) else [];
            |clones| == |again| && forall k :: 0 <= k < |again| ==> TriedAgain(clones[k], items[again[k].item], again[k])
  {
    hide TriedAgain, NextTry, Finished;
    ErrorsAreOutcomes(os);
    if os != [] {
      ClonesAreErrors(items, os[..|os| - 1], token, maxInfra);
      CloneIsTry(items[os[|os| - 1].item], os[|os| - 1]);
    }
  }

  lemma CloneIsTry(item: Item, o: Outcome)
    ensures TriedAgain(NextTry(Finished(item, o)), item, o)
  {
  }

  lemma {:induction false} RetryIsError(os: seq<Outcome>, token: nat, maxInfra: int)
    ensures AnyRetry(os, token, maxInfra) <==> token < maxInfra && InfraErrors(os) != []
  {
    if os != [] {
      var init, o := os[..|os| - 1], os[|os| - 1];
      RetryIsError(init, token, maxInfra);
      assert os == init + [o];
      assert AnyRetry(os, token, maxInfra) <==> AnyRetry(init, token, maxInfra) || Retries(o, token, maxInfra);
    }
  }

  // ---- Review ----

  /** The largest attempt is an upper bound, and there is an item at it. */
  lemma MaxAttemptIs(items: seq<Item>, r: nat, top: nat)
    requires forall i :: 0 <= i < |items| && Live(items[i]) && items[i].run == r ==> items[i].attempt <= top
    requires HasAttempt(items, r, top)
    ensures MaxAttempt(items, r) == top
  {
    MaxAttemptBound(items, r, top);
    var i :| 0 <= i < |items| && InAttempt(items[i], r, top);
    MaxAttemptReaches(items, r, i);
  }

  lemma {:induction false} MaxAttemptBound(items: seq<Item>, r: nat, top: nat)
    requires forall i :: 0 <= i < |items| && Live(items[i]) && items[i].run == r ==> items[i].attempt <= top
    ensures MaxAttempt(items, r) <= top
  {
    if items != [] {
      MaxAttemptBound(items[..|items| - 1], r, top);
    }
  }

  lemma {:induction false} MaxAttemptReaches(items: seq<Item>, r: nat, i: nat)
    requires i < |items| && Live(items[i]) && items[i].run == r
    ensures items[i].attempt <= MaxAttempt(items, r)
  {
    if i < |items| - 1 {
      MaxAttemptReaches(items[..|items| - 1], r, i);
    }
  }

  /** Where the agreement holds, the largest attempt of a run that has items is the attempt its row is at. */
  lemma TopIsMax(db: Db, r: nat)
    requires Sound(db) && r < |db.runs| && HasItems(db.items, r)
    ensures MaxAttempt(db.items, r) <= Top(db.runs[r])
    ensures AlignedAt(db.items, r, db.runs[r]) <==> MaxAttempt(db.items, r) == Top(db.runs[r])
  {
    forall i | 0 <= i < |db.items| && Live(db.items[i]) && db.items[i].run == r ensures db.items[i].attempt <= Top(db.runs[r]) {
      assert ItemOk(db.runs, db.items[i]);
    }
    MaxAttemptBound(db.items, r, Top(db.runs[r]));
    if AlignedAt(db.items, r, db.runs[r]) {
      MaxAttemptIs(db.items, r, Top(db.runs[r]));
    } else {
      MaxAttemptFound(db.items, r);
    }
  }

  lemma MaxAttemptFound(items: seq<Item>, r: nat)
    requires HasItems(items, r)
    requires forall i :: 0 <= i < |items| && Live(items[i]) ==> items[i].attempt >= 1
    ensures HasAttempt(items, r, MaxAttempt(items, r))
  {
    var i :| 0 <= i < |items| && Live(items[i]) && items[i].run == r;
    MaxAttemptReaches(items, r, i);
    MaxAttemptWitness(items, r);
  }

  lemma {:induction false} MaxAttemptWitness(items: seq<Item>, r: nat)
    ensures MaxAttempt(items, r) > 0 ==> HasAttempt(items, r, MaxAttempt(items, r))
  {
    if items != [] {
      var n := |items| - 1;
      var init := items[..n];
      MaxAttemptWitness(init, r);
      AttemptsGrow(init, items, r, MaxAttempt(init, r));
      if Live(items[n]) && items[n].run == r {
        LatestAdded(items, n, r);
      }
    }
  }

  /** Re-queuing: the new item is one past the largest attempt, and the row is put just before it. */
  lemma RequeueKeeps(db: Db, source: nat, artifact: nat, now: int)
    requires Sound(db) && RequeueRun(db, source, artifact, now).Ok?
    ensures source < |db.items|
    ensures var after := RequeueRun(db, source, artifact, now).value; var r := db.items[source].run;
            && Keeps(db, after)
            && r < |db.runs| && after.runs[r].attemptCount == MaxAttempt(db.items, r) <= db.runs[r].attemptCount
            && (AlignedAt(db.items, r, db.runs[r]) <==> after.runs[r].attemptCount == db.runs[r].attemptCount)
            && after.items == db.items + [after.items[|db.items|]]
            && SameContract(after.items[|db.items|], db.items[source])
            && after.items[|db.items|].attempt == MaxAttempt(db.items, r) + 1
            && after.items[|db.items|].status == NotRun
  {
    hide MaxAttempt, HasItems, HasAttempt;
    var after := RequeueRun(db, source, artifact, now).value;
    var r := db.items[source].run;
    assert HasItems(db.items, r) by { OwnRun(db.items, source); }
    TopIsMax(db, r);
    MaxAttemptReaches(db.items, r, source);
    assert ItemOk(db.runs, db.items[source]) && RowOk(db.runs[r]);
    var n := |db.items|;
    forall i | 0 <= i < |after.items| ensures ItemOk(after.runs, after.items[i]) {
      if i < n {
        assert ItemOk(db.runs, db.items[i]);
        if Live(db.items[i]) && db.items[i].run == r {
          MaxAttemptReaches(db.items, r, i);
        }
      }
    }
    forall k | 0 <= k < |after.runs| ensures AlignedAt(db.items, k, db.runs[k]) ==> AlignedAt(after.items, k, after.runs[k]) {
      AttemptsGrow(db.items, after.items, k, Top(db.runs[k]));
      if k == r {
        LatestAdded(after.items, n, r);
      } else if HasItems(after.items, k) {
        OldRunItems(db.items, after.items, k, r);
      }
    }
  }

  lemma OwnRun(items: seq<Item>, i: nat)
    requires i < |items| && Live(items[i])
    ensures HasItems(items, items[i].run)
  {
  }

  lemma LatestAdded(items: seq<Item>, i: nat, r: nat)
    requires i < |items| && Live(items[i]) && items[i].run == r
    ensures HasAttempt(items, r, items[i].attempt)
  {
    assert InAttempt(items[i], r, items[i].attempt);
  }

  lemma SoundIgnores(db: Db, after: Db)
    requires Sound(db) && after.runs == db.runs && after.items == db.items
    ensures Keeps(db, after)
  {
    hide ItemOk, RowOk, AlignedAt;
  }

  lemma ReviewKeeps(db: Db, id: nat, approve: bool, now: int)
    requires Sound(db) && Review(db, id, approve, now).Ok?
    ensures Keeps(db, Review(db, id, approve, now).value)
  {
    hide Sound, Aligned, RequeueRun, AutoQueue, DecideJobs, FirstAwaiting;
    var decided := db.(artifacts := db.artifacts[id := db.artifacts[id].(approval := if approve then Approved else Rejected)],
                       jobs := DecideJobs(db.jobs, id, approve));
    SoundIgnores(db, decided);
    if approve {
      var job := FirstAwaiting(db.jobs, id);
      var analysis := decided.artifacts[id].analysis;
      if job.None? {
        AutoQueueKeeps(decided, analysis, now);
      } else {
        RequeueKeeps(decided, db.jobs[job.value].item, id, now);
        AutoQueueKeeps(RequeueRun(decided, db.jobs[job.value].item, id, now).value, analysis, now);
      }
    }
  }

  // ---- scope decisions ----

  /** The decision is about a run and case on record, and it changes the case's place. */
  predicate Changes(db: Db, r: nat, testCase: nat, wanted: bool) {
    r < |db.runs| && (r, testCase) in db.scope && db.scope[(r, testCase)] != wanted
  }

  /** The run keeps an item at its attempt without the case's unstarted items. */
  predicate KeepsTop(items: seq<Item>, r: nat, top: nat, testCase: nat) {
    exists i :: 0 <= i < |items| && InAttempt(items[i], r, top) && !Unstarted(items[i], r, testCase)
  }

  /** The run has no items but the case's unstarted ones. */
  predicate OnlyUnstarted(items: seq<Item>, r: nat, testCase: nat) {
    forall i :: 0 <= i < |items| && Live(items[i]) && items[i].run == r ==> Unstarted(items[i], r, testCase)
  }

  /**
   * What a reviewer would have to check first for the agreement. Excluding keeps it if an item of the run's attempt
   * stays, or no item at all; including keeps it if the case is still there, the run has items, or it is at its first
   * attempt. Whether the run then has something to execute is another question: see RunStock.Empties.
   */
  predicate ScopeAgrees(db: Db, r: nat, testCase: nat, wanted: bool) {
    Changes(db, r, testCase, wanted) ==>
      var top := Top(db.runs[r]);
      if wanted then AttemptExists(db.items, r, testCase, 1) || HasItems(db.items, r) || top == 1
      else AnyUnstarted(db.items, r, testCase) ==>
             KeepsTop(db.items, r, top, testCase) || OnlyUnstarted(db.items, r, testCase)
  }

  lemma ExcludeSound(db: Db, r: nat, testCase: nat)
    requires Sound(db)
    ensures Sound(db.(items := Excluded(db.items, r, testCase)))
  {
    var after := Excluded(db.items, r, testCase);
    forall i | 0 <= i < |after| ensures ItemOk(db.runs, after[i]) {
      assert ItemOk(db.runs, db.items[i]);
    }
  }

  lemma IncludeSound(db: Db, r: nat, c: ScopedCase)
    requires Sound(db) && r < |db.runs|
    ensures Sound(db.(items := Included(db.items, r, c)))
  {
    hide AttemptExists;
    var after := Included(db.items, r, c);
    assert RowOk(db.runs[r]);
    forall i | 0 <= i < |after| ensures ItemOk(db.runs, after[i]) {
      if i < |db.items| {
        assert ItemOk(db.runs, db.items[i]);
      }
    }
  }

  /** No decision ever breaks soundness. */
  lemma DecideScopeSound(db: Db, r: nat, c: ScopedCase, wanted: bool)
    requires Sound(db) && DecideScope(db, r, c, wanted).Ok?
    ensures Sound(DecideScope(db, r, c, wanted).value)
  {
    hide Sound, Excluded, Included, AnyUnstarted;
    ExcludeSound(db, r, c.testCase);
    if r < |db.runs| {
      IncludeSound(db, r, c);
    }
    assert forall items, scope :: Sound(db.(items := items)) ==> Sound(db.(items := items, scope := scope)) by {
      ScopeIgnored(db);
    }
  }

  lemma ScopeIgnored(db: Db)
    ensures forall items, scope :: Sound(db.(items := items)) ==> Sound(db.(items := items, scope := scope))
  {
    hide ItemOk, RowOk;
  }

  lemma ExcludedAttempts(items: seq<Item>, r: nat, testCase: nat, top: nat)
    ensures var after := Excluded(items, r, testCase);
            && (HasAttempt(after, r, top) <==> KeepsTop(items, r, top, testCase))
            && (!HasItems(after, r) <==> OnlyUnstarted(items, r, testCase))
  {
    var after := Excluded(items, r, testCase);
    if HasAttempt(after, r, top) {
      var i :| 0 <= i < |after| && InAttempt(after[i], r, top);
      assert InAttempt(items[i], r, top) && !Unstarted(items[i], r, testCase);
    }
    if KeepsTop(items, r, top, testCase) {
      var i :| 0 <= i < |items| && InAttempt(items[i], r, top) && !Unstarted(items[i], r, testCase);
      assert InAttempt(after[i], r, top);
    }
    if HasItems(after, r) {
      var i :| 0 <= i < |after| && Live(after[i]) && after[i].run == r;
      assert Live(items[i]) && items[i].run == r && !Unstarted(items[i], r, testCase);
    }
    if !OnlyUnstarted(items, r, testCase) {
      var i :| 0 <= i < |items| && Live(items[i]) && items[i].run == r && !Unstarted(items[i], r, testCase);
      assert Live(after[i]) && after[i].run == r;
    }
  }

  /** A decision removes or adds rows that have not run, and touches no other. */
  lemma DecideScopeStays(db: Db, r: nat, c: ScopedCase, wanted: bool)
    requires DecideScope(db, r, c, wanted).Ok?
    ensures var after := DecideScope(db, r, c, wanted).value;
            ItemsStay(db.items, after.items) && after == db.(items := after.items, scope := after.scope)
  {
    hide AnyUnstarted, AttemptExists;
  }

  /** A decision about run r concerns no other run. */
  lemma OtherRunsAligned(before: seq<Item>, after: seq<Item>, r: nat, k: nat, run: Run)
    requires |before| <= |after| && k != r
    requires forall i :: 0 <= i < |before| && before[i].run != r ==> after[i] == before[i]
    requires forall i :: 0 <= i < |after| && (i < |before| ==> before[i].run == r) ==> after[i].run == r
    ensures AlignedAt(before, k, run) <==> AlignedAt(after, k, run)
  {
    assert forall i :: 0 <= i < |after| && after[i].run == k ==> i < |before| && before[i] == after[i];
    assert forall i :: 0 <= i < |before| && before[i].run == k ==> after[i] == before[i];
  }

  lemma IncludedAttempts(items: seq<Item>, r: nat, c: ScopedCase, top: nat)
    requires !AttemptExists(items, r, c.testCase, 1)
    ensures var after := Included(items, r, c);
            && HasItems(after, r) && (HasAttempt(after, r, top) <==> HasAttempt(items, r, top) || top == 1)
  {
    var after := Included(items, r, c);
    assert InAttempt(after[|items|], r, 1);
    AttemptsGrow(items, after, r, top);
    if HasAttempt(after, r, top) && top != 1 {
      var i :| 0 <= i < |after| && InAttempt(after[i], r, top);
      assert InAttempt(items[i], r, top);
    }
  }

  /** Where the agreement holds, a decision keeps it if and only if it passes that check. */
  lemma DecideScopeExact(db: Db, r: nat, c: ScopedCase, wanted: bool)
    requires Sound(db) && Aligned(db) && DecideScope(db, r, c, wanted).Ok?
    ensures Aligned(DecideScope(db, r, c, wanted).value) <==> ScopeAgrees(db, r, c.testCase, wanted)
  {
    hide Sound, Unstarted, AnyUnstarted, HasItems, HasAttempt, KeepsTop, OnlyUnstarted, Included, Excluded, Top;
    var after := DecideScope(db, r, c, wanted).value;
    if Changes(db, r, c.testCase, wanted) {
      var top := Top(db.runs[r]);
      assert AlignedAt(db.items, r, db.runs[r]);
      if wanted {
        if !AttemptExists(db.items, r, c.testCase, 1) {
          IncludedAttempts(db.items, r, c, top);
        }
      } else {
        ExcludedAttempts(db.items, r, c.testCase, top);
      }
      OthersAligned(db, r, c, wanted);
      assert Aligned(after) <==> AlignedAt(after.items, r, db.runs[r]);
      if wanted && !AttemptExists(db.items, r, c.testCase, 1) {
        AttemptIsItem(db.items, r, top);
      } else if wanted {
        assert after.items == db.items by { NothingIncluded(db.items, r, c); }
      }
    }
  }

  lemma NothingIncluded(items: seq<Item>, r: nat, c: ScopedCase)
    requires AttemptExists(items, r, c.testCase, 1)
    ensures Included(items, r, c) == items
  {
  }

  lemma AttemptIsItem(items: seq<Item>, r: nat, top: nat)
    ensures HasAttempt(items, r, top) ==> HasItems(items, r)
  {
    if HasAttempt(items, r, top) {
      var i :| 0 <= i < |items| && InAttempt(items[i], r, top);
      OwnRun(items, i);
    }
  }

  lemma OthersAligned(db: Db, r: nat, c: ScopedCase, wanted: bool)
    requires Aligned(db) && DecideScope(db, r, c, wanted).Ok?
    ensures forall k :: 0 <= k < |db.runs| && k != r ==>
              AlignedAt(DecideScope(db, r, c, wanted).value.items, k, db.runs[k])
  {
    hide AlignedAt, AnyUnstarted, AttemptExists;
    var after := DecideScope(db, r, c, wanted).value;
    forall k | 0 <= k < |db.runs| && k != r ensures AlignedAt(after.items, k, db.runs[k]) {
      OtherRunsAligned(db.items, after.items, r, k, db.runs[k]);
    }
  }
}
