/** The lease queue of document versions to parse: claims with fencing tokens, stale workers, one result. */
module ParseQueue {
  import opened Results

  datatype ParseStatus = Uploaded | Parsing | Parsed | Failed

  datatype Kind = Heading | Paragraph | List | Table | Code

  datatype Block = Block(kind: Kind, level: nat, content: string, locator: string)

  datatype Stored = Stored(ordinal: nat, block: Block)

  datatype Version = Version(status: ParseStatus, attempt: nat, nextAttemptAt: int, lease: Option<int>,
                             blockCount: nat, blocks: seq<Stored>)

  // ---- one version ----

  const FRESH := Version(Uploaded, 0, 0, None, 0, [])

  predicate Claimable(v: Version, now: int) {
    || (v.status == Uploaded && v.nextAttemptAt <= now && v.lease == None)
    || (v.status == Parsing && v.lease.Some? && v.lease.value <= now)
  }

  function Claimed(v: Version, now: int, lease: nat): Version {
    v.(status := Parsing, attempt := v.attempt + 1, lease := Some(now + lease))
  }

  /** WHERE parse_status = 'PARSING' AND attempt_count = the claim's. */
  predicate HeldAt(v: Version, token: nat) {
    v.status == Parsing && v.attempt == token
  }

  function Renewed(v: Version, token: nat, now: int, lease: nat): Result<Version> {
    if HeldAt(v, token) then Ok(v.(lease := Some(now + lease))) else Err(LeaseLost)
  }

  function Returned(v: Version, token: nat, maxAttempts: int, now: int, delay: nat): Result<Version> {
    if !HeldAt(v, token) then Err(LeaseLost)
    else if v.attempt < maxAttempts then Ok(v.(status := Uploaded, nextAttemptAt := now + delay, lease := None))
    else Ok(v.(status := Failed, lease := None))
  }

  /** The column checks on document_blocks. */
  predicate Storable(b: Block) {
    b.level <= 6 && b.content != ""
  }

  function Numbered(blocks: seq<Block>): (r: seq<Stored>)
    ensures |r| == |blocks|
    ensures forall i :: 0 <= i < |blocks| ==> r[i] == Stored(i + 1, blocks[i])
  {
    seq(|blocks|, i requires 0 <= i < |blocks| => Stored(i + 1, blocks[i]))
  }

  function SavedParsed(v: Version, token: nat, blocks: seq<Block>): Result<Version> {
    if exists b :: b in blocks && !Storable(b) then Err(ConstraintViolated)
    else if !HeldAt(v, token) then Err(LeaseLost)
    else Ok(v.(status := Parsed, blockCount := |blocks|, lease := None, blocks := Numbered(blocks)))
  }

  class Repository {
    var versions: seq<Version>

    /** Claims some version that is ready or whose lease has run out, unless another session has it locked. */
    method ClaimNext(locked: set<nat>, now: int, lease: nat) returns (id: Option<nat>)
      modifies this
      ensures id.Some? ==> id.value < |old(versions)| && id.value !in locked && Claimable(old(versions)[id.value], now) &&
                           versions == old(versions)[id.value := Claimed(old(versions)[id.value], now, lease)]
      ensures id.Some? ==> versions == Step(State(old(versions), [], []), Claim(id.value, now, lease)).versions
      ensures id.None? ==> versions == old(versions) &&
                           forall k :: 0 <= k < |versions| && k !in locked ==> !Claimable(versions[k], now)
    {
      var i := 0;
      while i < |versions|
        invariant 0 <= i <= |versions| && versions == old(versions)
        invariant forall k :: 0 <= k < i && k !in locked ==> !Claimable(versions[k], now)
      {
        var v := versions[i];
        if i !in locked && ((v.status == Uploaded && v.nextAttemptAt <= now && v.lease == None) ||
                            (v.status == Parsing && v.lease != None && v.lease.value <= now)) {
          versions := versions[i := versions[i].(status := Parsing, attempt := versions[i].attempt + 1,
                                                 lease := Some(now + lease))];
          return Some(i);
        }
        i := i + 1;
      }
      id := None;
    }

    method RenewLease(id: nat, token: nat, now: int, lease: nat) returns (error: Option<Failure>)
      requires id < |versions|
      modifies this
      ensures var result := Renewed(old(versions)[id], token, now, lease);
              if result.Ok? then error == None && versions == old(versions)[id := result.value]
              else error == Some(result.error) && versions == old(versions)
      ensures versions == Step(State(old(versions), [], []), Renew(id, token, now, lease)).versions
    {
      if versions[id].status != Parsing || versions[id].attempt != token {
        return Some(LeaseLost);
      }
      versions := versions[id := versions[id].(lease := Some(now + lease))];
      error := None;
    }

    method RetryOrFail(id: nat, token: nat, maxAttempts: int, now: int, delay: nat) returns (error: Option<Failure>)
      requires id < |versions|
      modifies this
      ensures var result := Returned(old(versions)[id], token, maxAttempts, now, delay);
              if result.Ok? then error == None && versions == old(versions)[id := result.value]
              else error == Some(result.error) && versions == old(versions)
      ensures versions == Step(State(old(versions), [], []), Return(id, token, maxAttempts, now, delay)).versions
    {
      var v := versions[id];
      if v.status != Parsing || v.attempt != token {
        return Some(LeaseLost);
      }
      var again := v.attempt < maxAttempts;
      versions := versions[id := v.(status := if again then Uploaded else Failed,
                                    nextAttemptAt := if again then now + delay else v.nextAttemptAt, lease := None)];
      error := None;
    }

    /** SaveParsed: delete the old blocks, insert the new ones in order, then the guarded update; or roll back. */
    method SaveParsed(id: nat, token: nat, blocks: seq<Block>) returns (error: Option<Failure>)
      requires id < |versions|
      modifies this
      ensures var result := SavedParsed(old(versions)[id], token, blocks);
              if result.Ok? then error == None && versions == old(versions)[id := result.value]
              else error == Some(result.error) && versions == old(versions)
      ensures versions == Step(State(old(versions), [], []), Save(id, token, blocks)).versions
    {
      var start := versions;
      versions := versions[id := versions[id].(blocks := [])];
      var i := 0;
      while i < |blocks|
        invariant 0 <= i <= |blocks|
        invariant versions == start[id := start[id].(blocks := Numbered(blocks[..i]))]
        invariant forall k :: 0 <= k < i ==> Storable(blocks[k])
      {
        if blocks[i].level > 6 || blocks[i].content == "" {
          versions := start;
          assert blocks[i] in blocks && !Storable(blocks[i]);
          return Some(ConstraintViolated);
        }
        assert Numbered(blocks[..i]) + [Stored(i + 1, blocks[i])] == Numbered(blocks[..i + 1]);
        versions := versions[id := versions[id].(blocks := versions[id].blocks + [Stored(i + 1, blocks[i])])];
        i := i + 1;
      }
      assert blocks[..|blocks|] == blocks;
      if versions[id].status != Parsing || versions[id].attempt != token {
        versions := start;
        return Some(LeaseLost);
      }
      versions := versions[id := versions[id].(status := Parsed, blockCount := |blocks|, lease := None)];
      error := None;
    }
  }

  // ---- all interleavings ----

  datatype Commit = Commit(version: nat, token: nat, blocks: seq<Block>)

  /** claims and commits are history only: every token handed out, every save that went through, oldest first. */
  datatype State = State(versions: seq<Version>, claims: seq<(nat, nat)>, commits: seq<Commit>)

  /** Anyone may call with any token at any time; whether it was ever handed out is for the invariant to say. */
  datatype Event =
    | Upload
    | Claim(version: nat, now: int, lease: nat)
    | Renew(version: nat, token: nat, now: int, lease: nat)
    | Return(version: nat, token: nat, maxAttempts: int, now: int, delay: nat)
    | Save(version: nat, token: nat, blocks: seq<Block>)

  function Put(s: State, i: nat, r: Result<Version>): State
    requires i < |s.versions|
  {
    if r.Ok? then s.(versions := s.versions[i := r.value]) else s
  }

  function Step(s: State, e: Event): State {
    if e.Upload? then s.(versions := s.versions + [FRESH])
    else if e.version >= |s.versions| then s
    else
      var i, v := e.version, s.versions[e.version];
      match e
      case Claim(_, now, lease) =>
        if Claimable(v, now)
        then s.(versions := s.versions[i := Claimed(v, now, lease)], claims := s.claims + [(i, v.attempt + 1)])
        else s
      case Renew(_, token, now, lease) => Put(s, i, Renewed(v, token, now, lease))
      case Return(_, token, maxAttempts, now, delay) => Put(s, i, Returned(v, token, maxAttempts, now, delay))
      case Save(_, token, blocks) =>
        var r := SavedParsed(v, token, blocks);
        if r.Ok? then Put(s, i, r).(commits := s.commits + [Commit(i, token, blocks)]) else s
  }

  function Play(s: State, events: seq<Event>): State {
    if events == [] then s else Step(Play(s, events[..|events| - 1]), events[|events| - 1])
  }

  const EMPTY := State([], [], [])

  /** A version is parsed exactly if a commit says so, and then it is what that commit wrote. */
  predicate RowOk(s: State, i: nat)
    requires i < |s.versions|
  {
    var v := s.versions[i];
    && (v.lease.Some? <==> v.status == Parsing)
    && (v.attempt > 0 ==> (i, v.attempt) in s.claims)
    && (v.status == Parsing || v.status == Parsed ==> v.attempt > 0)
    && (v.status != Parsed ==> v.blocks == [] && v.blockCount == 0)
    && (v.status == Parsed <==> exists c :: c in s.commits && c.version == i)
  }

  predicate CommitOk(s: State, c: Commit) {
    && c.version < |s.versions|
    && var v := s.versions[c.version];
       v.status == Parsed && v.attempt == c.token && v.blocks == Numbered(c.blocks) && v.blockCount == |c.blocks|
  }

  predicate ClaimOk(s: State, c: (nat, nat)) {
    c.0 < |s.versions| && 1 <= c.1 <= s.versions[c.0].attempt
  }

  predicate Inv(s: State) {
    && (forall i :: 0 <= i < |s.versions| ==> RowOk(s, i))
    && (forall c :: c in s.commits ==> CommitOk(s, c))
    && (forall c :: c in s.claims ==> ClaimOk(s, c))
    && (forall k, l :: 0 <= k < l < |s.claims| && s.claims[k].0 == s.claims[l].0 ==> s.claims[k].1 < s.claims[l].1)
    && (forall k, l :: 0 <= k < l < |s.commits| ==> s.commits[k].version != s.commits[l].version)
  }

  /** What a row may turn into: attempts only grow, and a parsed row is final. */
  predicate Follows(before: Version, after: Version) {
    before.attempt <= after.attempt && (before.status == Parsed ==> after == before)
  }

  lemma StepFollows(s: State, e: Event, i: nat)
    requires i < |s.versions|
    ensures i < |Step(s, e).versions| && Follows(s.versions[i], Step(s, e).versions[i])
  {
  }

  lemma StepKeeps(s: State, e: Event)
    requires Inv(s)
    ensures Inv(Step(s, e))
  {
    hide RowOk, Claimable, Numbered;
    var t := Step(s, e);
    forall i | 0 <= i < |t.versions| ensures RowOk(t, i) {
      RowStep(s, e, i);
    }
    forall c | c in t.commits ensures CommitOk(t, c) {
      if c in s.commits {
        assert CommitOk(s, c);
        StepFollows(s, e, c.version);
      }
    }
    forall c | c in t.claims ensures ClaimOk(t, c) {
      if c in s.claims {
        assert ClaimOk(s, c);
        StepFollows(s, e, c.0);
      }
    }
    forall k | 0 <= k < |s.claims| ensures ClaimOk(s, s.claims[k]) {
      assert s.claims[k] in s.claims;
    }
    if t.commits != s.commits {
      NoCommitYet(s, e.version);
    }
  }

  lemma NoCommitYet(s: State, i: nat)
    requires i < |s.versions| && RowOk(s, i) && s.versions[i].status != Parsed
    ensures forall k :: 0 <= k < |s.commits| ==> s.commits[k].version != i
  {
  }

  lemma RowStep(s: State, e: Event, i: nat)
    requires Inv(s) && i < |Step(s, e).versions|
    ensures RowOk(Step(s, e), i)
  {
    hide Numbered;
    var t := Step(s, e);
    if i < |s.versions| {
      assert RowOk(s, i);
      if e.Claim? && t != s {
        assert t.claims[|s.claims|] in t.claims;
      }
    } else {
      forall c | c in t.commits ensures c.version != i {
        assert CommitOk(s, c);
      }
    }
  }

  lemma {:induction false} Reachable(events: seq<Event>)
    ensures Inv(Play(EMPTY, events))
  {
    hide Inv, Step;
    if events == [] {
      EmptyIsFine();
    } else {
      Reachable(events[..|events| - 1]);
      StepKeeps(Play(EMPTY, events[..|events| - 1]), events[|events| - 1]);
    }
  }

  lemma EmptyIsFine()
    ensures Inv(EMPTY)
  {
  }

  // ---- what the queue promises ----

  /** No token is ever handed out twice: the tokens of one version strictly increase. */
  lemma TokensIssuedOnce(events: seq<Event>, k: nat, l: nat)
    requires k < l < |Play(EMPTY, events).claims| && Play(EMPTY, events).claims[k].0 == Play(EMPTY, events).claims[l].0
    ensures Play(EMPTY, events).claims[k].1 < Play(EMPTY, events).claims[l].1
  {
    hide Step, RowOk, CommitOk, ClaimOk;
    Reachable(events);
  }

  /** Whoever gets through to a version holds its newest token, and that token was handed out by a claim. */
  lemma OnlyTheNewestActs(events: seq<Event>, e: Event)
    requires (e.Renew? || e.Return? || e.Save?) && Step(Play(EMPTY, events), e) != Play(EMPTY, events)
    ensures var s := Play(EMPTY, events);
            && e.version < |s.versions| && e.token == s.versions[e.version].attempt
            && (e.version, e.token) in s.claims
            && forall c :: c in s.claims && c.0 == e.version ==> c.1 <= e.token
  {
    var s := Play(EMPTY, events);
    Reachable(events);
    assert RowOk(s, e.version);
    forall c | c in s.claims && c.0 == e.version ensures c.1 <= e.token {
      assert ClaimOk(s, c);
    }
  }

  lemma {:induction false} RowsFollow(s: State, later: seq<Event>, i: nat)
    requires i < |s.versions|
    ensures i < |Play(s, later).versions| && Follows(s.versions[i], Play(s, later).versions[i])
  {
    hide Step;
    if later != [] {
      RowsFollow(s, later[..|later| - 1], i);
      StepFollows(Play(s, later[..|later| - 1]), later[|later| - 1], i);
    }
  }

  /** Once a later claim has been made, the earlier token can never again renew, return or save, whatever happens. */
  lemma SupersededForever(s: State, later: seq<Event>, i: nat, token: nat)
    requires i < |s.versions| && token < s.versions[i].attempt
    ensures i < |Play(s, later).versions|
    ensures var v := Play(s, later).versions[i];
            && !HeldAt(v, token)
            && (forall now, lease :: Renewed(v, token, now, lease).Err?)
            && (forall max, now, delay :: Returned(v, token, max, now, delay).Err?)
            && (forall blocks :: SavedParsed(v, token, blocks).Err?)
  {
    hide Step, Play;
    RowsFollow(s, later, i);
  }

  /**
   * A parsed version is final: it keeps forever exactly the blocks of the one save that went through, numbered from 1
   * to its block count, and that save belongs to the last claim ever made for it.
   */
  lemma ParsedForever(events: seq<Event>, later: seq<Event>, i: nat)
    requires i < |Play(EMPTY, events).versions| && Play(EMPTY, events).versions[i].status == Parsed
    ensures var s := Play(EMPTY, events); var v := s.versions[i];
            && i < |Play(s, later).versions| && Play(s, later).versions[i] == v
            && (exists c :: c in s.commits && c.version == i && c.token == v.attempt && v.blocks == Numbered(c.blocks) &&
                            v.blockCount == |c.blocks| && (i, c.token) in s.claims)
            && (forall c, d :: c in s.commits && d in s.commits && c.version == i == d.version ==> c == d)
            && (forall k :: 0 <= k < |v.blocks| ==> v.blocks[k].ordinal == k + 1) && |v.blocks| == v.blockCount
  {
    hide Step, Claimable;
    var s := Play(EMPTY, events);
    Reachable(events);
    RowsFollow(s, later, i);
    assert RowOk(s, i);
    var c :| c in s.commits && c.version == i;
    assert CommitOk(s, c);
  }
}
