/** Which latest versions an index is built from, and the canonical fingerprint of that choice. */
module SourceSnapshot {
  import opened Results
  import opened Sorting
  import opened Text

  /** The latest version of one document, with the number of its stored blocks. */
  datatype Latest = Latest(document: nat, version: nat, versionNumber: nat, name: string, sha: string,
                           parseStatus: string, approvalStatus: string, blockCount: nat, blocks: nat)

  datatype Item = Item(document: nat, version: nat, versionNumber: nat, name: string, sha: string,
                       parseStatus: string, approvalStatus: string,
                       included: bool, reason: string)

  /** What the fingerprint is about. */
  datatype Identity = Identity(document: nat, version: nat, sha: string, included: bool, reason: string)

  function IdentityOf(item: Item): Identity {
    Identity(item.document, item.version, item.sha, item.included, item.reason)
  }

  function Flag(b: bool): string {
    if b then "true" else "false"
  }

  function FlagPart(i: Identity): string {
    Flag(i.included) + ":" + i.reason
  }

  function DigestPart(i: Identity): string {
    i.sha + ":" + FlagPart(i)
  }

  function VersionPart(i: Identity): string {
    Decimal(i.version) + ":" + DigestPart(i)
  }

  /** Document, version, digest, flag and reason, between colons. */
  function IdentityLine(i: Identity): string {
    Decimal(i.document) + ":" + VersionPart(i)
  }

  /** A digest is hexadecimal, a reason is one line: what makes the line readable again. */
  predicate Plain(i: Identity) {
    ':' !in i.sha && '\n' !in i.sha && '\n' !in i.reason
  }

  // ---- the fingerprint ----

  function Lines(items: seq<Item>): (lines: seq<string>)
    ensures |lines| == |items| && forall k :: 0 <= k < |items| ==> lines[k] == IdentityLine(IdentityOf(items[k]))
  {
    seq(|items|, k requires 0 <= k < |items| => IdentityLine(IdentityOf(items[k])))
  }

  function Identities(items: seq<Item>): (ids: seq<Identity>)
    ensures |ids| == |items| && forall k :: 0 <= k < |items| ==> ids[k] == IdentityOf(items[k])
  {
    seq(|items|, k requires 0 <= k < |items| => IdentityOf(items[k]))
  }

  function Fingerprint(items: seq<Item>, digest: string -> string): string {
    digest(Join(Sort(StringLe, Lines(items)), '\n'))
  }

  method SnapshotFingerprint(items: seq<Item>, digest: string -> string) returns (fingerprint: string)
    ensures fingerprint == Fingerprint(items, digest)
  {
    hide IdentityLine, Sort, Join;
    var parts: seq<string> := [];
    var k := 0;
    while k < |items|
      invariant 0 <= k <= |items| && parts == Lines(items)[..k]
    {
      var item := items[k];
      var flag := if item.included then "true" else "false";
      var line := Decimal(item.document) + ":" + Decimal(item.version) + ":" + item.sha + ":" + flag + ":" + item.reason;
      LineAssembled(item, flag, line);
      parts := parts + [line];
      k := k + 1;
    }
    assert parts == Lines(items);
    fingerprint := digest(Join(Sort(StringLe, parts), '\n'));
  }

  lemma LineAssembled(item: Item, flag: string, line: string)
    requires flag == if item.included then "true" else "false"
    requires line == Decimal(item.document) + ":" + Decimal(item.version) + ":" + item.sha + ":" + flag + ":" + item.reason
    ensures line == IdentityLine(IdentityOf(item))
  {
    hide Decimal;
    Regrouped(Decimal(item.document), Decimal(item.version), item.sha, flag, item.reason);
  }

  lemma Regrouped(a: string, b: string, c: string, d: string, e: string)
    ensures a + ":" + b + ":" + c + ":" + d + ":" + e == a + ":" + (b + ":" + (c + ":" + (d + ":" + e)))
  {
    var w := d + ":" + e;
    assert a + ":" + b + ":" + c + ":" + d + ":" + e == a + ":" + b + ":" + c + ":" + w;
    var v := c + ":" + w;
    assert a + ":" + b + ":" + c + ":" + w == a + ":" + b + ":" + v;
    assert a + ":" + b + ":" + v == a + ":" + (b + ":" + v);
  }

  lemma SplitAtColon(s: string, t: string, u: string, v: string)
    requires ':' !in s && ':' !in t
    ensures s + ":" + u == t + ":" + v <==> s == t && u == v
  {
    if s + ":" + u == t + ":" + v {
      ColonPosition(s, u);
      ColonPosition(t, v);
    }
  }

  lemma ColonPosition(s: string, u: string)
    requires ':' !in s
    ensures var w := s + ":" + u; Split(w, ':')[0] == s && w[|s| + 1..] == u
  {
    SplitPrefix(s, ":" + u, ':');
    assert s + ":" + u == s + (":" + u);
    assert (":" + u)[0] == ':' && (":" + u)[1..] == u;
    assert Split(":" + u, ':')[0] == "";
    assert s + "" == s;
  }

  /** A line can be read back in one way only. */
  lemma LineTellsIdentity(a: Identity, b: Identity)
    requires Plain(a) && Plain(b)
    ensures IdentityLine(a) == IdentityLine(b) <==> a == b
  {
    hide Decimal, VersionPart;
    FieldInjective(a.document, b.document, ':', VersionPart(a), VersionPart(b));
    VersionPartTells(a, b);
  }

  lemma VersionPartTells(a: Identity, b: Identity)
    requires Plain(a) && Plain(b)
    ensures VersionPart(a) == VersionPart(b) <==>
              a.version == b.version && a.sha == b.sha && a.included == b.included && a.reason == b.reason
  {
    hide Decimal, DigestPart;
    FieldInjective(a.version, b.version, ':', DigestPart(a), DigestPart(b));
    DigestPartTells(a, b);
  }

  lemma DigestPartTells(a: Identity, b: Identity)
    requires Plain(a) && Plain(b)
    ensures DigestPart(a) == DigestPart(b) <==> a.sha == b.sha && a.included == b.included && a.reason == b.reason
  {
    hide FlagPart;
    SplitAtColon(a.sha, b.sha, FlagPart(a), FlagPart(b));
    FlagPartTells(a, b);
  }

  lemma FlagPartTells(a: Identity, b: Identity)
    ensures FlagPart(a) == FlagPart(b) <==> a.included == b.included && a.reason == b.reason
  {
    assert Flag(true)[0] == 't' && Flag(false)[0] == 'f';
    SplitAtColon(Flag(a.included), Flag(b.included), a.reason, b.reason);
  }

  lemma LinesArePlain(i: Identity)
    requires Plain(i)
    ensures '\n' !in IdentityLine(i) && IdentityLine(i) != ""
  {
    hide Decimal;
    assert !IsDigit('\n');
  }

  /** An injective rewriting keeps how often each element occurs. */
  lemma {:induction false} CountsAgree(items: seq<Item>, i: Identity)
    requires Plain(i) && forall x :: x in items ==> Plain(IdentityOf(x))
    ensures multiset(Lines(items))[IdentityLine(i)] == multiset(Identities(items))[i]
  {
    hide IdentityLine, Plain, IdentityOf;
    if items != [] {
      var n := |items| - 1;
      CountsAgree(items[..n], i);
      assert Lines(items) == Lines(items[..n]) + [IdentityLine(IdentityOf(items[n]))];
      assert Identities(items) == Identities(items[..n]) + [IdentityOf(items[n])];
      LineTellsIdentity(i, IdentityOf(items[n]));
    }
  }

  lemma SameCounts(a: seq<Item>, b: seq<Item>)
    requires forall x :: x in a || x in b ==> Plain(IdentityOf(x))
    ensures multiset(Lines(a)) == multiset(Lines(b)) <==> multiset(Identities(a)) == multiset(Identities(b))
  {
    hide IdentityLine, Plain, IdentityOf;
    if multiset(Lines(a)) == multiset(Lines(b)) {
      forall i ensures multiset(Identities(a))[i] == multiset(Identities(b))[i] {
        if i in Identities(a) || i in Identities(b) {
          CountsAgree(a, i);
          CountsAgree(b, i);
        }
      }
    }
    if multiset(Identities(a)) == multiset(Identities(b)) {
      forall line ensures multiset(Lines(a))[line] == multiset(Lines(b))[line] {
        if line in Lines(a) || line in Lines(b) {
          var i := LineOwner(a, b, line);
          CountsAgree(a, i);
          CountsAgree(b, i);
        }
      }
    }
  }

  lemma LineOwner(a: seq<Item>, b: seq<Item>, line: string) returns (i: Identity)
    requires line in Lines(a) || line in Lines(b)
    requires forall x :: x in a || x in b ==> Plain(IdentityOf(x))
    ensures Plain(i) && IdentityLine(i) == line
  {
    hide Plain, IdentityOf, IdentityLine;
    if line in Lines(a) {
      var k :| 0 <= k < |a| && Lines(a)[k] == line;
      assert a[k] in a;
      i := IdentityOf(a[k]);
    } else {
      var k :| 0 <= k < |b| && Lines(b)[k] == line;
      assert b[k] in b;
      i := IdentityOf(b[k]);
    }
  }

  ghost predicate Injective(f: string -> string) {
    forall a, b :: f(a) == f(b) ==> a == b
  }

  /** The fingerprint is a canonical form: equal exactly for permutations, looking at the five identifying fields only. */
  lemma FingerprintCanonical(a: seq<Item>, b: seq<Item>, digest: string -> string)
    requires Injective(digest) && forall x :: x in a || x in b ==> Plain(IdentityOf(x))
    ensures Fingerprint(a, digest) == Fingerprint(b, digest) <==> multiset(Identities(a)) == multiset(Identities(b))
  {
    hide Plain, IdentityOf, IdentityLine, Sort, Join;
    SameCounts(a, b);
    StringLeOrder();
    SortCanonical(StringLe, Lines(a), Lines(b));
    SortSorts(StringLe, Lines(a));
    SortSorts(StringLe, Lines(b));
    forall p | p in Sort(StringLe, Lines(a)) || p in Sort(StringLe, Lines(b)) ensures p != "" && '\n' !in p {
      var i := LineOwner(a, b, p);
      LinesArePlain(i);
    }
    JoinInjective(Sort(StringLe, Lines(a)), Sort(StringLe, Lines(b)), '\n');
  }

  // ---- choosing the sources ----

  datatype Refusal = NoSuchSet | BadRequest | NothingToIndex | Blocked(issues: seq<Item>)

  datatype Outcome<+T> = Accepted(value: T) | Refused(why: Refusal)

  datatype Snapshot = Snapshot(revision: nat, fingerprint: string, includedCount: nat, excludedCount: nat, items: seq<Item>)

  function ItemOf(v: Latest, excluded: set<int>): Item {
    if v.version as int in excluded
    then Item(v.document, v.version, v.versionNumber, v.name, v.sha, v.parseStatus, v.approvalStatus, false, "USER_EXCLUDED")
    else Item(v.document, v.version, v.versionNumber, v.name, v.sha, v.parseStatus, v.approvalStatus, true, "")
  }

  lemma ItemIs(v: Latest, excluded: set<int>, item: Item)
    requires item == Item(v.document, v.version, v.versionNumber, v.name, v.sha, v.parseStatus, v.approvalStatus,
                          v.version as int !in excluded, if v.version as int in excluded then "USER_EXCLUDED" else "")
    ensures item == ItemOf(v, excluded)
  {
  }

  function ItemsOf(latest: seq<Latest>, excluded: set<int>): (items: seq<Item>)
    ensures |items| == |latest| && forall k :: 0 <= k < |latest| ==> items[k] == ItemOf(latest[k], excluded)
  {
    seq(|latest|, k requires 0 <= k < |latest| => ItemOf(latest[k], excluded))
  }

  predicate Parsed(v: Latest) {
    v.parseStatus == "PARSED"
  }

  /** Parsed, with blocks by its own count and in the table. */
  predicate Usable(v: Latest) {
    Parsed(v) && v.blockCount > 0 && v.blocks > 0
  }

  /** The versions that are neither excluded nor unusable, in order. */
  function SourcesOf(latest: seq<Latest>, excluded: set<int>): seq<Latest> {
    if latest == [] then []
    else
      var v := latest[|latest| - 1];
      SourcesOf(latest[..|latest| - 1], excluded) + if v.version as int !in excluded && Usable(v) then [v] else []
  }

  predicate DistinctVersions(latest: seq<Latest>) {
    forall i, j :: 0 <= i < j < |latest| ==> latest[i].version != latest[j].version
  }

  predicate AllExcludedAreLatest(latest: seq<Latest>, excluded: set<int>) {
    forall id :: id in excluded ==> exists k :: 0 <= k < |latest| && latest[k].version as int == id
  }

  /** Some version is neither excluded nor usable. */
  predicate SomeUnusable(latest: seq<Latest>, excluded: set<int>) {
    exists k :: 0 <= k < |latest| && Stuck(latest[k], excluded)
  }

  /** The issues are exactly the items of the versions that are neither excluded nor usable. */
  ghost predicate IssuesOf(issues: seq<Item>, latest: seq<Latest>, excluded: set<int>) {
    forall item :: item in issues <==>
      exists k :: 0 <= k < |latest| && item == ItemOf(latest[k], excluded) && Stuck(latest[k], excluded)
  }

  function Requested(ids: seq<int>): set<int> {
    set id | id in ids
  }

  /** First pass: every latest version becomes an item; the usable-looking ones become candidates, the others issues. */
  method FirstPass(latest: seq<Latest>, excluded: set<int>)
    returns (items: seq<Item>, candidates: seq<Latest>, issues: seq<Item>, seen: set<int>)
    ensures items == ItemsOf(latest, excluded)
    ensures seen == set k | 0 <= k < |latest| && latest[k].version as int in excluded :: latest[k].version as int
    ensures forall item :: item in issues <==>
              exists k :: 0 <= k < |latest| && item == ItemOf(latest[k], excluded) && Unparsed(latest[k], excluded)
    ensures Candidates(latest, excluded) == candidates
  {
    hide ItemOf;
    items, candidates, issues, seen := [], [], [], {};
    var i := 0;
    while i < |latest|
      invariant 0 <= i <= |latest| && items == ItemsOf(latest, excluded)[..i]
      invariant seen == set k | 0 <= k < i && latest[k].version as int in excluded :: latest[k].version as int
      invariant forall item :: item in issues <==>
                  exists k :: 0 <= k < i && item == ItemOf(latest[k], excluded) && Unparsed(latest[k], excluded)
      invariant candidates == Candidates(latest[..i], excluded)
    {
      assert latest[..i + 1][..i] == latest[..i];
      var v := latest[i];
      var item := Item(v.document, v.version, v.versionNumber, v.name, v.sha, v.parseStatus, v.approvalStatus, true, "");
      if v.version as int in excluded {
        item := item.(included := false, reason := "USER_EXCLUDED");
      }
      ItemIs(v, excluded, item);
      items := items + [item];
      if v.version as int in excluded {
        seen := seen + {v.version as int};
      } else if v.parseStatus != "PARSED" || v.blockCount == 0 {
        issues := issues + [item];
      } else {
        candidates := candidates + [v];
      }
      i := i + 1;
    }
    assert latest[..|latest|] == latest;
  }

  function Candidates(latest: seq<Latest>, excluded: set<int>): seq<Latest> {
    if latest == [] then []
    else
      var v := latest[|latest| - 1];
      Candidates(latest[..|latest| - 1], excluded) +
      if v.version as int !in excluded && Parsed(v) && v.blockCount > 0 then [v] else []
  }

  /** Second pass: loads the candidates' blocks; one without blocks is an issue after all. */
  method SecondPass(candidates: seq<Latest>, items: seq<Item>, before: seq<Item>) returns (sources: seq<Latest>, issues: seq<Item>)
    requires forall c :: c in candidates ==> exists k :: 0 <= k < |items| && items[k].version == c.version
    ensures sources == WithBlocks(candidates)
    ensures forall x :: x in before ==> x in issues
    ensures forall x :: x in issues ==> x in before || (x in items && exists c :: c in candidates && c.blocks == 0 && c.version == x.version)
    ensures forall c :: c in candidates && c.blocks == 0 ==> exists x :: x in issues && x in items && x.version == c.version
  {
    sources, issues := [], before;
    var i := 0;
    while i < |candidates|
      invariant 0 <= i <= |candidates| && sources == WithBlocks(candidates[..i])
      invariant forall x :: x in before ==> x in issues
      invariant forall x :: x in issues ==> x in before || (x in items && exists c :: c in candidates && c.blocks == 0 && c.version == x.version)
      invariant forall k :: 0 <= k < i && candidates[k].blocks == 0 ==> exists x :: x in issues && x in items && x.version == candidates[k].version
    {
      assert candidates[..i + 1][..i] == candidates[..i];
      var c := candidates[i];
      assert c in candidates;
      i := i + 1;
      if c.blocks == 0 {
        var j := 0;
        while items[j].version != c.version
          decreases |items| - j
          invariant 0 <= j < |items|
          invariant exists k :: j <= k < |items| && items[k].version == c.version
        {
          j := j + 1;
        }
        issues := issues + [items[j]];
        continue;
      }
      sources := sources + [c];
    }
    assert candidates[..|candidates|] == candidates;
  }

  function WithBlocks(candidates: seq<Latest>): seq<Latest> {
    if candidates == [] then []
    else WithBlocks(candidates[..|candidates| - 1]) + if candidates[|candidates| - 1].blocks > 0 then [candidates[|candidates| - 1]] else []
  }

  lemma WithBlocksStep(candidates: seq<Latest>, v: Latest)
    ensures WithBlocks(candidates + [v]) == WithBlocks(candidates) + if v.blocks > 0 then [v] else []
  {
    assert (candidates + [v])[..|candidates|] == candidates;
  }

  lemma {:induction false} SourcesAreCandidates(latest: seq<Latest>, excluded: set<int>)
    ensures WithBlocks(Candidates(latest, excluded)) == SourcesOf(latest, excluded)
  {
    hide WithBlocks;
    if latest == [] {
      NoCandidates();
    } else {
      var n := |latest| - 1;
      SourcesAreCandidates(latest[..n], excluded);
      WithBlocksStep(Candidates(latest[..n], excluded), latest[n]);
      assert Candidates(latest[..n], excluded) + [] == Candidates(latest[..n], excluded);
      assert SourcesOf(latest[..n], excluded) + [] == SourcesOf(latest[..n], excluded);
    }
  }

  lemma NoCandidates()
    ensures WithBlocks([]) == []
  {
  }

  lemma {:induction false} CandidatesAre(latest: seq<Latest>, excluded: set<int>)
    ensures forall c :: c in Candidates(latest, excluded) <==>
              c in latest && c.version as int !in excluded && Parsed(c) && c.blockCount > 0
  {
    if latest != [] {
      var n := |latest| - 1;
      CandidatesAre(latest[..n], excluded);
      assert latest == latest[..n] + [latest[n]];
    }
  }

  function IncludedCount(items: seq<Item>): (n: nat)
    ensures n <= |items|
  {
    if items == [] then 0 else IncludedCount(items[..|items| - 1]) + if items[|items| - 1].included then 1 else 0
  }

  predicate AllPlain(items: seq<Item>) {
    forall x :: x in items ==> Plain(IdentityOf(x))
  }

  /** A snapshot says what its fingerprint was taken of, and counts it. */
  predicate SnapshotOk(s: Snapshot, digest: string -> string) {
    && s.fingerprint == Fingerprint(s.items, digest) && AllPlain(s.items)
    && s.includedCount == IncludedCount(s.items) && s.includedCount + s.excludedCount == |s.items|
  }

  /** One snapshot per revision and fingerprint, and each in order. */
  predicate StoreOk(snapshots: seq<Snapshot>, digest: string -> string) {
    && (forall i, j :: 0 <= i < j < |snapshots| ==>
          snapshots[i].revision != snapshots[j].revision || snapshots[i].fingerprint != snapshots[j].fingerprint)
    && (forall s :: s in snapshots ==> SnapshotOk(s, digest))
  }

  /** The digest column holds hexadecimal digits. */
  predicate Digests(latest: seq<Latest>) {
    forall v :: v in latest ==> ':' !in v.sha && '\n' !in v.sha
  }

  /** A stored snapshot of the same choice: whatever names have changed since, it is about the same versions and verdicts. */
  ghost predicate SameChoice(stored: Snapshot, items: seq<Item>) {
    multiset(Identities(stored.items)) == multiset(Identities(items))
  }

  predicate Exists(snapshots: seq<Snapshot>, revision: nat, fingerprint: string) {
    exists s :: s in snapshots && s.revision == revision && s.fingerprint == fingerprint
  }

  predicate AllPositive(ids: seq<int>) {
    forall id :: id in ids ==> id > 0
  }

  /** The snapshots of one document set; revision is that of its row, if there is one. */
  class SnapshotRepository {
    var revision: Option<nat>
    var snapshots: seq<Snapshot>

    /** Finds the snapshot of this revision with this fingerprint, or stores a new one. */
    method FindOrInsert(revision: nat, fingerprint: string, items: seq<Item>, included: nat, ghost digest: string -> string) returns (found: Snapshot)
      requires StoreOk(snapshots, digest) && AllPlain(items)
      requires fingerprint == Fingerprint(items, digest) && included == IncludedCount(items)
      modifies this`snapshots
      ensures StoreOk(snapshots, digest)
      ensures found.revision == revision && found.fingerprint == fingerprint && found in snapshots
      ensures Exists(old(snapshots), revision, fingerprint) ==> snapshots == old(snapshots)
      ensures !Exists(old(snapshots), revision, fingerprint) ==>
                found == Snapshot(revision, fingerprint, included, |items| - included, items) && snapshots == old(snapshots) + [found]
    {
      hide Fingerprint, Plain, IdentityOf;
      var i := 0;
      while i < |snapshots|
        invariant 0 <= i <= |snapshots|
        invariant forall k :: 0 <= k < i ==> !(snapshots[k].revision == revision && snapshots[k].fingerprint == fingerprint)
      {
        if snapshots[i].revision == revision && snapshots[i].fingerprint == fingerprint {
          return snapshots[i];
        }
        i := i + 1;
      }
      found := Snapshot(revision, fingerprint, included, |items| - included, items);
      snapshots := snapshots + [found];
    }

    /** The snapshot returned carries the items of this request, and the row, counts and fingerprint that are stored. */
    method CreateSourceSnapshot(latest: seq<Latest>, ids: seq<int>, digest: string -> string)
      returns (outcome: Outcome<(Snapshot, seq<Latest>)>)
      requires DistinctVersions(latest) && Digests(latest) && StoreOk(snapshots, digest)
      modifies this`snapshots
      ensures StoreOk(snapshots, digest)
      ensures outcome == Refused(NoSuchSet) <==> revision == None
      ensures outcome.Accepted? <==>
                revision.Some? && AllPositive(ids) && latest != [] && AllExcludedAreLatest(latest, Requested(ids)) &&
                !SomeUnusable(latest, Requested(ids)) && SourcesOf(latest, Requested(ids)) != []
      ensures outcome.Accepted? ==>
                var (s, sources) := outcome.value; var items := ItemsOf(latest, Requested(ids));
                && sources == SourcesOf(latest, Requested(ids)) && s.items == items
                && revision == Some(s.revision) && s.fingerprint == Fingerprint(items, digest)
                && (exists stored :: stored in snapshots && s == stored.(items := items) &&
                                     (Injective(digest) ==> SameChoice(stored, items)))
                && (Injective(digest) ==> s.includedCount == |sources| && s.excludedCount == |items| - |sources|)
                && snapshots == if Exists(old(snapshots), s.revision, s.fingerprint) then old(snapshots) else old(snapshots) + [s]
      ensures outcome.Refused? ==> snapshots == old(snapshots)
      ensures outcome == Refused(BadRequest) <==>
                revision.Some? && (!AllPositive(ids) || (latest != [] && !AllExcludedAreLatest(latest, Requested(ids))))
      ensures outcome == Refused(NothingToIndex) <==>
                revision.Some? && AllPositive(ids) && (latest == [] || (AllExcludedAreLatest(latest, Requested(ids)) &&
                !SomeUnusable(latest, Requested(ids)) && SourcesOf(latest, Requested(ids)) == []))
      ensures (outcome.Refused? && outcome.why.Blocked?) <==>
                revision.Some? && AllPositive(ids) && latest != [] && AllExcludedAreLatest(latest, Requested(ids)) &&
                SomeUnusable(latest, Requested(ids))
      ensures outcome.Refused? && outcome.why.Blocked? ==> IssuesOf(outcome.why.issues, latest, Requested(ids))
    {
      hide ItemOf, Fingerprint, SourcesOf, Candidates, WithBlocks, SnapshotOk, SameChoice, AllPlain, Injective;
      if revision == None {
        return Refused(NoSuchSet);
      }
      var i := 0;
      while i < |ids|
        invariant 0 <= i <= |ids| && forall k :: 0 <= k < i ==> ids[k] > 0
      {
        if ids[i] <= 0 {
          assert ids[i] in ids;
          return Refused(BadRequest);
        }
        i := i + 1;
      }
      var excluded := Requested(ids);
      var items, candidates, issues, seen := FirstPass(latest, excluded);
      CandidatesAre(latest, excluded);
      SourcesAreCandidates(latest, excluded);
      SeenAll(latest, excluded, seen);
      CandidatesHaveItems(latest, excluded, candidates, items);
      var sources, allIssues := SecondPass(candidates, items, issues);
      IssuesExact(latest, excluded, items, candidates, issues, allIssues);
      if |items| == 0 {
        return Refused(NothingToIndex);
      }
      if |seen| != |excluded| {
        return Refused(BadRequest);
      }
      if |allIssues| > 0 {
        SomeIssue(latest, excluded, allIssues);
        return Refused(Blocked(allIssues));
      }
      if |sources| == 0 {
        return Refused(NothingToIndex);
      }
      NoIssue(latest, excluded, allIssues);
      ItemsArePlain(latest, excluded);
      SourcesFit(latest, excluded);
      var fingerprint := SnapshotFingerprint(items, digest);
      var snapshot := FindOrInsert(revision.value, fingerprint, items, |sources|, digest);
      StoredIsSame(snapshot, items, digest);
      assert snapshot.(items := items) == snapshot || Exists(old(snapshots), revision.value, fingerprint);
      outcome := Accepted((snapshot.(items := items), sources));
    }

    /** Asking again while the revision stands returns the very same snapshot and stores nothing. */
    method CreateTwice(latest: seq<Latest>, ids: seq<int>, digest: string -> string)
      returns (first: Outcome<(Snapshot, seq<Latest>)>, second: Outcome<(Snapshot, seq<Latest>)>)
      requires DistinctVersions(latest) && Digests(latest) && StoreOk(snapshots, digest)
      modifies this`snapshots
      ensures first.Accepted? <==> second.Accepted?
      ensures first.Accepted? ==> second.value == first.value
      ensures first.Accepted? ==> snapshots == old(snapshots) || snapshots == old(snapshots) + [first.value.0]
    {
      hide SnapshotOk, SameChoice, Fingerprint, SourcesOf, SomeUnusable, AllExcludedAreLatest, Injective;
      first := CreateSourceSnapshot(latest, ids, digest);
      ghost var between := snapshots;
      second := CreateSourceSnapshot(latest, ids, digest);
      if first.Accepted? {
        var s, t := first.value.0, second.value.0;
        ghost var a :| a in between && s == a.(items := s.items);
        assert Exists(between, s.revision, s.fingerprint);
        ghost var b :| b in snapshots && t == b.(items := t.items);
        OneStored(between, digest, a, b);
      }
    }
  }

  lemma OneStored(snapshots: seq<Snapshot>, digest: string -> string, a: Snapshot, b: Snapshot)
    requires StoreOk(snapshots, digest) && a in snapshots && b in snapshots
    requires a.revision == b.revision && a.fingerprint == b.fingerprint
    ensures a == b
  {
    hide SnapshotOk;
  }

  lemma ItemsArePlain(latest: seq<Latest>, excluded: set<int>)
    requires Digests(latest)
    ensures AllPlain(ItemsOf(latest, excluded))
  {
    forall x | x in ItemsOf(latest, excluded) ensures Plain(IdentityOf(x)) {
      var k :| 0 <= k < |latest| && ItemsOf(latest, excluded)[k] == x;
      assert latest[k] in latest;
    }
  }

  function IncludedAmong(ids: seq<Identity>): nat {
    if ids == [] then 0 else IncludedAmong(ids[..|ids| - 1]) + if ids[|ids| - 1].included then 1 else 0
  }

  lemma {:induction false} CountByIdentity(items: seq<Item>)
    ensures IncludedCount(items) == IncludedAmong(Identities(items))
  {
    if items != [] {
      var n := |items| - 1;
      CountByIdentity(items[..n]);
      assert Identities(items)[..n] == Identities(items[..n]);
    }
  }

  lemma {:induction false} IncludedWithout(ids: seq<Identity>, k: nat)
    requires k < |ids|
    ensures IncludedAmong(ids) == IncludedAmong(ids[..k] + ids[k + 1..]) + if ids[k].included then 1 else 0
  {
    var n := |ids| - 1;
    var rest := ids[..k] + ids[k + 1..];
    if k < n {
      IncludedWithout(ids[..n], k);
      assert rest[..|rest| - 1] == ids[..n][..k] + ids[..n][k + 1..] && rest[|rest| - 1] == ids[n];
    } else {
      assert rest == ids[..n];
    }
  }

  lemma TakenOut(b: seq<Identity>, k: nat)
    requires k < |b|
    ensures multiset(b) == multiset(b[..k] + b[k + 1..]) + multiset{b[k]}
  {
    assert b == b[..k] + ([b[k]] + b[k + 1..]);
  }

  lemma LessOne(a: seq<Identity>, b: seq<Identity>, k: nat)
    requires multiset(a) == multiset(b) && a != [] && k < |b| && b[k] == a[|a| - 1]
    ensures multiset(a[..|a| - 1]) == multiset(b[..k] + b[k + 1..])
  {
    var n := |a| - 1;
    TakenOut(a, n);
    TakenOut(b, k);
    assert a[..n] + a[n + 1..] == a[..n];
    SameWithout(multiset(a[..n]), multiset(b[..k] + b[k + 1..]), b[k]);
  }

  lemma SameWithout(a: multiset<Identity>, b: multiset<Identity>, x: Identity)
    requires a + multiset{x} == b + multiset{x}
    ensures a == b
  {
    assert a + multiset{x} - multiset{x} == a;
    assert b + multiset{x} - multiset{x} == b;
  }

  /** Permuting identities keeps how many of them are included. */
  lemma {:induction false} PermutedCount(a: seq<Identity>, b: seq<Identity>)
    requires multiset(a) == multiset(b)
    ensures IncludedAmong(a) == IncludedAmong(b)
  {
    if a == [] {
      assert |b| == |multiset(b)| == 0;
    } else {
      var x := a[|a| - 1];
      assert x in multiset(b);
      var k :| 0 <= k < |b| && b[k] == x;
      LessOne(a, b, k);
      PermutedCount(a[..|a| - 1], b[..k] + b[k + 1..]);
      IncludedWithout(b, k);
    }
  }

  lemma SameCount(a: seq<Item>, b: seq<Item>)
    requires multiset(Identities(a)) == multiset(Identities(b))
    ensures IncludedCount(a) == IncludedCount(b) && |a| == |b|
  {
    CountByIdentity(a);
    CountByIdentity(b);
    PermutedCount(Identities(a), Identities(b));
    assert |multiset(Identities(a))| == |a| && |multiset(Identities(b))| == |b|;
  }

  lemma StoredIsSame(stored: Snapshot, items: seq<Item>, digest: string -> string)
    requires SnapshotOk(stored, digest) && AllPlain(items) && stored.fingerprint == Fingerprint(items, digest)
    ensures Injective(digest) ==> SameChoice(stored, items) && stored.includedCount == IncludedCount(items) &&
                                  stored.includedCount + stored.excludedCount == |items|
  {
    hide Plain, Fingerprint, IdentityOf;
    if Injective(digest) {
      FingerprintCanonical(stored.items, items, digest);
      SameCount(stored.items, items);
    }
  }

  lemma SeenAll(latest: seq<Latest>, excluded: set<int>, seen: set<int>)
    requires seen == set k | 0 <= k < |latest| && latest[k].version as int in excluded :: latest[k].version as int
    ensures |seen| == |excluded| <==> AllExcludedAreLatest(latest, excluded)
  {
    assert seen <= excluded;
    if AllExcludedAreLatest(latest, excluded) {
      forall id | id in excluded ensures id in seen {
        var k :| 0 <= k < |latest| && latest[k].version as int == id;
      }
      assert seen == excluded;
    } else if |seen| == |excluded| {
      SameSize(seen, excluded);
    }
  }

  lemma SameSize(a: set<int>, b: set<int>)
    requires a <= b && |a| == |b|
    ensures a == b
  {
    assert |b - a| == |b| - |a|;
    assert b == a + (b - a);
  }

  lemma CandidatesHaveItems(latest: seq<Latest>, excluded: set<int>, candidates: seq<Latest>, items: seq<Item>)
    requires items == ItemsOf(latest, excluded) && forall c :: c in candidates ==> c in latest
    ensures forall c :: c in candidates ==> exists k :: 0 <= k < |items| && items[k].version == c.version
  {
    forall c | c in candidates ensures exists k :: 0 <= k < |items| && items[k].version == c.version {
      var k :| 0 <= k < |latest| && latest[k] == c;
      assert items[k].version == c.version;
    }
  }

  predicate Unparsed(v: Latest, excluded: set<int>) {
    v.version as int !in excluded && !(Parsed(v) && v.blockCount > 0)
  }

  predicate Stuck(v: Latest, excluded: set<int>) {
    v.version as int !in excluded && !Usable(v)
  }

  /** The item with a version is that version's item. */
  lemma ItemByVersion(latest: seq<Latest>, excluded: set<int>, item: Item, k: nat)
    requires DistinctVersions(latest) && item in ItemsOf(latest, excluded) && k < |latest| && item.version == latest[k].version
    ensures item == ItemOf(latest[k], excluded)
  {
    var l :| 0 <= l < |latest| && ItemsOf(latest, excluded)[l] == item;
    assert latest[l].version == latest[k].version;
  }

  /** What both passes report together. */
  lemma IssuesExact(latest: seq<Latest>, excluded: set<int>, items: seq<Item>, candidates: seq<Latest>, first: seq<Item>, issues: seq<Item>)
    requires DistinctVersions(latest) && items == ItemsOf(latest, excluded)
    requires forall item :: item in first <==> exists k :: 0 <= k < |latest| && item == ItemOf(latest[k], excluded) && Unparsed(latest[k], excluded)
    requires forall c :: c in candidates <==> c in latest && c.version as int !in excluded && Parsed(c) && c.blockCount > 0
    requires forall x :: x in first ==> x in issues
    requires forall x :: x in issues ==> x in first || (x in items && exists c :: c in candidates && c.blocks == 0 && c.version == x.version)
    requires forall c :: c in candidates && c.blocks == 0 ==> exists x :: x in issues && x in items && x.version == c.version
    ensures IssuesOf(issues, latest, excluded)
  {
    hide ItemOf, DistinctVersions;
    forall item | item in issues
      ensures exists k :: 0 <= k < |latest| && item == ItemOf(latest[k], excluded) && Stuck(latest[k], excluded)
    {
      if item in first {
        var k :| 0 <= k < |latest| && item == ItemOf(latest[k], excluded) && Unparsed(latest[k], excluded);
        assert Stuck(latest[k], excluded);
      } else {
        var c :| c in candidates && c.blocks == 0 && c.version == item.version;
        var l :| 0 <= l < |latest| && latest[l] == c;
        ItemByVersion(latest, excluded, item, l);
        assert Stuck(latest[l], excluded);
      }
    }
    forall k | 0 <= k < |latest| && Stuck(latest[k], excluded) ensures ItemOf(latest[k], excluded) in issues {
      if Parsed(latest[k]) && latest[k].blockCount > 0 {
        assert latest[k] in candidates;
        var x :| x in issues && x in items && x.version == latest[k].version;
        ItemByVersion(latest, excluded, x, k);
      } else {
        assert Unparsed(latest[k], excluded);
        assert ItemOf(latest[k], excluded) in first;
      }
    }
  }

  lemma SomeIssue(latest: seq<Latest>, excluded: set<int>, issues: seq<Item>)
    requires IssuesOf(issues, latest, excluded) && issues != []
    ensures SomeUnusable(latest, excluded)
  {
    hide ItemOf, Stuck;
    assert issues[0] in issues;
  }

  lemma NoIssue(latest: seq<Latest>, excluded: set<int>, issues: seq<Item>)
    requires IssuesOf(issues, latest, excluded)
    ensures SomeUnusable(latest, excluded) ==> issues != []
  {
    hide Stuck;
    if SomeUnusable(latest, excluded) {
      var k :| 0 <= k < |latest| && Stuck(latest[k], excluded);
      assert ItemOf(latest[k], excluded) in issues;
    }
  }

  /** The sources are what the items count as included, when nothing is unusable. */
  lemma {:induction false} SourcesFit(latest: seq<Latest>, excluded: set<int>)
    ensures !SomeUnusable(latest, excluded) ==> |SourcesOf(latest, excluded)| == IncludedCount(ItemsOf(latest, excluded))
  {
    hide Usable;
    if latest != [] {
      var n := |latest| - 1;
      SourcesFit(latest[..n], excluded);
      assert ItemsOf(latest, excluded)[..n] == ItemsOf(latest[..n], excluded);
      if SomeUnusable(latest[..n], excluded) {
        var k :| 0 <= k < n && Stuck(latest[..n][k], excluded);
        assert latest[k] == latest[..n][k];
      }
    }
  }
}
