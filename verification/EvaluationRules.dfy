/** The rules a paired evaluation dataset must satisfy. */
module EvaluationRules {
  import opened Results
  import opened Text

  datatype Observation = Observation(
    key: string, scenario: string, experiment: string, variant: string, replicate: int,
    syntacticValid: Option<bool>, compileValid: Option<bool>, executionValid: Option<bool>, humanAccepted: Option<bool>,
    firstPassSuccess: Option<bool>, repairAttempted: Option<bool>, repairSuccess: Option<bool>, finalSuccess: Option<bool>,
    durationSeconds: Option<real>, coverageBefore: Option<real>, coverageAfter: Option<real>, notes: string)

  datatype Dataset = Dataset(schemaVersion: string, name: string, description: string, observations: seq<Observation>)

  const SCHEMA := "evaluation-v1"
  const CONTEXT := "CONTEXT_IMPACT"
  const REPAIR := "REPAIR_IMPACT"
  const EFFORT := "HUMAN_EFFORT"

  /** Baseline and treatment of each experiment. */
  function Variants(experiment: string): seq<string> {
    if experiment == CONTEXT then ["DIFF_ONLY", "DIFF_RAG"]
    else if experiment == REPAIR then ["GENERATE_ONLY", "GENERATE_REPAIR"]
    else if experiment == EFFORT then ["MANUAL", "AI_ASSISTED"]
    else []
  }

  /** Length in bytes of the UTF-8 encoding, which is what the length limits count. */
  function Bytes(s: string): nat {
    if s == "" then 0 else Bytes(s[..|s| - 1]) + CharBytes(s[|s| - 1])
  }

  function CharBytes(c: char): nat {
    if c as int < 0x80 then 1 else if c as int < 0x800 then 2 else if c as int < 0x10000 then 3 else 4
  }

  function PowerOfTwo(n: nat): nat {
    if n == 0 then 1 else 2 * PowerOfTwo(n - 1)
  }

  /** How many bits of a code point n bytes carry: seven in one, else what the first byte leaves and six in each other. */
  function Payload(n: nat): nat
    requires 1 <= n <= 4
  {
    if n == 1 then 7 else (7 - n) + 6 * (n - 1)
  }

  /** A character takes the least number of bytes that carries its code point; a text takes what its characters take. */
  lemma BytesExactly(s: string, c: char, n: nat)
    requires 1 <= n <= 4
    ensures Bytes("") == 0 && Bytes(s + [c]) == Bytes(s) + CharBytes(c)
    ensures 1 <= CharBytes(c) <= 4 && (CharBytes(c) <= n <==> (c as int) < PowerOfTwo(Payload(n)) || n == 4)
  {
    assert (s + [c])[..|s|] == s;
    Powers();
  }

  lemma Powers()
    ensures PowerOfTwo(7) == 0x80 && PowerOfTwo(11) == 0x800 && PowerOfTwo(16) == 0x10000
  {
    assert PowerOfTwo(4) == 16;
    assert PowerOfTwo(8) == 256;
    assert PowerOfTwo(12) == 4096;
  }

  predicate True(value: Option<bool>) {
    value == Some(true)
  }

  predicate Percentage(value: Option<real>) {
    value.Some? ==> 0.0 <= value.value <= 100.0
  }

  /** What the repair metrics of one observation must say about each other. */
  predicate RepairMetricsOk(o: Observation) {
    && o.firstPassSuccess.Some? && o.finalSuccess.Some?
    && if o.variant == "GENERATE_ONLY" then
         o.repairAttempted == None && o.repairSuccess == None && o.firstPassSuccess == o.finalSuccess
       else
         && o.repairAttempted.Some?
         && o.repairAttempted.value == o.repairSuccess.Some?
         && !(o.firstPassSuccess.value && o.repairAttempted.value)
         && (o.firstPassSuccess.value || o.repairAttempted.value)
         && o.finalSuccess.value == (o.firstPassSuccess.value || True(o.repairSuccess))
  }

  predicate ExperimentMetricsOk(o: Observation) {
    if o.experiment == CONTEXT then
      o.syntacticValid.Some? && o.compileValid.Some? && o.executionValid.Some? && o.humanAccepted.Some? &&
      o.coverageBefore.Some? && o.coverageAfter.Some?
    else if o.experiment == REPAIR then
      o.syntacticValid.Some? && o.compileValid.Some? && o.executionValid.Some? &&
      RepairMetricsOk(o) && o.finalSuccess == o.executionValid
    else
      o.durationSeconds.Some? && o.humanAccepted.Some? && o.coverageBefore.Some? && o.coverageAfter.Some?
  }

  predicate ValidObservation(o: Observation) {
    && TrimSpace(o.key) != "" && Bytes(o.key) <= 200
    && TrimSpace(o.scenario) != "" && Bytes(o.scenario) <= 500
    && o.variant in Variants(o.experiment)
    && o.replicate > 0 && Bytes(o.notes) <= 4000
    && Percentage(o.coverageBefore) && Percentage(o.coverageAfter)
    && (o.durationSeconds.Some? ==> o.durationSeconds.value > 0.0)
    && (True(o.compileValid) ==> True(o.syntacticValid))
    && (True(o.executionValid) ==> True(o.compileValid))
    && (True(o.repairSuccess) ==> True(o.repairAttempted))
    && (True(o.firstPassSuccess) ==> True(o.finalSuccess))
    && ExperimentMetricsOk(o)
  }

  /** validateObservation, check by check. */
  method ValidateObservation(o: Observation) returns (ok: bool)
    ensures ok <==> ValidObservation(o)
  {
    hide Bytes, TrimSpace;
    if TrimSpace(o.key) == "" || Bytes(o.key) > 200 {
      return false;
    }
    if TrimSpace(o.scenario) == "" || Bytes(o.scenario) > 500 {
      return false;
    }
    var variants := Variants(o.experiment);
    if |variants| == 0 || (o.variant != variants[0] && o.variant != variants[1]) {
      return false;
    }
    if o.replicate <= 0 || Bytes(o.notes) > 4000 {
      return false;
    }
    if o.coverageBefore != None && (o.coverageBefore.value < 0.0 || o.coverageBefore.value > 100.0) {
      return false;
    }
    if o.coverageAfter != None && (o.coverageAfter.value < 0.0 || o.coverageAfter.value > 100.0) {
      return false;
    }
    if o.durationSeconds != None && o.durationSeconds.value <= 0.0 {
      return false;
    }
    if o.compileValid == Some(true) && o.syntacticValid != Some(true) {
      return false;
    }
    if o.executionValid == Some(true) && o.compileValid != Some(true) {
      return false;
    }
    if o.repairSuccess == Some(true) && o.repairAttempted != Some(true) {
      return false;
    }
    if o.firstPassSuccess == Some(true) && o.finalSuccess != Some(true) {
      return false;
    }
    if o.experiment == CONTEXT {
      return !(o.syntacticValid == None || o.compileValid == None || o.executionValid == None || o.humanAccepted == None ||
               o.coverageBefore == None || o.coverageAfter == None);
    }
    if o.experiment == REPAIR {
      if o.syntacticValid == None || o.compileValid == None || o.executionValid == None || o.firstPassSuccess == None ||
         o.finalSuccess == None {
        return false;
      }
      if o.variant == "GENERATE_ONLY" {
        if o.repairAttempted != None || o.repairSuccess != None || o.firstPassSuccess.value != o.finalSuccess.value {
          return false;
        }
      } else {
        if o.repairAttempted == None || o.repairAttempted.value != (o.repairSuccess != None) {
          return false;
        }
        if o.firstPassSuccess.value && o.repairAttempted.value {
          return false;
        }
        if !o.firstPassSuccess.value && !o.repairAttempted.value {
          return false;
        }
        if o.finalSuccess.value != (o.firstPassSuccess.value || o.repairSuccess == Some(true)) {
          return false;
        }
      }
      return o.finalSuccess.value == o.executionValid.value;
    }
    ok := o.durationSeconds != None && o.humanAccepted != None && o.coverageBefore != None && o.coverageAfter != None;
  }

  // ---- pairs ----

  datatype Pair = Pair(experiment: string, scenario: string, replicate: int)

  function PairOf(o: Observation): Pair {
    Pair(o.experiment, o.scenario, o.replicate)
  }

  /** The text the program uses as the key of a pair. */
  function PairKey(p: Pair): string
    requires p.replicate >= 0
  {
    p.experiment + [NUL] + p.scenario + [NUL] + Decimal(p.replicate)
  }

  /** The key tells pairs apart even if a scenario contains NULs, because experiments and numbers do not. */
  lemma PairKeyTells(a: Pair, b: Pair)
    requires a.replicate >= 0 && b.replicate >= 0 && NUL !in a.experiment && NUL !in b.experiment
    ensures PairKey(a) == PairKey(b) <==> a == b
  {
    hide Decimal;
    if PairKey(a) == PairKey(b) {
      var x, y := a.scenario + [NUL] + Decimal(a.replicate), b.scenario + [NUL] + Decimal(b.replicate);
      assert PairKey(a) == a.experiment + [NUL] + x && PairKey(b) == b.experiment + [NUL] + y;
      FirstField(a.experiment, b.experiment, x, y);
      LastField(a.scenario, b.scenario, Decimal(a.replicate), Decimal(b.replicate));
      DecimalRoundTrip(a.replicate);
      DecimalRoundTrip(b.replicate);
    }
  }

  lemma NotShorter(s: string, t: string, x: string, y: string)
    requires NUL !in t && s + [NUL] + x == t + [NUL] + y
    ensures |t| <= |s|
  {
    var w := s + [NUL] + x;
    forall k | 0 <= k < |t| ensures w[k] != NUL {
      assert w[k] == t[k];
    }
    assert w[|s|] == NUL;
  }

  lemma FirstField(s: string, t: string, x: string, y: string)
    requires NUL !in s && NUL !in t && s + [NUL] + x == t + [NUL] + y
    ensures s == t && x == y
  {
    NotShorter(s, t, x, y);
    NotShorter(t, s, y, x);
    var w := s + [NUL] + x;
    assert w[..|s|] == s && w[..|t|] == t && w[|s| + 1..] == x && w[|t| + 1..] == y;
  }

  lemma NotLonger(s: string, t: string, d: string, e: string)
    requires AllDigits(d) && s + [NUL] + d == t + [NUL] + e
    ensures |t| <= |s|
  {
    var w := s + [NUL] + d;
    assert !IsDigit(NUL);
    forall k | |s| < k < |w| ensures w[k] != NUL {
      assert w[k] == d[k - |s| - 1];
    }
    assert w[|t|] == NUL;
  }

  lemma LastField(s: string, t: string, d: string, e: string)
    requires AllDigits(d) && AllDigits(e) && s + [NUL] + d == t + [NUL] + e
    ensures s == t && d == e
  {
    NotLonger(s, t, d, e);
    NotLonger(t, s, e, d);
    var w := s + [NUL] + d;
    assert w[..|s|] == s && w[..|t|] == t && w[|s| + 1..] == d && w[|t| + 1..] == e;
  }

  predicate KeysDistinct(os: seq<Observation>) {
    forall i, j :: 0 <= i < j < |os| ==> os[i].key != os[j].key
  }

  /** No pair has the same variant twice. */
  predicate OncePerVariant(os: seq<Observation>) {
    forall i, j :: 0 <= i < j < |os| && PairOf(os[i]) == PairOf(os[j]) ==> os[i].variant != os[j].variant
  }

  predicate HasVariant(os: seq<Observation>, p: Pair, variant: string) {
    exists i :: 0 <= i < |os| && PairOf(os[i]) == p && os[i].variant == variant
  }

  /** Every pair has both variants of its experiment. */
  predicate Paired(os: seq<Observation>) {
    forall i, v :: 0 <= i < |os| && v in Variants(os[i].experiment) ==> HasVariant(os, PairOf(os[i]), v)
  }

  predicate HasExperiment(os: seq<Observation>, experiment: string) {
    exists i :: 0 <= i < |os| && os[i].experiment == experiment
  }

  predicate ObservationsOk(os: seq<Observation>) {
    && (forall i :: 0 <= i < |os| ==> ValidObservation(os[i]))
    && KeysDistinct(os) && OncePerVariant(os) && Paired(os)
    && HasExperiment(os, CONTEXT) && HasExperiment(os, REPAIR) && HasExperiment(os, EFFORT)
  }

  predicate ValidDataset(d: Dataset) {
    && d.schemaVersion == SCHEMA
    && TrimSpace(d.name) != "" && Bytes(d.name) <= 200 && Bytes(d.description) <= 4000
    && d.observations != [] && ObservationsOk(d.observations)
  }

  // ---- validation ----

  /** The variants seen so far of every pair. */
  ghost predicate Collected(pairs: map<Pair, set<string>>, os: seq<Observation>) {
    forall p, v :: (p in pairs && v in pairs[p]) <==> HasVariant(os, p, v)
  }

  predicate NoEmptyPair(pairs: map<Pair, set<string>>, os: seq<Observation>) {
    forall p :: p in pairs ==> exists i :: 0 <= i < |os| && PairOf(os[i]) == p
  }

  /** The first loop: rules of single observations, unique keys, one observation per pair and variant. */
  method CollectPairs(os: seq<Observation>) returns (ok: bool, pairs: map<Pair, set<string>>)
    ensures ok <==> (forall i :: 0 <= i < |os| ==> ValidObservation(os[i])) && KeysDistinct(os) && OncePerVariant(os)
    ensures ok ==> Collected(pairs, os) && NoEmptyPair(pairs, os)
  {
    hide ValidObservation, HasVariant, KeysDistinct, OncePerVariant, Collected, NoEmptyPair;
    var keys: set<string> := {};
    pairs := map[];
    NothingCollected();
    var i := 0;
    while i < |os|
      invariant 0 <= i <= |os|
      invariant forall k :: 0 <= k < i ==> ValidObservation(os[k])
      invariant forall x :: x in keys <==> exists k :: 0 <= k < i && os[k].key == x
      invariant KeysDistinct(os[..i]) && OncePerVariant(os[..i])
      invariant Collected(pairs, os[..i]) && NoEmptyPair(pairs, os[..i])
    {
      var o := os[i];
      OneMore(os, i);
      var valid := ValidateObservation(o);
      if !valid {
        return false, pairs;
      }
      if o.key in keys {
        RepeatedKey(os, i);
        return false, pairs;
      }
      keys := keys + {o.key};
      var p := PairOf(o);
      var seen := if p in pairs then pairs[p] else {};
      SeenIs(pairs, os[..i], p, seen, o.variant);
      if o.variant in seen {
        RepeatedVariant(os, i);
        return false, pairs;
      }
      Collect(pairs, os, i, seen);
      pairs := pairs[p := seen + {o.variant}];
      i := i + 1;
    }
    assert os[..|os|] == os;
    ok := true;
  }

  lemma NothingCollected()
    ensures Collected(map[], []) && NoEmptyPair(map[], []) && KeysDistinct([]) && OncePerVariant([])
  {
  }

  lemma OneMore(os: seq<Observation>, i: nat)
    requires i < |os| && KeysDistinct(os[..i]) && OncePerVariant(os[..i])
    ensures KeysDistinct(os[..i + 1]) <==> forall k :: 0 <= k < i ==> os[k].key != os[i].key
    ensures OncePerVariant(os[..i + 1]) <==> !HasVariant(os[..i], PairOf(os[i]), os[i].variant)
  {
    var a, b := os[..i], os[..i + 1];
    assert b[i] == os[i];
    forall k, l | 0 <= k < l < i ensures b[k].key != b[l].key && (PairOf(b[k]) == PairOf(b[l]) ==> b[k].variant != b[l].variant) {
      assert a[k] == b[k] && a[l] == b[l];
    }
    if HasVariant(a, PairOf(os[i]), os[i].variant) {
      var k :| 0 <= k < i && PairOf(a[k]) == PairOf(os[i]) && a[k].variant == os[i].variant;
      assert b[k] == a[k];
    } else {
      forall k | 0 <= k < i && PairOf(b[k]) == PairOf(b[i]) ensures b[k].variant != b[i].variant {
        assert a[k] == b[k];
      }
    }
    if forall k :: 0 <= k < i ==> os[k].key != os[i].key {
      assert forall k :: 0 <= k < i ==> b[k] == os[k];
    } else {
      var k :| 0 <= k < i && os[k].key == os[i].key;
      assert b[k] == os[k];
    }
  }

  lemma RepeatedKey(os: seq<Observation>, i: nat)
    requires i < |os| && exists k :: 0 <= k < i && os[k].key == os[i].key
    ensures !KeysDistinct(os)
  {
  }

  lemma RepeatedVariant(os: seq<Observation>, i: nat)
    requires i < |os| && HasVariant(os[..i], PairOf(os[i]), os[i].variant)
    ensures !OncePerVariant(os)
  {
    var k :| 0 <= k < i && PairOf(os[..i][k]) == PairOf(os[i]) && os[..i][k].variant == os[i].variant;
    assert os[k] == os[..i][k];
  }

  lemma SeenIs(pairs: map<Pair, set<string>>, os: seq<Observation>, p: Pair, seen: set<string>, variant: string)
    requires Collected(pairs, os) && seen == if p in pairs then pairs[p] else {}
    ensures variant in seen <==> HasVariant(os, p, variant)
  {
    hide HasVariant;
  }

  lemma Collect(pairs: map<Pair, set<string>>, os: seq<Observation>, i: nat, seen: set<string>)
    requires i < |os| && Collected(pairs, os[..i]) && NoEmptyPair(pairs, os[..i])
    requires seen == if PairOf(os[i]) in pairs then pairs[PairOf(os[i])] else {}
    ensures Collected(pairs[PairOf(os[i]) := seen + {os[i].variant}], os[..i + 1])
    ensures NoEmptyPair(pairs[PairOf(os[i]) := seen + {os[i].variant}], os[..i + 1])
  {
    var after := pairs[PairOf(os[i]) := seen + {os[i].variant}];
    var a, b := os[..i], os[..i + 1];
    forall p, v ensures (p in after && v in after[p]) <==> HasVariant(b, p, v) {
      assert (p in pairs && v in pairs[p]) <==> HasVariant(a, p, v);
    }
    forall p | p in after ensures exists k :: 0 <= k < |b| && PairOf(b[k]) == p {
      if p == PairOf(os[i]) {
        assert PairOf(b[i]) == p;
      } else {
        var k :| 0 <= k < |a| && PairOf(a[k]) == p;
        assert b[k] == a[k];
      }
    }
  }

  method PairComplete(pairs: map<Pair, set<string>>, p: Pair, ghost os: seq<Observation>) returns (ok: bool)
    requires Collected(pairs, os) && p in pairs
    ensures ok <==> forall v :: v in Variants(p.experiment) ==> HasVariant(os, p, v)
  {
    hide Collected, HasVariant, Variants;
    var expected := Variants(p.experiment);
    var i := 0;
    while i < |expected|
      invariant 0 <= i <= |expected|
      invariant forall k :: 0 <= k < i ==> HasVariant(os, p, expected[k])
    {
      VariantSeen(pairs, os, p, expected[i]);
      if expected[i] !in pairs[p] {
        return false;
      }
      i := i + 1;
    }
    ok := true;
  }

  /** The second loop: every pair has every variant its experiment asks for. */
  method PairsComplete(pairs: map<Pair, set<string>>, ghost os: seq<Observation>) returns (ok: bool)
    requires Collected(pairs, os) && NoEmptyPair(pairs, os)
    requires forall i :: 0 <= i < |os| ==> os[i].variant in Variants(os[i].experiment)
    ensures ok <==> Paired(os)
  {
    hide Collected, HasVariant, Paired, Variants, NoEmptyPair;
    var todo := pairs.Keys;
    while todo != {}
      invariant todo <= pairs.Keys
      invariant forall p, v :: p in pairs && p !in todo && v in Variants(p.experiment) ==> HasVariant(os, p, v)
    {
      var p :| p in todo;
      todo := todo - {p};
      var complete := PairComplete(pairs, p, os);
      if !complete {
        ghost var v :| v in Variants(p.experiment) && !HasVariant(os, p, v);
        IncompletePair(pairs, os, p, v);
        return false;
      }
    }
    CompletePairs(pairs, os);
    ok := true;
  }

  lemma VariantSeen(pairs: map<Pair, set<string>>, os: seq<Observation>, p: Pair, v: string)
    requires Collected(pairs, os) && p in pairs
    ensures v in pairs[p] <==> HasVariant(os, p, v)
  {
    hide HasVariant;
  }

  lemma IncompletePair(pairs: map<Pair, set<string>>, os: seq<Observation>, p: Pair, v: string)
    requires NoEmptyPair(pairs, os) && p in pairs && v in Variants(p.experiment) && !HasVariant(os, p, v)
    ensures !Paired(os)
  {
    hide HasVariant;
    var i :| 0 <= i < |os| && PairOf(os[i]) == p;
  }

  lemma CompletePairs(pairs: map<Pair, set<string>>, os: seq<Observation>)
    requires Collected(pairs, os)
    requires forall i :: 0 <= i < |os| ==> os[i].variant in Variants(os[i].experiment)
    requires forall p, v :: p in pairs && v in Variants(p.experiment) ==> HasVariant(os, p, v)
    ensures Paired(os)
  {
    forall i, v | 0 <= i < |os| && v in Variants(os[i].experiment) ensures HasVariant(os, PairOf(os[i]), v) {
      assert HasVariant(os, PairOf(os[i]), os[i].variant);
      assert PairOf(os[i]) in pairs;
    }
  }

  method ExperimentPresent(os: seq<Observation>, experiment: string) returns (found: bool)
    ensures found <==> HasExperiment(os, experiment)
  {
    found := false;
    var i := 0;
    while i < |os|
      invariant 0 <= i <= |os| && forall k :: 0 <= k < i ==> os[k].experiment != experiment
    {
      if os[i].experiment == experiment {
        return true;
      }
      i := i + 1;
    }
  }

  method ValidateDataset(d: Dataset) returns (ok: bool)
    ensures ok <==> ValidDataset(d)
  {
    hide ValidObservation, KeysDistinct, OncePerVariant, Paired, HasExperiment, Bytes, TrimSpace, Collected, NoEmptyPair;
    if d.schemaVersion != "evaluation-v1" || TrimSpace(d.name) == "" || Bytes(d.name) > 200 || Bytes(d.description) > 4000 ||
       |d.observations| == 0 {
      return false;
    }
    var single, pairs := CollectPairs(d.observations);
    if !single {
      return false;
    }
    forall i | 0 <= i < |d.observations| ensures d.observations[i].variant in Variants(d.observations[i].experiment) {
      VariantFits(d.observations[i]);
    }
    var complete := PairsComplete(pairs, d.observations);
    if !complete {
      return false;
    }
    var context := ExperimentPresent(d.observations, CONTEXT);
    var repair := ExperimentPresent(d.observations, REPAIR);
    var effort := ExperimentPresent(d.observations, EFFORT);
    ok := context && repair && effort;
  }

  lemma VariantFits(o: Observation)
    requires ValidObservation(o)
    ensures o.variant in Variants(o.experiment)
  {
    hide Bytes, TrimSpace, ExperimentMetricsOk, Variants;
  }
}
