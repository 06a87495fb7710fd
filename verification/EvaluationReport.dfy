/** Grouping, rates and comparisons over a valid dataset, and the counting laws its rules imply. */
module EvaluationReport {
  import opened Results
  import opened Sorting
  import opened EvaluationRules

  datatype Rate = Rate(successes: nat, total: nat, pct: real)

  datatype Summary = Summary(experiment: string, variant: string, count: nat,
                             syntactic: Option<Rate>, compile: Option<Rate>, execution: Option<Rate>, accepted: Option<Rate>,
                             firstPass: Option<Rate>, repair: Option<Rate>, final: Option<Rate>,
                             meanDuration: Option<real>, meanDelta: Option<real>)

  datatype Comparison = Comparison(experiment: string, baseline: string, treatment: string,
                                   syntactic: Option<real>, compile: Option<real>, execution: Option<real>, accepted: Option<real>,
                                   firstPass: Option<real>, final: Option<real>, repairRate: Option<real>,
                                   coverage: Option<real>, durationReduction: Option<real>, durationPct: Option<real>)

  datatype Report = Report(schemaVersion: string, name: string, hash: string, description: string,
                           groups: seq<Summary>, comparisons: seq<Comparison>)

  // ---- arithmetic ----

  /** Two decimals, halves away from zero: the conversion to an integer truncates toward zero. */
  function Round(value: real): real {
    if value >= 0.0 then (value * 100.0 + 0.5).Floor as real / 100.0
    else -((-value * 100.0 + 0.5).Floor as real / 100.0)
  }

  lemma RoundMonotone(x: real, y: real)
    requires 0.0 <= x <= y
    ensures Round(x) <= Round(y)
  {
    FloorMonotone(x * 100.0 + 0.5, y * 100.0 + 0.5);
  }

  lemma FloorMonotone(x: real, y: real)
    requires x <= y
    ensures x.Floor <= y.Floor
  {
  }

  // ---- rates ----

  type Metric = Observation -> Option<bool>
  type Measure = Observation -> Option<real>

  function Syntactic(o: Observation): Option<bool> { o.syntacticValid }
  function Compile(o: Observation): Option<bool> { o.compileValid }
  function Execution(o: Observation): Option<bool> { o.executionValid }
  function Accepted(o: Observation): Option<bool> { o.humanAccepted }
  function FirstPass(o: Observation): Option<bool> { o.firstPassSuccess }
  function Repaired(o: Observation): Option<bool> { o.repairSuccess }
  function Final(o: Observation): Option<bool> { o.finalSuccess }
  function Duration(o: Observation): Option<real> { o.durationSeconds }
  function CoverageDelta(o: Observation): Option<real> {
    if o.coverageBefore == None || o.coverageAfter == None then None
    else Some(o.coverageAfter.value - o.coverageBefore.value)
  }

  /** Observations that report the metric. */
  function Reported(os: seq<Observation>, f: Metric): nat {
    if os == [] then 0 else Reported(os[..|os| - 1], f) + if f(os[|os| - 1]).Some? then 1 else 0
  }

  /** Observations that report it as true. */
  function Successes(os: seq<Observation>, f: Metric): nat {
    if os == [] then 0 else Successes(os[..|os| - 1], f) + if f(os[|os| - 1]) == Some(true) then 1 else 0
  }

  function RateOf(os: seq<Observation>, f: Metric): Option<Rate> {
    if Reported(os, f) == 0 then None
    else Some(Rate(Successes(os, f), Reported(os, f), Round(Successes(os, f) as real / Reported(os, f) as real * 100.0)))
  }

  method BoolRate(os: seq<Observation>, f: Metric) returns (rate: Option<Rate>)
    ensures rate == RateOf(os, f)
  {
    hide Round;
    var total, successes := 0, 0;
    var i := 0;
    while i < |os|
      invariant 0 <= i <= |os| && total == Reported(os[..i], f) && successes == Successes(os[..i], f)
    {
      assert os[..i + 1][..i] == os[..i];
      var value := f(os[i]);
      i := i + 1;
      if value == None {
        continue;
      }
      total := total + 1;
      if value.value {
        successes := successes + 1;
      }
    }
    assert os[..|os|] == os;
    if total == 0 {
      return None;
    }
    rate := Some(Rate(successes, total, Round(successes as real / total as real * 100.0)));
  }

  function Measured(os: seq<Observation>, f: Measure): nat {
    if os == [] then 0 else Measured(os[..|os| - 1], f) + if f(os[|os| - 1]).Some? then 1 else 0
  }

  function SumOf(os: seq<Observation>, f: Measure): real {
    if os == [] then 0.0 else SumOf(os[..|os| - 1], f) + if f(os[|os| - 1]).Some? then f(os[|os| - 1]).value else 0.0
  }

  function MeanOf(os: seq<Observation>, f: Measure): Option<real> {
    if Measured(os, f) == 0 then None else Some(Round(SumOf(os, f) / Measured(os, f) as real))
  }

  method Mean(os: seq<Observation>, f: Measure) returns (mean: Option<real>)
    ensures mean == MeanOf(os, f)
  {
    hide Round;
    var total, count := 0.0, 0;
    var i := 0;
    while i < |os|
      invariant 0 <= i <= |os| && total == SumOf(os[..i], f) && count == Measured(os[..i], f)
    {
      assert os[..i + 1][..i] == os[..i];
      var value := f(os[i]);
      i := i + 1;
      if value == None {
        continue;
      }
      total, count := total + value.value, count + 1;
    }
    assert os[..|os|] == os;
    if count == 0 {
      return None;
    }
    mean := Some(Round(total / count as real));
  }

  // ---- groups ----

  type Key = (string, string)

  const KEYS: seq<Key> := [
    (CONTEXT, "DIFF_ONLY"), (CONTEXT, "DIFF_RAG"), (REPAIR, "GENERATE_ONLY"), (REPAIR, "GENERATE_REPAIR"),
    (EFFORT, "MANUAL"), (EFFORT, "AI_ASSISTED")]

  function KeyOf(o: Observation): Key {
    (o.experiment, o.variant)
  }

  function Group(os: seq<Observation>, key: Key): seq<Observation> {
    if os == [] then []
    else Group(os[..|os| - 1], key) + if KeyOf(os[|os| - 1]) == key then [os[|os| - 1]] else []
  }

  /** The summary of a group; an empty group has no entry in the report and no summary worth the name. */
  function Summarized(key: Key, os: seq<Observation>): Summary {
    Summary(key.0, key.1, |os|, RateOf(os, Syntactic), RateOf(os, Compile), RateOf(os, Execution), RateOf(os, Accepted),
            RateOf(os, FirstPass), RateOf(os, Repaired), RateOf(os, Final), MeanOf(os, Duration), MeanOf(os, CoverageDelta))
  }

  method Summarize(os: seq<Observation>) returns (s: Summary)
    requires os != []
    ensures s == Summarized(KeyOf(os[0]), os)
  {
    hide RateOf, MeanOf;
    var syntactic := BoolRate(os, Syntactic);
    var compile := BoolRate(os, Compile);
    var execution := BoolRate(os, Execution);
    var accepted := BoolRate(os, Accepted);
    var firstPass := BoolRate(os, FirstPass);
    var repair := BoolRate(os, Repaired);
    var final := BoolRate(os, Final);
    var duration := Mean(os, Duration);
    var delta := Mean(os, CoverageDelta);
    s := Summary(os[0].experiment, os[0].variant, |os|, syntactic, compile, execution, accepted, firstPass, repair, final,
                 duration, delta);
  }

  /** Position in the report. */
  function GroupOrder(s: Summary): nat {
    var key := (s.experiment, s.variant);
    if key == KEYS[0] then 1 else if key == KEYS[1] then 2 else if key == KEYS[2] then 3
    else if key == KEYS[3] then 4 else if key == KEYS[4] then 5 else if key == KEYS[5] then 6 else 0
  }

  predicate GroupLe(a: Summary, b: Summary) {
    GroupOrder(a) <= GroupOrder(b)
  }

  /** The six summaries in the order of the experiments. */
  function SixGroups(os: seq<Observation>): (groups: seq<Summary>)
    ensures |groups| == 6 && forall i :: 0 <= i < 6 ==> groups[i] == Summarized(KEYS[i], Group(os, KEYS[i]))
  {
    seq(6, i requires 0 <= i < 6 => Summarized(KEYS[i], Group(os, KEYS[i])))
  }

  lemma {:induction false} GroupHolds(os: seq<Observation>, key: Key)
    ensures forall o :: o in Group(os, key) <==> o in os && KeyOf(o) == key
  {
    if os != [] {
      var n := |os| - 1;
      GroupHolds(os[..n], key);
      assert os == os[..n] + [os[n]];
    }
  }

  ghost predicate GroupedBy(grouped: map<Key, seq<Observation>>, os: seq<Observation>) {
    forall key :: if Group(os, key) == [] then key !in grouped else key in grouped && grouped[key] == Group(os, key)
  }

  method GroupObservations(os: seq<Observation>) returns (grouped: map<Key, seq<Observation>>)
    ensures GroupedBy(grouped, os)
  {
    grouped := map[];
    var i := 0;
    while i < |os|
      invariant 0 <= i <= |os| && GroupedBy(grouped, os[..i])
    {
      assert os[..i + 1][..i] == os[..i];
      var key := KeyOf(os[i]);
      grouped := grouped[key := (if key in grouped then grouped[key] else []) + [os[i]]];
      assert forall k :: Group(os[..i + 1], k) == Group(os[..i], k) + if k == key then [os[i]] else [];
      i := i + 1;
    }
    assert os[..|os|] == os;
  }

  lemma KeyPopulated(os: seq<Observation>, key: Key)
    requires ObservationsOk(os) && key in KEYS
    ensures Group(os, key) != []
  {
    hide KeysDistinct, OncePerVariant, Bytes, ValidObservation, Group;
    GroupHolds(os, key);
    var i :| 0 <= i < |os| && os[i].experiment == key.0;
    assert key.1 in Variants(os[i].experiment);
    assert HasVariant(os, PairOf(os[i]), key.1);
    var j :| 0 <= j < |os| && PairOf(os[j]) == PairOf(os[i]) && os[j].variant == key.1;
    assert os[j] in Group(os, key);
  }

  /** Exactly the six groups of the experiments are populated. */
  lemma SixKeys(os: seq<Observation>, key: Key)
    requires ObservationsOk(os)
    ensures Group(os, key) != [] <==> key in KEYS
  {
    hide KeysDistinct, OncePerVariant, Paired, Bytes, ValidObservation, Group;
    if key in KEYS {
      KeyPopulated(os, key);
    }
    if Group(os, key) != [] {
      GroupHolds(os, key);
      var o := Group(os, key)[0];
      assert o in Group(os, key);
      var i :| 0 <= i < |os| && os[i] == o;
      VariantFits(os[i]);
    }
  }

  method SummarizeAll(grouped: map<Key, seq<Observation>>, ghost os: seq<Observation>) returns (groups: seq<Summary>)
    requires ObservationsOk(os) && GroupedBy(grouped, os)
    ensures Distinct(groups) && forall s :: s in groups <==> s in SixGroups(os)
  {
    hide Summarized, ObservationsOk, GroupedBy, Group, Distinct;
    groups := [];
    assert Distinct(groups) by { NothingRepeats(); }
    var todo := grouped.Keys;
    while todo != {}
      invariant todo <= grouped.Keys
      invariant Distinct(groups)
      invariant forall s :: s in groups <==> exists key :: key in grouped && key !in todo && s == Summarized(key, Group(os, key))
    {
      var key :| key in todo;
      GroupIs(grouped, os, key);
      var s := Summarize(grouped[key]);
      forall k | k in grouped && k !in todo ensures Summarized(k, Group(os, k)) != s {
        SummaryTellsKey(k, Group(os, k), key, Group(os, key));
      }
      assert s !in groups;
      DistinctAppend(groups, s);
      groups := groups + [s];
      todo := todo - {key};
    }
    AllSix(grouped, os, groups);
  }

  lemma NothingRepeats()
    ensures Distinct<Summary>([])
  {
  }

  lemma GroupIs(grouped: map<Key, seq<Observation>>, os: seq<Observation>, key: Key)
    requires GroupedBy(grouped, os) && key in grouped
    ensures grouped[key] == Group(os, key) != [] && KeyOf(grouped[key][0]) == key
  {
    GroupHolds(os, key);
    assert Group(os, key) != [];
    assert Group(os, key)[0] in Group(os, key);
  }

  lemma SummaryTellsKey(k: Key, a: seq<Observation>, l: Key, b: seq<Observation>)
    requires k != l
    ensures Summarized(k, a) != Summarized(l, b)
  {
    hide RateOf, MeanOf;
  }

  lemma AllSix(grouped: map<Key, seq<Observation>>, os: seq<Observation>, groups: seq<Summary>)
    requires ObservationsOk(os) && GroupedBy(grouped, os)
    requires forall s :: s in groups <==> exists key :: key in grouped && s == Summarized(key, Group(os, key))
    ensures forall s :: s in groups <==> s in SixGroups(os)
  {
    hide Summarized, ObservationsOk, Group;
    forall s ensures s in groups <==> s in SixGroups(os) {
      if s in groups {
        var key :| key in grouped && s == Summarized(key, Group(os, key));
        SixKeys(os, key);
        var i :| 0 <= i < |KEYS| && KEYS[i] == key;
        assert SixGroups(os)[i] == s;
      }
      if s in SixGroups(os) {
        var i :| 0 <= i < 6 && SixGroups(os)[i] == s;
        assert KEYS[i] in KEYS;
        SixKeys(os, KEYS[i]);
      }
    }
  }

  lemma SortedSix(os: seq<Observation>, groups: seq<Summary>)
    requires Distinct(groups) && forall s :: s in groups <==> s in SixGroups(os)
    ensures Sort(GroupLe, groups) == SixGroups(os)
  {
    hide Summarized, Sort, Distinct;
    var six := SixGroups(os);
    SixOrders(os);
    assert Distinct(six) by { SixDistinct(os); }
    DistinctPermutation(groups, six);
    SortSorts(GroupLe, groups);
    SixSeparate(os);
    SortedUnique(GroupLe, six, Sort(GroupLe, groups));
  }

  lemma SixOrders(os: seq<Observation>)
    ensures forall i :: 0 <= i < 6 ==> GroupOrder(SixGroups(os)[i]) == i + 1
    ensures SortedBy(GroupLe, SixGroups(os)) && Total(GroupLe) && Transitive(GroupLe)
  {
    hide RateOf, MeanOf, Group;
    forall i | 0 <= i < 6 ensures GroupOrder(SixGroups(os)[i]) == i + 1 {
      assert SixGroups(os)[i] == Summarized(KEYS[i], Group(os, KEYS[i]));
    }
  }

  lemma SixDistinct(os: seq<Observation>)
    ensures Distinct(SixGroups(os))
  {
    hide Summarized, GroupOrder, GroupLe, Group;
    SixOrders(os);
  }

  lemma SixSeparate(os: seq<Observation>)
    ensures Separates(GroupLe, SixGroups(os))
  {
    hide Summarized, GroupOrder, Group;
    SixOrders(os);
    var six := SixGroups(os);
    forall x, y | x in six && y in six && GroupLe(x, y) && GroupLe(y, x) ensures x == y {
      var i :| 0 <= i < 6 && six[i] == x;
      var j :| 0 <= j < 6 && six[j] == y;
    }
  }

  // ---- comparisons ----

  function RateDelta(baseline: Option<Rate>, treatment: Option<Rate>): Option<real> {
    if baseline == None || treatment == None then None else Some(Round(treatment.value.pct - baseline.value.pct))
  }

  function ValueDelta(baseline: Option<real>, treatment: Option<real>): Option<real> {
    if baseline == None || treatment == None then None else Some(Round(treatment.value - baseline.value))
  }

  function Compare(experiment: string, b: Summary, t: Summary): Comparison {
    var both := b.meanDuration.Some? && t.meanDuration.Some?;
    var reduction := if both then Round(b.meanDuration.value - t.meanDuration.value) else 0.0;
    Comparison(experiment, b.variant, t.variant, RateDelta(b.syntactic, t.syntactic), RateDelta(b.compile, t.compile),
               RateDelta(b.execution, t.execution), RateDelta(b.accepted, t.accepted), RateDelta(b.firstPass, t.firstPass),
               RateDelta(b.final, t.final), if t.repair.Some? then Some(t.repair.value.pct) else None,
               ValueDelta(b.meanDelta, t.meanDelta), if both then Some(reduction) else None,
               if both && b.meanDuration.value > 0.0 then Some(Round(reduction / b.meanDuration.value * 100.0)) else None)
  }

  method FindGroup(groups: seq<Summary>, experiment: string, variant: string) returns (found: Option<Summary>)
    ensures found.Some? ==> found.value in groups && found.value.experiment == experiment && found.value.variant == variant
    ensures found.None? ==> forall g :: g in groups ==> g.experiment != experiment || g.variant != variant
  {
    var i := 0;
    while i < |groups|
      invariant 0 <= i <= |groups|
      invariant forall k :: 0 <= k < i ==> groups[k].experiment != experiment || groups[k].variant != variant
    {
      if groups[i].experiment == experiment && groups[i].variant == variant {
        return Some(groups[i]);
      }
      i := i + 1;
    }
    found := None;
  }

  const EXPERIMENTS := [CONTEXT, REPAIR, EFFORT]

  function Comparisons(groups: seq<Summary>): (cs: seq<Comparison>)
    requires |groups| == 6
    ensures |cs| == 3 && forall e :: 0 <= e < 3 ==> cs[e] == Compare(EXPERIMENTS[e], groups[2 * e], groups[2 * e + 1])
  {
    seq(3, e requires 0 <= e < 3 => Compare(EXPERIMENTS[e], groups[2 * e], groups[2 * e + 1]))
  }

  /** The i-th group of the report is the only one with its experiment and variant. */
  lemma SixthOf(os: seq<Observation>, g: Summary, i: nat)
    requires i < 6 && g in SixGroups(os) && (g.experiment, g.variant) == KEYS[i]
    ensures g == SixGroups(os)[i]
  {
    hide RateOf, MeanOf, Group;
    var j :| 0 <= j < 6 && SixGroups(os)[j] == g;
    assert g == Summarized(KEYS[j], Group(os, KEYS[j]));
  }

  /**
   * BuildReport: fails exactly on an invalid dataset; the errors for a missing group cannot occur. The digest is that of
   * the encoded dataset.
   */
  method BuildReport(d: Dataset, digest: Dataset -> string) returns (report: Result<Report>)
    ensures report.Ok? <==> ValidDataset(d)
    ensures report.Ok? ==>
              report.value == Report(d.schemaVersion, d.name, digest(d), d.description,
                                     SixGroups(d.observations), Comparisons(SixGroups(d.observations)))
  {
    hide ObservationsOk, Paired, SixGroups, Variants, Bytes, GroupedBy, Group, Summarized, Compare, Sort;
    var ok := ValidateDataset(d);
    if !ok {
      return Err(InvalidInput);
    }
    var os := d.observations;
    var grouped := GroupObservations(os);
    var found := SummarizeAll(grouped, os);
    SortedSix(os, found);
    var groups := Sort(GroupLe, found);
    var comparisons: seq<Comparison> := [];
    var e := 0;
    while e < 3
      invariant 0 <= e <= 3 && comparisons == Comparisons(groups)[..e]
    {
      var experiment := EXPERIMENTS[e];
      var variants := Variants(experiment);
      KeysByExperiment(e);
      var baseline := FindGroup(groups, experiment, variants[0]);
      var treatment := FindGroup(groups, experiment, variants[1]);
      GroupFound(os, 2 * e);
      GroupFound(os, 2 * e + 1);
      if baseline == None || treatment == None {
        assert false;
        return Err(NotFound);
      }
      SixthOf(os, baseline.value, 2 * e);
      SixthOf(os, treatment.value, 2 * e + 1);
      comparisons := comparisons + [Compare(experiment, baseline.value, treatment.value)];
      e := e + 1;
    }
    report := Ok(Report(d.schemaVersion, d.name, digest(d), d.description, groups, comparisons));
  }

  lemma KeysByExperiment(e: nat)
    requires e < 3
    ensures |Variants(EXPERIMENTS[e])| == 2
    ensures KEYS[2 * e] == (EXPERIMENTS[e], Variants(EXPERIMENTS[e])[0])
    ensures KEYS[2 * e + 1] == (EXPERIMENTS[e], Variants(EXPERIMENTS[e])[1])
  {
  }

  lemma GroupFound(os: seq<Observation>, i: nat)
    requires i < 6
    ensures exists g :: g in SixGroups(os) && g.experiment == KEYS[i].0 && g.variant == KEYS[i].1
  {
    hide RateOf, MeanOf, Group;
    assert SixGroups(os)[i] in SixGroups(os);
  }

  // ---- pairing: baseline and treatment have the same size ----

  function Pairs(os: seq<Observation>): (ps: seq<Pair>)
    ensures |ps| == |os| && forall i :: 0 <= i < |os| ==> ps[i] == PairOf(os[i])
  {
    seq(|os|, i requires 0 <= i < |os| => PairOf(os[i]))
  }

  lemma {:induction false} PairsOncePerGroup(os: seq<Observation>, key: Key)
    requires OncePerVariant(os)
    ensures Distinct(Pairs(Group(os, key)))
  {
    if os != [] {
      var n := |os| - 1;
      var o := os[n];
      PairsOncePerGroup(os[..n], key);
      GroupHolds(os[..n], key);
      if KeyOf(o) == key {
        var g := Group(os[..n], key);
        forall i | 0 <= i < |g| ensures Pairs(g)[i] != PairOf(o) {
          assert g[i] in g;
          var k :| 0 <= k < n && os[..n][k] == g[i];
          assert os[k] == g[i];
        }
        assert Pairs(g + [o]) == Pairs(g) + [PairOf(o)];
      } else {
        assert Group(os[..n], key) + [] == Group(os[..n], key);
      }
    }
  }

  lemma GroupPairs(os: seq<Observation>, key: Key, p: Pair)
    ensures p in Pairs(Group(os, key)) <==> p.experiment == key.0 && HasVariant(os, p, key.1)
  {
    hide Group;
    GroupHolds(os, key);
    var g := Group(os, key);
    if p in Pairs(g) {
      var i :| 0 <= i < |g| && Pairs(g)[i] == p;
      assert g[i] in g;
      var k :| 0 <= k < |os| && os[k] == g[i];
    }
    if p.experiment == key.0 && HasVariant(os, p, key.1) {
      var k :| 0 <= k < |os| && PairOf(os[k]) == p && os[k].variant == key.1;
      assert os[k] in g;
      var i :| 0 <= i < |g| && g[i] == os[k];
      assert Pairs(g)[i] == p;
    }
  }

  /** Every scenario and replicate of an experiment occurs exactly once on each side, so both sides have the same size. */
  lemma PairedGroups(os: seq<Observation>, e: nat)
    requires ObservationsOk(os) && e < 3
    ensures var a, b := Group(os, KEYS[2 * e]), Group(os, KEYS[2 * e + 1]);
            && Distinct(Pairs(a)) && Distinct(Pairs(b))
            && (forall p :: p in Pairs(a) <==> p in Pairs(b))
            && |a| == |b| > 0
  {
    hide Group, KeysDistinct, Bytes, ValidObservation;
    var k, l := KEYS[2 * e], KEYS[2 * e + 1];
    KeysByExperiment(e);
    PairsOncePerGroup(os, k);
    PairsOncePerGroup(os, l);
    forall p ensures p in Pairs(Group(os, k)) <==> p in Pairs(Group(os, l)) {
      GroupPairs(os, k, p);
      GroupPairs(os, l, p);
    }
    SameSizes(Pairs(Group(os, k)), Pairs(Group(os, l)));
    assert k in KEYS;
    SixKeys(os, k);
  }

  lemma SameSizes(a: seq<Pair>, b: seq<Pair>)
    requires Distinct(a) && Distinct(b) && forall p :: p in a <==> p in b
    ensures |a| == |b|
  {
    DistinctPermutation(a, b);
    assert |multiset(a)| == |multiset(b)|;
  }

  // ---- rates ----

  predicate AllReport(os: seq<Observation>, f: Metric) {
    forall i :: 0 <= i < |os| ==> f(os[i]).Some?
  }

  predicate Implies(os: seq<Observation>, f: Metric, g: Metric) {
    forall i :: 0 <= i < |os| && f(os[i]) == Some(true) ==> g(os[i]) == Some(true)
  }

  lemma {:induction false} ReportedWhenAllReport(os: seq<Observation>, f: Metric)
    requires AllReport(os, f)
    ensures Reported(os, f) == |os|
  {
    if os != [] {
      ReportedWhenAllReport(os[..|os| - 1], f);
    }
  }

  lemma {:induction false} SuccessesImply(os: seq<Observation>, f: Metric, g: Metric)
    requires Implies(os, f, g)
    ensures Successes(os, f) <= Successes(os, g)
  {
    if os != [] {
      SuccessesImply(os[..|os| - 1], f, g);
    }
  }

  lemma PctMonotone(a: nat, b: nat, total: nat)
    requires a <= b && total > 0
    ensures Round(a as real / total as real * 100.0) <= Round(b as real / total as real * 100.0)
  {
    hide Round;
    assert a as real / total as real <= b as real / total as real;
    assert a as real / total as real >= 0.0;
    RoundMonotone(a as real / total as real * 100.0, b as real / total as real * 100.0);
  }

  lemma RatesOrdered(os: seq<Observation>, f: Metric, g: Metric)
    requires os != [] && AllReport(os, f) && AllReport(os, g) && Implies(os, f, g)
    ensures RateOf(os, f).Some? && RateOf(os, g).Some?
    ensures RateOf(os, f).value.successes <= RateOf(os, g).value.successes
    ensures RateOf(os, f).value.total == RateOf(os, g).value.total == |os|
    ensures RateOf(os, f).value.pct <= RateOf(os, g).value.pct
  {
    hide Round, Reported, Successes;
    ReportedWhenAllReport(os, f);
    ReportedWhenAllReport(os, g);
    SuccessesImply(os, f, g);
    PctMonotone(Successes(os, f), Successes(os, g), |os|);
  }

  lemma GroupIsValid(os: seq<Observation>, key: Key)
    requires ObservationsOk(os)
    ensures forall i :: 0 <= i < |Group(os, key)| ==>
              ValidObservation(Group(os, key)[i]) && KeyOf(Group(os, key)[i]) == key
  {
    hide Group, ValidObservation, KeysDistinct, OncePerVariant, Paired;
    GroupHolds(os, key);
    forall i | 0 <= i < |Group(os, key)| ensures ValidObservation(Group(os, key)[i]) && KeyOf(Group(os, key)[i]) == key {
      var o := Group(os, key)[i];
      assert o in Group(os, key);
      var k :| 0 <= k < |os| && os[k] == o;
      assert ValidObservation(os[k]);
    }
  }

  /** In the context and repair groups every observation counts, and execution <= compile <= syntactic validity. */
  lemma ValidityRatesOrdered(os: seq<Observation>, i: nat)
    requires ObservationsOk(os) && i < 4
    ensures var s := SixGroups(os)[i];
            && s.syntactic.Some? && s.compile.Some? && s.execution.Some?
            && s.execution.value.total == s.compile.value.total == s.syntactic.value.total == s.count > 0
            && s.execution.value.successes <= s.compile.value.successes <= s.syntactic.value.successes
            && s.execution.value.pct <= s.compile.value.pct <= s.syntactic.value.pct
  {
    hide Group, RateOf, MeanOf, ObservationsOk;
    var key := KEYS[i];
    var g := Group(os, key);
    assert key in KEYS;
    SixKeys(os, key);
    GroupIsValid(os, key);
    RatesOrdered(g, Execution, Compile);
    RatesOrdered(g, Compile, Syntactic);
  }

  // ---- repair accounting ----

  lemma {:induction false} RepairCounts(g: seq<Observation>)
    requires forall i :: 0 <= i < |g| ==> ValidObservation(g[i]) && KeyOf(g[i]) == (REPAIR, "GENERATE_REPAIR")
    ensures Successes(g, Final) == Successes(g, FirstPass) + Successes(g, Repaired)
    ensures Reported(g, Repaired) == |g| - Successes(g, FirstPass)
    ensures Successes(g, Final) == Successes(g, Execution)
  {
    hide Bytes, Variants, ValidObservation;
    if g != [] {
      var n := |g| - 1;
      RepairCounts(g[..n]);
      RepairOne(g[n]);
    }
  }

  lemma RepairOne(o: Observation)
    requires ValidObservation(o) && KeyOf(o) == (REPAIR, "GENERATE_REPAIR")
    ensures o.firstPassSuccess.Some? && o.finalSuccess.Some? && o.finalSuccess == o.executionValid
    ensures o.repairSuccess.Some? <==> o.firstPassSuccess != Some(true)
    ensures o.finalSuccess == Some(true) <==> o.firstPassSuccess == Some(true) || o.repairSuccess == Some(true)
  {
    hide Bytes, Variants;
  }

  /**
   * In the generate-repair group final successes are first-pass successes plus repair successes, and repairs are counted
   * over exactly the first-pass failures; final and execution success are the same count.
   */
  lemma RepairAccounting(os: seq<Observation>)
    requires ObservationsOk(os)
    ensures var s := SixGroups(os)[3];
            && s.firstPass.Some? && s.final.Some? && s.execution.Some?
            && s.firstPass.value.total == s.final.value.total == s.count
            && var repairs := if s.repair.Some? then s.repair.value else Rate(0, 0, 0.0);
               && s.final.value.successes == s.firstPass.value.successes + repairs.successes
               && repairs.total == s.firstPass.value.total - s.firstPass.value.successes
               && s.final.value.successes == s.execution.value.successes
  {
    hide Group, MeanOf, ObservationsOk, Round, Reported, Successes;
    var key := KEYS[3];
    var g := Group(os, key);
    assert key in KEYS;
    SixKeys(os, key);
    GroupIsValid(os, key);
    RepairCounts(g);
    ReportedWhenAllReport(g, FirstPass);
    ReportedWhenAllReport(g, Final);
    ValidityRatesOrdered(os, 3);
    SuccessesReported(g, Repaired);
  }

  lemma {:induction false} SuccessesReported(g: seq<Observation>, f: Metric)
    ensures Successes(g, f) <= Reported(g, f)
  {
    if g != [] {
      SuccessesReported(g[..|g| - 1], f);
    }
  }

  /** Without repair nothing changes after the first pass. */
  lemma GenerateOnlyIsFirstPass(os: seq<Observation>)
    requires ObservationsOk(os)
    ensures var s := SixGroups(os)[2]; s.final == s.firstPass && s.repair == None && s.final == s.execution
  {
    hide Group, MeanOf, ObservationsOk, Round, Bytes, Variants;
    var key := KEYS[2];
    var g := Group(os, key);
    GroupIsValid(os, key);
    forall i | 0 <= i < |g| ensures Final(g[i]) == FirstPass(g[i]) == Execution(g[i]) && Repaired(g[i]) == None {
      assert ValidObservation(g[i]);
    }
    SameRates(g, Final, FirstPass);
    SameRates(g, Final, Execution);
    NoneReport(g, Repaired);
  }

  lemma {:induction false} SameRates(g: seq<Observation>, f: Metric, h: Metric)
    requires forall i :: 0 <= i < |g| ==> f(g[i]) == h(g[i])
    ensures Reported(g, f) == Reported(g, h) && Successes(g, f) == Successes(g, h)
  {
    if g != [] {
      SameRates(g[..|g| - 1], f, h);
    }
  }

  lemma {:induction false} NoneReport(g: seq<Observation>, f: Metric)
    requires forall i :: 0 <= i < |g| ==> f(g[i]) == None
    ensures Reported(g, f) == 0
  {
    if g != [] {
      NoneReport(g[..|g| - 1], f);
    }
  }
}
