/** What the figures of a report mean, counted from the observations. */
module EvaluationMeaning {
  import opened Results
  import opened EvaluationRules
  import opened EvaluationReport

  // ---- rounding ----

  /** m hundredths are the nearest to x; a half counts away from zero. */
  predicate Hundredths(x: real, m: int) {
    if x >= 0.0 then m as real - 0.5 <= x * 100.0 < m as real + 0.5
    else m as real - 0.5 < x * 100.0 <= m as real + 0.5
  }

  function Cents(m: int): real {
    m as real / 100.0
  }

  lemma RoundIsNearest(x: real) returns (m: int)
    ensures Hundredths(x, m) && Round(x) == Cents(m)
  {
    if x >= 0.0 {
      m := (x * 100.0 + 0.5).Floor;
    } else {
      m := -(-x * 100.0 + 0.5).Floor;
    }
  }

  lemma NearestIsOne(x: real, m: int, n: int)
    requires Hundredths(x, m) && Hundredths(x, n)
    ensures m == n
  {
  }

  lemma NearestInOrder(x: real, y: real, m: int, n: int)
    requires Hundredths(x, m) && Hundredths(y, n)
    ensures x <= y ==> m <= n
  {
  }

  /** Rounding again changes nothing. */
  lemma RoundedStays(m: int)
    ensures Round(Cents(m)) == Cents(m)
  {
    var n := RoundIsNearest(Cents(m));
    assert Cents(m) * 100.0 == m as real;
    assert Hundredths(Cents(m), m);
    NearestIsOne(Cents(m), m, n);
  }

  lemma CentsDiffer(m: int, n: int)
    ensures Cents(m) - Cents(n) == Cents(m - n)
  {
  }

  // ---- columns of a group ----

  function Syntactics(g: seq<Observation>): (r: seq<Option<bool>>)
    ensures |r| == |g| && forall i :: 0 <= i < |g| ==> r[i] == g[i].syntacticValid
  { seq(|g|, i requires 0 <= i < |g| => g[i].syntacticValid) }

  function Compiles(g: seq<Observation>): (r: seq<Option<bool>>)
    ensures |r| == |g| && forall i :: 0 <= i < |g| ==> r[i] == g[i].compileValid
  { seq(|g|, i requires 0 <= i < |g| => g[i].compileValid) }

  function Executions(g: seq<Observation>): (r: seq<Option<bool>>)
    ensures |r| == |g| && forall i :: 0 <= i < |g| ==> r[i] == g[i].executionValid
  { seq(|g|, i requires 0 <= i < |g| => g[i].executionValid) }

  function Acceptances(g: seq<Observation>): (r: seq<Option<bool>>)
    ensures |r| == |g| && forall i :: 0 <= i < |g| ==> r[i] == g[i].humanAccepted
  { seq(|g|, i requires 0 <= i < |g| => g[i].humanAccepted) }

  function FirstPasses(g: seq<Observation>): (r: seq<Option<bool>>)
    ensures |r| == |g| && forall i :: 0 <= i < |g| ==> r[i] == g[i].firstPassSuccess
  { seq(|g|, i requires 0 <= i < |g| => g[i].firstPassSuccess) }

  function Repairs(g: seq<Observation>): (r: seq<Option<bool>>)
    ensures |r| == |g| && forall i :: 0 <= i < |g| ==> r[i] == g[i].repairSuccess
  { seq(|g|, i requires 0 <= i < |g| => g[i].repairSuccess) }

  function Finals(g: seq<Observation>): (r: seq<Option<bool>>)
    ensures |r| == |g| && forall i :: 0 <= i < |g| ==> r[i] == g[i].finalSuccess
  { seq(|g|, i requires 0 <= i < |g| => g[i].finalSuccess) }

  function Durations(g: seq<Observation>): (r: seq<Option<real>>)
    ensures |r| == |g| && forall i :: 0 <= i < |g| ==> r[i] == g[i].durationSeconds
  { seq(|g|, i requires 0 <= i < |g| => g[i].durationSeconds) }

  /** The coverage gained, where it was measured before and after. */
  function Gains(g: seq<Observation>): (r: seq<Option<real>>)
    ensures |r| == |g|
    ensures forall i :: 0 <= i < |g| ==>
              if g[i].coverageBefore.Some? && g[i].coverageAfter.Some?
              then r[i] == Some(g[i].coverageAfter.value - g[i].coverageBefore.value) else r[i] == None
  {
    seq(|g|, i requires 0 <= i < |g| =>
      if g[i].coverageBefore.Some? && g[i].coverageAfter.Some?
      then Some(g[i].coverageAfter.value - g[i].coverageBefore.value) else None)
  }

  // ---- rates ----

  function Answered<V(==)>(column: seq<Option<V>>): (n: nat)
    ensures n <= |column|
  {
    NoneAtMost(column);
    |column| - multiset(column)[None]
  }

  lemma NoneAtMost<V>(column: seq<Option<V>>)
    ensures multiset(column)[None] <= |column|
  {
    assert |multiset(column)| == |column|;
    var none := multiset{}[None := multiset(column)[None]];
    assert none <= multiset(column);
    assert |multiset(column) - none| >= 0;
    assert |multiset(column)| == |none| + |multiset(column) - none|;
  }

  lemma {:induction false} CountsAre(g: seq<Observation>, f: Metric, column: seq<Option<bool>>)
    requires |column| == |g| && forall i :: 0 <= i < |g| ==> column[i] == f(g[i])
    ensures Reported(g, f) == Answered(column) && Successes(g, f) == multiset(column)[Some(true)]
  {
    if g != [] {
      var n := |g| - 1;
      CountsAre(g[..n], f, column[..n]);
      assert column == column[..n] + [column[n]];
    }
  }

  /** The share of successes among the answers, in per cent; every answer counts once. */
  function Percent(column: seq<Option<bool>>): real
    requires Answered(column) > 0
  {
    multiset(column)[Some(true)] as real / Answered(column) as real * 100.0
  }

  /** A rate is there exactly if somebody answered, and is the share of successes to the hundredth. */
  predicate RateFits(column: seq<Option<bool>>, rate: Option<Rate>) {
    if Answered(column) == 0 then rate == None
    else
      && rate.Some? && rate.value.successes == multiset(column)[Some(true)] && rate.value.total == Answered(column)
      && rate.value.pct == Cents((rate.value.pct * 100.0).Floor) && Hundredths(Percent(column), (rate.value.pct * 100.0).Floor)
  }

  lemma CentsFloor(m: int)
    ensures (Cents(m) * 100.0).Floor == m
  {
    assert Cents(m) * 100.0 == m as real;
  }

  lemma RateIsShare(g: seq<Observation>, f: Metric, column: seq<Option<bool>>)
    requires |column| == |g| && forall i :: 0 <= i < |g| ==> column[i] == f(g[i])
    ensures RateFits(column, RateOf(g, f))
  {
    hide Hundredths, Cents, Round, Reported, Successes, Answered;
    CountsAre(g, f, column);
    if Answered(column) > 0 {
      var m := RoundIsNearest(Successes(g, f) as real / Reported(g, f) as real * 100.0);
      CentsFloor(m);
    }
  }

  /**
   * The change from baseline to treatment: there exactly if both sides have answers, and the treatment's share less the
   * baseline's, each to the hundredth.
   */
  ghost predicate RateChange(before: seq<Option<bool>>, after: seq<Option<bool>>, delta: Option<real>) {
    if Answered(before) == 0 || Answered(after) == 0 then delta == None
    else exists m, n :: Hundredths(Percent(before), m) && Hundredths(Percent(after), n) && delta == Some(Cents(n - m))
  }

  lemma RateDeltaIsChange(before: seq<Option<bool>>, after: seq<Option<bool>>, b: Option<Rate>, t: Option<Rate>)
    requires RateFits(before, b) && RateFits(after, t)
    ensures RateChange(before, after, RateDelta(b, t))
  {
    hide Hundredths, Cents, Round, Answered, Percent;
    if Answered(before) > 0 && Answered(after) > 0 {
      var m, n := (b.value.pct * 100.0).Floor, (t.value.pct * 100.0).Floor;
      CentsDiffer(n, m);
      RoundedStays(n - m);
      assert RateDelta(b, t) == Some(Cents(n - m));
    }
  }

  /** So the sign is the right one, and rounding costs at most a hundredth. */
  lemma RateChangeSigned(before: seq<Option<bool>>, after: seq<Option<bool>>, delta: Option<real>)
    requires RateChange(before, after, delta) && delta.Some?
    ensures Answered(before) > 0 && Answered(after) > 0
    ensures var change := Percent(after) - Percent(before);
            && change - 0.01 <= delta.value <= change + 0.01
            && (change >= 0.0 ==> delta.value >= 0.0) && (change <= 0.0 ==> delta.value <= 0.0)
            && (change > 0.01 ==> delta.value > 0.0) && (change < -0.01 ==> delta.value < 0.0)
  {
    hide Answered, Percent;
    var m, n :| Hundredths(Percent(before), m) && Hundredths(Percent(after), n) && delta == Some(Cents(n - m));
    NearestInOrder(Percent(before), Percent(after), m, n);
    NearestInOrder(Percent(after), Percent(before), n, m);
    CentsDiffer(n, m);
    Near(Percent(before), m);
    Near(Percent(after), n);
    if n - m >= 0 { CentsSigned(n - m); }
    if n - m <= 0 { CentsSigned(n - m); }
  }

  lemma Near(x: real, m: int)
    requires Hundredths(x, m)
    ensures x - 0.005 <= Cents(m) <= x + 0.005
  {
  }

  lemma CentsSigned(m: int)
    ensures m > 0 <==> Cents(m) > 0.0
    ensures m < 0 <==> Cents(m) < 0.0
    ensures m != 0 ==> Cents(m) >= 0.01 || Cents(m) <= -0.01
  {
  }

  // ---- means ----

  /** The answers, added up. */
  function Total(column: seq<Option<real>>): real {
    if column == [] then 0.0 else (if column[0].Some? then column[0].value else 0.0) + Total(column[1..])
  }

  function Average(column: seq<Option<real>>): real
    requires Answered(column) > 0
  {
    Total(column) / Answered(column) as real
  }

  lemma {:induction false} TotalAppend(column: seq<Option<real>>, v: Option<real>)
    ensures Total(column + [v]) == Total(column) + if v.Some? then v.value else 0.0
  {
    if column == [] {
      assert [v][1..] == [];
    } else {
      TotalAppend(column[1..], v);
      assert (column + [v])[1..] == column[1..] + [v];
    }
  }

  lemma {:induction false} SumsAre(g: seq<Observation>, f: Measure, column: seq<Option<real>>)
    requires |column| == |g| && forall i :: 0 <= i < |g| ==> column[i] == f(g[i])
    ensures Measured(g, f) == Answered(column) && SumOf(g, f) == Total(column)
  {
    if g != [] {
      var n := |g| - 1;
      SumsAre(g[..n], f, column[..n]);
      assert column == column[..n] + [column[n]];
      TotalAppend(column[..n], column[n]);
    }
  }

  predicate MeanFits(column: seq<Option<real>>, mean: Option<real>) {
    if Answered(column) == 0 then mean == None
    else mean.Some? && mean.value == Cents((mean.value * 100.0).Floor) && Hundredths(Average(column), (mean.value * 100.0).Floor)
  }

  lemma MeanIsAverage(g: seq<Observation>, f: Measure, column: seq<Option<real>>)
    requires |column| == |g| && forall i :: 0 <= i < |g| ==> column[i] == f(g[i])
    ensures MeanFits(column, MeanOf(g, f))
  {
    hide Hundredths, Cents, Round, Measured, SumOf, Total, Answered;
    SumsAre(g, f, column);
    if Answered(column) > 0 {
      var m := RoundIsNearest(SumOf(g, f) / Measured(g, f) as real);
      CentsFloor(m);
    }
  }

  /** What the mean rises by from the first column to the second. */
  ghost predicate MeanChange(before: seq<Option<real>>, after: seq<Option<real>>, delta: Option<real>) {
    if Answered(before) == 0 || Answered(after) == 0 then delta == None
    else exists m, n :: Hundredths(Average(before), m) && Hundredths(Average(after), n) && delta == Some(Cents(n - m))
  }

  lemma ValueDeltaIsChange(before: seq<Option<real>>, after: seq<Option<real>>, b: Option<real>, t: Option<real>)
    requires MeanFits(before, b) && MeanFits(after, t)
    ensures MeanChange(before, after, ValueDelta(b, t))
  {
    hide Hundredths, Cents, Round, Answered, Average;
    if Answered(before) > 0 && Answered(after) > 0 {
      var m, n := (b.value * 100.0).Floor, (t.value * 100.0).Floor;
      CentsDiffer(n, m);
      RoundedStays(n - m);
      assert ValueDelta(b, t) == Some(Cents(n - m));
    }
  }

  lemma MeanChangeSigned(before: seq<Option<real>>, after: seq<Option<real>>, delta: Option<real>)
    requires MeanChange(before, after, delta) && delta.Some?
    ensures Answered(before) > 0 && Answered(after) > 0
    ensures var change := Average(after) - Average(before);
            && change - 0.01 <= delta.value <= change + 0.01
            && (change >= 0.0 ==> delta.value >= 0.0) && (change <= 0.0 ==> delta.value <= 0.0)
            && (change > 0.01 ==> delta.value > 0.0) && (change < -0.01 ==> delta.value < 0.0)
  {
    hide Answered, Average;
    var m, n :| Hundredths(Average(before), m) && Hundredths(Average(after), n) && delta == Some(Cents(n - m));
    NearestInOrder(Average(before), Average(after), m, n);
    NearestInOrder(Average(after), Average(before), n, m);
    CentsDiffer(n, m);
    Near(Average(before), m);
    Near(Average(after), n);
    CentsSigned(n - m);
  }

  /** p hundredths of a per cent is what part makes of the whole, both in hundredths. */
  predicate Share(part: int, whole: int, p: int)
    requires whole > 0
  {
    Hundredths(part as real / whole as real * 100.0, p)
  }

  /** A saving is a fall of the mean, and in per cent it is a share of the baseline's mean. */
  ghost predicate Saves(before: seq<Option<real>>, after: seq<Option<real>>, saved: Option<real>, percent: Option<real>) {
    && MeanChange(after, before, saved)
    && (if Answered(before) == 0 || Answered(after) == 0 then percent == None
        else exists m, n, p :: Hundredths(Average(before), m) && Hundredths(Average(after), n) &&
               if m > 0 then Share(m - n, m, p) && percent == Some(Cents(p)) else percent == None)
  }

  lemma ShareOfCents(part: int, whole: int)
    requires whole > 0
    ensures Cents(whole) > 0.0 && Cents(part) / Cents(whole) == part as real / whole as real
  {
    assert Cents(part) / Cents(whole) * Cents(whole) == Cents(part);
    assert part as real / whole as real * Cents(whole) == Cents(part) by {
      assert part as real / whole as real * whole as real == part as real;
    }
    Cancel(Cents(part) / Cents(whole), part as real / whole as real, Cents(whole));
  }

  lemma Cancel(x: real, y: real, z: real)
    requires z > 0.0 && x * z == y * z
    ensures x == y
  {
    assert (x - y) * z == 0.0;
  }

  lemma CompareDurations(experiment: string, b: Summary, t: Summary)
    ensures var c := Compare(experiment, b, t);
            && c.durationReduction == ValueDelta(t.meanDuration, b.meanDuration)
            && c.durationPct == if b.meanDuration.Some? && t.meanDuration.Some? && b.meanDuration.value > 0.0
                                then Some(Round(ValueDelta(t.meanDuration, b.meanDuration).value / b.meanDuration.value * 100.0))
                                else None
  {
    hide Round, RateDelta;
  }

  lemma ReductionIsSaving(before: seq<Option<real>>, after: seq<Option<real>>, b: Summary, t: Summary, experiment: string)
    requires MeanFits(before, b.meanDuration) && MeanFits(after, t.meanDuration)
    ensures var c := Compare(experiment, b, t); Saves(before, after, c.durationReduction, c.durationPct)
  {
    hide Hundredths, Cents, Round, Answered, Average, Compare, MeanChange, Share;
    var c := Compare(experiment, b, t);
    CompareDurations(experiment, b, t);
    ValueDeltaIsChange(after, before, t.meanDuration, b.meanDuration);
    if Answered(before) > 0 && Answered(after) > 0 {
      var m, n := (b.meanDuration.value * 100.0).Floor, (t.meanDuration.value * 100.0).Floor;
      CentsDiffer(m, n);
      RoundedStays(m - n);
      CentsSigned(m);
      var p := 0;
      if m > 0 {
        p := PercentSaved(m - n, m);
      }
      assert Hundredths(Average(before), m) && Hundredths(Average(after), n) &&
             if m > 0 then Share(m - n, m, p) && c.durationPct == Some(Cents(p)) else c.durationPct == None;
    }
  }

  lemma PercentSaved(part: int, whole: int) returns (p: int)
    requires whole > 0
    ensures Cents(whole) > 0.0 && Share(part, whole, p) && Round(Cents(part) / Cents(whole) * 100.0) == Cents(p)
  {
    ShareOfCents(part, whole);
    p := RoundIsNearest(part as real / whole as real * 100.0);
  }

  /** The share has the sign of the saving. */
  lemma SavingSigned(before: seq<Option<real>>, after: seq<Option<real>>, saved: Option<real>, percent: Option<real>)
    requires Saves(before, after, saved, percent) && percent.Some?
    ensures saved.Some? && (saved.value >= 0.0 ==> percent.value >= 0.0) && (saved.value <= 0.0 ==> percent.value <= 0.0)
  {
    hide Answered, Average;
    var m, n, p :| Hundredths(Average(before), m) && Hundredths(Average(after), n) &&
               if m > 0 then Share(m - n, m, p) && percent == Some(Cents(p)) else percent == None;
    var v, u :| Hundredths(Average(after), v) && Hundredths(Average(before), u) && saved == Some(Cents(u - v));
    NearestIsOne(Average(before), m, u);
    NearestIsOne(Average(after), n, v);
    CentsSigned(m - n);
    CentsSigned(p);
    SignOfShare(m - n, m, p);
  }

  lemma SignOfShare(part: int, whole: int, p: int)
    requires whole > 0 && Share(part, whole, p)
    ensures (part >= 0 ==> p >= 0) && (part <= 0 ==> p <= 0)
  {
    var x := part as real / whole as real;
    assert x * whole as real == part as real;
    if part >= 0 {
      assert x >= 0.0;
    }
    if part <= 0 {
      assert x <= 0.0;
    }
  }

  // ---- the report ----

  /** Each figure of a summary is of its own metric. */
  predicate SummaryFits(g: seq<Observation>, s: Summary) {
    && s.count == |g|
    && RateFits(Syntactics(g), s.syntactic) && RateFits(Compiles(g), s.compile) && RateFits(Executions(g), s.execution)
    && RateFits(Acceptances(g), s.accepted) && RateFits(FirstPasses(g), s.firstPass) && RateFits(Repairs(g), s.repair)
    && RateFits(Finals(g), s.final) && MeanFits(Durations(g), s.meanDuration) && MeanFits(Gains(g), s.meanDelta)
  }

  lemma SummaryMeans(key: Key, g: seq<Observation>)
    ensures SummaryFits(g, Summarized(key, g))
    ensures Summarized(key, g).experiment == key.0 && Summarized(key, g).variant == key.1
  {
    hide RateOf, MeanOf, RateFits, MeanFits;
    RateIsShare(g, Syntactic, Syntactics(g));
    RateIsShare(g, Compile, Compiles(g));
    RateIsShare(g, Execution, Executions(g));
    RateIsShare(g, Accepted, Acceptances(g));
    RateIsShare(g, FirstPass, FirstPasses(g));
    RateIsShare(g, Repaired, Repairs(g));
    RateIsShare(g, Final, Finals(g));
    MeanIsAverage(g, Duration, Durations(g));
    MeanIsAverage(g, CoverageDelta, Gains(g));
  }

  /** Each change of a comparison is of its own metric, from the baseline's observations b to the treatment's t. */
  ghost predicate ComparisonFits(b: seq<Observation>, t: seq<Observation>, c: Comparison) {
    && RateChange(Syntactics(b), Syntactics(t), c.syntactic)
    && RateChange(Compiles(b), Compiles(t), c.compile)
    && RateChange(Executions(b), Executions(t), c.execution)
    && RateChange(Acceptances(b), Acceptances(t), c.accepted)
    && RateChange(FirstPasses(b), FirstPasses(t), c.firstPass)
    && RateChange(Finals(b), Finals(t), c.final)
    && MeanChange(Gains(b), Gains(t), c.coverage)
    && Saves(Durations(b), Durations(t), c.durationReduction, c.durationPct)
    && RepairRate(Repairs(t), c.repairRate)
  }

  /** The treatment's share of successful repairs, to the hundredth. */
  ghost predicate RepairRate(column: seq<Option<bool>>, rate: Option<real>) {
    if Answered(column) == 0 then rate == None
    else exists m :: Hundredths(Percent(column), m) && rate == Some(Cents(m))
  }

  lemma ComparisonMeans(experiment: string, b: seq<Observation>, t: seq<Observation>, s: Summary, u: Summary)
    requires SummaryFits(b, s) && SummaryFits(t, u)
    ensures ComparisonFits(b, t, Compare(experiment, s, u))
  {
    hide RateFits, MeanFits, RateChange, MeanChange, Saves, RateDelta, ValueDelta, RepairRate, Round;
    RateDeltaIsChange(Syntactics(b), Syntactics(t), s.syntactic, u.syntactic);
    RateDeltaIsChange(Compiles(b), Compiles(t), s.compile, u.compile);
    RateDeltaIsChange(Executions(b), Executions(t), s.execution, u.execution);
    RateDeltaIsChange(Acceptances(b), Acceptances(t), s.accepted, u.accepted);
    RateDeltaIsChange(FirstPasses(b), FirstPasses(t), s.firstPass, u.firstPass);
    RateDeltaIsChange(Finals(b), Finals(t), s.final, u.final);
    ValueDeltaIsChange(Gains(b), Gains(t), s.meanDelta, u.meanDelta);
    ReductionIsSaving(Durations(b), Durations(t), s, u, experiment);
    RepairIsRate(Repairs(t), u.repair);
  }

  lemma RepairIsRate(column: seq<Option<bool>>, rate: Option<Rate>)
    requires RateFits(column, rate)
    ensures RepairRate(column, if rate.Some? then Some(rate.value.pct) else None)
  {
    hide Hundredths, Cents, Answered, Percent;
  }

  /** Baseline and treatment of the three comparisons, in the order of the report. */
  predicate Compares(e: nat, experiment: string, baseline: string, treatment: string) {
    || (e == 0 && experiment == "CONTEXT_IMPACT" && baseline == "DIFF_ONLY" && treatment == "DIFF_RAG")
    || (e == 1 && experiment == "REPAIR_IMPACT" && baseline == "GENERATE_ONLY" && treatment == "GENERATE_REPAIR")
    || (e == 2 && experiment == "HUMAN_EFFORT" && baseline == "MANUAL" && treatment == "AI_ASSISTED")
  }

  /** Every comparison of a report, counted from the observations of its own two groups. */
  lemma ReportMeans(os: seq<Observation>, e: nat)
    requires e < 3
    ensures var c := Comparisons(SixGroups(os))[e];
            && Compares(e, c.experiment, c.baseline, c.treatment)
            && ComparisonFits(Group(os, (c.experiment, c.baseline)), Group(os, (c.experiment, c.treatment)), c)
            && SummaryFits(Group(os, (c.experiment, c.baseline)), SixGroups(os)[2 * e])
            && SummaryFits(Group(os, (c.experiment, c.treatment)), SixGroups(os)[2 * e + 1])
  {
    hide Group, SummaryFits, ComparisonFits, RateDelta, ValueDelta, RateOf, MeanOf, Round, Variants;
    var b, t := Group(os, KEYS[2 * e]), Group(os, KEYS[2 * e + 1]);
    SummaryMeans(KEYS[2 * e], b);
    SummaryMeans(KEYS[2 * e + 1], t);
    KeysByExperiment(e);
    ComparisonMeans(EXPERIMENTS[e], b, t, SixGroups(os)[2 * e], SixGroups(os)[2 * e + 1]);
  }
}
