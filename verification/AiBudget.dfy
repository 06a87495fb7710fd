/** The budget ledger of one document set: reserve before a call, finalize, release, or leave uncertain. */
module AiBudget {
  import opened Results

  datatype Standing = Reserved | Completed | Released

  datatype Row = Row(tokens: nat, cost: nat, standing: Standing, input: nat, output: nat, actualCost: nat, expiresAt: int)

  datatype Ledger = Ledger(active: bool, tokenBudget: nat, costBudget: nat, rows: seq<Row>)

  /** Micro-USD per token. */
  datatype Rates = Rates(input: real, output: real)

  // Seconds a reservation may stay open before it is reported as unreconciled.
  const TTL: nat := 7200

  // ---- prices ----

  /** math.Ceil. */
  function Ceil(x: real): (n: int)
    ensures x <= n as real < x + 1.0
  {
    -((-x).Floor)
  }

  function Price(rates: Rates, input: nat, output: nat): (x: real)
    requires rates.input >= 0.0 && rates.output >= 0.0
    ensures x >= 0.0
  {
    input as real * rates.input + output as real * rates.output
  }

  function EstimateCost(rates: Rates, input: nat, output: nat): nat
    requires rates.input >= 0.0 && rates.output >= 0.0
  {
    Ceil(Price(rates, input, output))
  }

  lemma PriceMonotone(rates: Rates, input: nat, output: nat, moreInput: nat, moreOutput: nat)
    requires rates.input >= 0.0 && rates.output >= 0.0 && input <= moreInput && output <= moreOutput
    ensures Price(rates, input, output) <= Price(rates, moreInput, moreOutput)
  {
  }

  /** No more tokens, no more cost: rounding up does not break this. */
  lemma CostMonotone(rates: Rates, input: nat, output: nat, moreInput: nat, moreOutput: nat)
    requires rates.input >= 0.0 && rates.output >= 0.0 && input <= moreInput && output <= moreOutput
    ensures EstimateCost(rates, input, output) <= EstimateCost(rates, moreInput, moreOutput)
  {
    hide Price, Ceil;
    PriceMonotone(rates, input, output, moreInput, moreOutput);
  }

  /** The cost is the least whole amount that pays the input tokens at the input rate and the output tokens at theirs. */
  lemma CostExactly(rates: Rates, input: nat, output: nat, amount: nat)
    requires rates.input >= 0.0 && rates.output >= 0.0
    ensures EstimateCost(rates, input, output) <= amount <==>
              rates.input * input as real + rates.output * output as real <= amount as real
  {
  }

  function AtLeastOne(n: int): nat {
    if n < 1 then 1 else n
  }

  // ---- sums over the rows ----

  function UsedTokens(r: Row): nat { if r.standing == Completed then r.input + r.output else 0 }

  function HeldTokens(r: Row): nat { if r.standing == Reserved then r.tokens else 0 }

  function UsedCost(r: Row): nat { if r.standing == Completed then r.actualCost else 0 }

  function HeldCost(r: Row): nat { if r.standing == Reserved then r.cost else 0 }

  /** Tokens a finished call used beyond its reservation. */
  function TokenOverrun(r: Row): nat {
    if r.standing == Completed && r.input + r.output > r.tokens then r.input + r.output - r.tokens else 0
  }

  function CostOverrun(r: Row): nat {
    if r.standing == Completed && r.actualCost > r.cost then r.actualCost - r.cost else 0
  }

  function Sum(rows: seq<Row>, f: Row -> nat): nat {
    if rows == [] then 0 else Sum(rows[..|rows| - 1], f) + f(rows[|rows| - 1])
  }

  lemma {:induction false} SumUpdate(rows: seq<Row>, i: nat, row: Row, f: Row -> nat)
    requires i < |rows|
    ensures Sum(rows[i := row], f) == Sum(rows, f) - f(rows[i]) + f(row)
  {
    var n := |rows| - 1;
    if i < n {
      assert rows[i := row][..n] == rows[..n][i := row];
      SumUpdate(rows[..n], i, row, f);
    } else {
      assert rows[i := row][..n] == rows[..n];
    }
  }

  lemma SumAppend(rows: seq<Row>, row: Row, f: Row -> nat)
    ensures Sum(rows + [row], f) == Sum(rows, f) + f(row)
  {
    assert (rows + [row])[..|rows|] == rows;
  }

  /** Tokens already spent or promised. */
  function Charge(l: Ledger): nat {
    Sum(l.rows, UsedTokens) + Sum(l.rows, HeldTokens)
  }

  function CostCharge(l: Ledger): nat {
    Sum(l.rows, UsedCost) + Sum(l.rows, HeldCost)
  }

  // ---- the operations ----

  function Reserve(l: Ledger, rates: Rates, bytes: int, maxOutput: int, now: int): Result<(Ledger, nat)>
    requires rates.input >= 0.0 && rates.output >= 0.0
  {
    var input, output := AtLeastOne(bytes), AtLeastOne(maxOutput);
    var cost := EstimateCost(rates, input, output);
    if !l.active then Err(BudgetExceeded)
    else if Charge(l) + input + output > l.tokenBudget then Err(BudgetExceeded)
    else if l.costBudget > 0 && CostCharge(l) + cost > l.costBudget then Err(BudgetExceeded)
    else Ok((l.(rows := l.rows + [Row(input + output, cost, Reserved, 0, 0, 0, now + TTL)]), |l.rows|))
  }

  function NonNegative(n: int): nat {
    if n < 0 then 0 else n
  }

  function Finished(row: Row, rates: Rates, input: nat, output: nat): Row
    requires rates.input >= 0.0 && rates.output >= 0.0
  {
    row.(standing := Completed, input := input, output := output, actualCost := EstimateCost(rates, input, output))
  }

  function Finalize(l: Ledger, rates: Rates, id: nat, input: int, output: int): Result<Ledger>
    requires rates.input >= 0.0 && rates.output >= 0.0
  {
    if id >= |l.rows| || l.rows[id].standing != Reserved then Err(LedgerClosed)
    else Ok(l.(rows := l.rows[id := Finished(l.rows[id], rates, NonNegative(input), NonNegative(output))]))
  }

  function Release(l: Ledger, id: nat): Ledger {
    if id >= |l.rows| || l.rows[id].standing != Reserved then l
    else l.(rows := l.rows[id := l.rows[id].(standing := Released)])
  }

  /** The hold stays; only its expiry moves up, so that it shows as unreconciled at once. */
  function Uncertain(l: Ledger, id: nat, now: int): Ledger {
    if id >= |l.rows| || l.rows[id].standing != Reserved then l
    else l.(rows := l.rows[id := l.rows[id].(expiresAt := if l.rows[id].expiresAt < now then l.rows[id].expiresAt else now)])
  }

  /** Budgets and the set's status can be reconfigured at any time; a zero budget means: keep the previous one. */
  function Configure(l: Ledger, active: bool, tokenBudget: nat, costBudget: nat): Ledger {
    l.(active := active, tokenBudget := if tokenBudget == 0 then l.tokenBudget else tokenBudget,
       costBudget := if costBudget == 0 then l.costBudget else costBudget)
  }

  datatype Report = Report(remainingTokens: nat, remainingCost: nat, unreconciled: nat)

  function Stale(now: int): Row -> nat {
    (r: Row) => if r.standing == Reserved && r.expiresAt <= now then 1 else 0
  }

  function Status(l: Ledger, now: int): Report {
    Report(NonNegative(l.tokenBudget - Charge(l)), NonNegative(l.costBudget - CostCharge(l)), Sum(l.rows, Stale(now)))
  }

  class Manager {
    const rates: Rates
    var active: bool
    var tokenBudget: nat
    var costBudget: nat
    var rows: seq<Row>

    function View(): Ledger reads this { Ledger(active, tokenBudget, costBudget, rows) }

    predicate Priced() { rates.input >= 0.0 && rates.output >= 0.0 }

    /** The SELECT with its four filtered sums. */
    method Totals() returns (usedTokens: nat, heldTokens: nat, usedCost: nat, heldCost: nat)
      ensures usedTokens == Sum(rows, UsedTokens) && heldTokens == Sum(rows, HeldTokens)
      ensures usedCost == Sum(rows, UsedCost) && heldCost == Sum(rows, HeldCost)
    {
      usedTokens, heldTokens, usedCost, heldCost := 0, 0, 0, 0;
      var i := 0;
      while i < |rows|
        invariant 0 <= i <= |rows|
        invariant usedTokens == Sum(rows[..i], UsedTokens) && heldTokens == Sum(rows[..i], HeldTokens)
        invariant usedCost == Sum(rows[..i], UsedCost) && heldCost == Sum(rows[..i], HeldCost)
      {
        assert rows[..i + 1][..i] == rows[..i];
        if rows[i].standing == Completed {
          usedTokens, usedCost := usedTokens + rows[i].input + rows[i].output, usedCost + rows[i].actualCost;
        } else if rows[i].standing == Reserved {
          heldTokens, heldCost := heldTokens + rows[i].tokens, heldCost + rows[i].cost;
        }
        i := i + 1;
      }
      assert rows[..|rows|] == rows;
    }

    method ReserveCall(bytes: int, maxOutput: int, now: int) returns (reservation: Result<nat>)
      requires Priced()
      modifies this
      ensures var result := Reserve(old(View()), rates, bytes, maxOutput, now);
              if result.Ok? then View() == result.value.0 && reservation == Ok(result.value.1)
              else View() == old(View()) && reservation == Err(result.error)
      ensures View() == Step(old(View()), rates, DoReserve(bytes, maxOutput, now))
    {
      var input := if bytes < 1 then 1 else bytes;
      var output := if maxOutput < 1 then 1 else maxOutput;
      var tokens, cost := input + output, EstimateCost(rates, input, output);
      if !active {
        return Err(BudgetExceeded);
      }
      var usedTokens, heldTokens, usedCost, heldCost := Totals();
      if usedTokens + heldTokens + tokens > tokenBudget {
        return Err(BudgetExceeded);
      }
      if costBudget > 0 && usedCost + heldCost + cost > costBudget {
        return Err(BudgetExceeded);
      }
      rows := rows + [Row(tokens, cost, Reserved, 0, 0, 0, now + 2 * 3600)];
      reservation := Ok(|rows| - 1);
    }

    /** The budget part of a lifecycle change: a zero budget keeps the one that is there. */
    method ChangeBudgets(nowActive: bool, tokens: nat, cost: nat)
      modifies this
      ensures Priced() ==> View() == Step(old(View()), rates, DoConfigure(nowActive, tokens, cost))
      ensures View() == Configure(old(View()), nowActive, tokens, cost)
    {
      active := nowActive;
      if tokens != 0 {
        tokenBudget := tokens;
      }
      if cost != 0 {
        costBudget := cost;
      }
    }

    /** The status query: what is left, never below zero, and the reservations that have run out unresolved. */
    method BudgetStatus(now: int) returns (report: Report)
      ensures report == Status(View(), now)
    {
      var usedTokens, heldTokens, usedCost, heldCost := Totals();
      var unreconciled := 0;
      var i := 0;
      while i < |rows|
        invariant 0 <= i <= |rows| && unreconciled == Sum(rows[..i], Stale(now))
      {
        assert rows[..i + 1][..i] == rows[..i];
        if rows[i].standing == Reserved && rows[i].expiresAt <= now {
          unreconciled := unreconciled + 1;
        }
        i := i + 1;
      }
      assert rows[..|rows|] == rows;
      var tokens := tokenBudget - usedTokens - heldTokens;
      var cost := costBudget - usedCost - heldCost;
      report := Report(if tokens < 0 then 0 else tokens, if cost < 0 then 0 else cost, unreconciled);
    }

    method FinalizeCall(id: nat, inputTokens: int, outputTokens: int) returns (ok: bool)
      requires Priced()
      modifies this
      ensures ok == Finalize(old(View()), rates, id, inputTokens, outputTokens).Ok?
      ensures View() == if ok then Finalize(old(View()), rates, id, inputTokens, outputTokens).value else old(View())
      ensures View() == Step(old(View()), rates, DoFinalize(id, inputTokens, outputTokens))
    {
      var input := if inputTokens < 0 then 0 else inputTokens;
      var output := if outputTokens < 0 then 0 else outputTokens;
      ok := id < |rows| && rows[id].standing == Reserved;
      if ok {
        rows := rows[id := rows[id].(standing := Completed, input := input, output := output,
                                     actualCost := EstimateCost(rates, input, output))];
      }
    }

    /** ResolveProviderError: only a local rejection proves that nothing was billed. */
    method ResolveProviderError(id: nat, disabled: bool, now: int)
      modifies this
      ensures View() == if disabled then Release(old(View()), id) else Uncertain(old(View()), id, now)
      ensures Priced() ==> View() == Step(old(View()), rates, if disabled then DoRelease(id) else DoUncertain(id, now))
    {
      if id < |rows| && rows[id].standing == Reserved {
        if disabled {
          rows := rows[id := rows[id].(standing := Released)];
        } else {
          rows := rows[id := rows[id].(expiresAt := if rows[id].expiresAt < now then rows[id].expiresAt else now)];
        }
      }
    }
  }

  // ---- whole runs ----

  datatype Event =
    | DoReserve(bytes: int, maxOutput: int, now: int)
    | DoFinalize(id: nat, input: int, output: int)
    | DoRelease(id: nat)
    | DoUncertain(id: nat, now: int)
    | DoConfigure(active: bool, tokenBudget: nat, costBudget: nat)

  function Step(l: Ledger, rates: Rates, e: Event): Ledger
    requires rates.input >= 0.0 && rates.output >= 0.0
  {
    match e
    case DoReserve(bytes, maxOutput, now) =>
      var r := Reserve(l, rates, bytes, maxOutput, now); if r.Ok? then r.value.0 else l
    case DoFinalize(id, input, output) =>
      var r := Finalize(l, rates, id, input, output); if r.Ok? then r.value else l
    case DoRelease(id) => Release(l, id)
    case DoUncertain(id, now) => Uncertain(l, id, now)
    case DoConfigure(active, tokens, cost) => Configure(l, active, tokens, cost)
  }

  function Play(l: Ledger, rates: Rates, events: seq<Event>): Ledger
    requires rates.input >= 0.0 && rates.output >= 0.0
  {
    if events == [] then l else Step(Play(l, rates, events[..|events| - 1]), rates, events[|events| - 1])
  }

  function Max(a: nat, b: nat): nat { if a > b then a else b }

  /** The largest token budget in force at any time. */
  function PeakTokens(l: Ledger, rates: Rates, events: seq<Event>): nat
    requires rates.input >= 0.0 && rates.output >= 0.0
  {
    if events == [] then l.tokenBudget
    else Max(PeakTokens(l, rates, events[..|events| - 1]), Play(l, rates, events).tokenBudget)
  }

  function PeakCost(l: Ledger, rates: Rates, events: seq<Event>): nat
    requires rates.input >= 0.0 && rates.output >= 0.0
  {
    if events == [] then l.costBudget
    else Max(PeakCost(l, rates, events[..|events| - 1]), Play(l, rates, events).costBudget)
  }

  /** The charge without what calls used beyond their reservations. */
  function NetTokens(r: Row): nat {
    UsedTokens(r) + HeldTokens(r) - TokenOverrun(r)
  }

  function NetCost(r: Row): nat {
    UsedCost(r) + HeldCost(r) - CostOverrun(r)
  }

  lemma {:induction false} NetSplits(rows: seq<Row>)
    ensures Sum(rows, NetTokens) == Sum(rows, UsedTokens) + Sum(rows, HeldTokens) - Sum(rows, TokenOverrun)
    ensures Sum(rows, NetCost) == Sum(rows, UsedCost) + Sum(rows, HeldCost) - Sum(rows, CostOverrun)
  {
    if rows != [] {
      NetSplits(rows[..|rows| - 1]);
    }
  }

  /** Resolving a reservation, in whatever way, never raises the net charge. */
  lemma ResolveNet(l: Ledger, rates: Rates, e: Event)
    requires rates.input >= 0.0 && rates.output >= 0.0 && !e.DoReserve?
    ensures Sum(Step(l, rates, e).rows, NetTokens) <= Sum(l.rows, NetTokens)
    ensures Sum(Step(l, rates, e).rows, NetCost) <= Sum(l.rows, NetCost)
  {
    hide Sum, EstimateCost;
    if !e.DoConfigure? && e.id < |l.rows| && l.rows[e.id].standing == Reserved {
      var row := Step(l, rates, e).rows[e.id];
      SumUpdate(l.rows, e.id, row, NetTokens);
      SumUpdate(l.rows, e.id, row, NetCost);
    }
  }

  /** Right after a successful reservation, everything spent or promised fits the budgets in force. */
  lemma ReserveFits(l: Ledger, rates: Rates, bytes: int, maxOutput: int, now: int)
    requires rates.input >= 0.0 && rates.output >= 0.0 && Reserve(l, rates, bytes, maxOutput, now).Ok?
    ensures var (after, id) := Reserve(l, rates, bytes, maxOutput, now).value;
            && Charge(after) == Charge(l) + AtLeastOne(bytes) + AtLeastOne(maxOutput) <= after.tokenBudget
            && (after.costBudget > 0 ==> CostCharge(after) <= after.costBudget)
            && id == |l.rows| && after.rows[id].standing == Reserved && after.rows[..id] == l.rows
  {
    hide Sum, EstimateCost;
    var row := Reserve(l, rates, bytes, maxOutput, now).value.0.rows[|l.rows|];
    SumAppend(l.rows, row, UsedTokens);
    SumAppend(l.rows, row, HeldTokens);
    SumAppend(l.rows, row, UsedCost);
    SumAppend(l.rows, row, HeldCost);
  }

  lemma NetBelowCharge(l: Ledger)
    ensures Sum(l.rows, NetTokens) == Charge(l) - Sum(l.rows, TokenOverrun)
    ensures Sum(l.rows, NetCost) == CostCharge(l) - Sum(l.rows, CostOverrun)
  {
    NetSplits(l.rows);
  }

  /**
   * Over any run from any ledger: used plus held tokens never exceed the largest budget ever in force (or what the
   * ledger started with) plus what finished calls used beyond their reservations.
   */
  lemma {:induction false} TokensBounded(l: Ledger, rates: Rates, events: seq<Event>)
    requires rates.input >= 0.0 && rates.output >= 0.0
    ensures var after := Play(l, rates, events);
            && Sum(after.rows, NetTokens) <= Max(Sum(l.rows, NetTokens), PeakTokens(l, rates, events))
            && Charge(after) <= Max(Charge(l), PeakTokens(l, rates, events)) + Sum(after.rows, TokenOverrun)
            && after.tokenBudget <= PeakTokens(l, rates, events)
  {
    hide Sum, Reserve, Finalize, Release, Uncertain, Configure, Charge, Step;
    NetBelowCharge(l);
    NetBelowCharge(Play(l, rates, events));
    if events != [] {
      var init, e := events[..|events| - 1], events[|events| - 1];
      TokensBounded(l, rates, init);
      var mid := Play(l, rates, init);
      if e.DoReserve? {
        ReserveStep(mid, rates, e);
        NetBelowCharge(Step(mid, rates, e));
      } else {
        ResolveNet(mid, rates, e);
      }
    }
  }

  lemma ReserveStep(l: Ledger, rates: Rates, e: Event)
    requires rates.input >= 0.0 && rates.output >= 0.0 && e.DoReserve?
    ensures var after := Step(l, rates, e);
            && (after == l || Charge(after) <= after.tokenBudget)
            && (after == l || after.costBudget == 0 || CostCharge(after) <= after.costBudget)
  {
    if Reserve(l, rates, e.bytes, e.maxOutput, e.now).Ok? {
      ReserveFits(l, rates, e.bytes, e.maxOutput, e.now);
    }
  }

  /** The same for cost, once a cost budget is set; it can then be changed but never switched off. */
  lemma {:induction false} CostBounded(l: Ledger, rates: Rates, events: seq<Event>)
    requires rates.input >= 0.0 && rates.output >= 0.0 && l.costBudget > 0
    ensures var after := Play(l, rates, events);
            && Sum(after.rows, NetCost) <= Max(Sum(l.rows, NetCost), PeakCost(l, rates, events))
            && CostCharge(after) <= Max(CostCharge(l), PeakCost(l, rates, events)) + Sum(after.rows, CostOverrun)
            && 0 < after.costBudget <= PeakCost(l, rates, events)
  {
    hide Sum, Charge, CostCharge, Step;
    NetBelowCharge(l);
    NetBelowCharge(Play(l, rates, events));
    if events != [] {
      var init, e := events[..|events| - 1], events[|events| - 1];
      CostBounded(l, rates, init);
      var mid := Play(l, rates, init);
      CostBudgetStays(mid, rates, e);
      if e.DoReserve? {
        ReserveStep(mid, rates, e);
        NetBelowCharge(Step(mid, rates, e));
      } else {
        ResolveNet(mid, rates, e);
      }
    }
  }

  lemma CostBudgetStays(l: Ledger, rates: Rates, e: Event)
    requires rates.input >= 0.0 && rates.output >= 0.0 && l.costBudget > 0
    ensures Step(l, rates, e).costBudget > 0
  {
    hide Sum, EstimateCost;
  }

  // ---- each reservation is resolved at most once ----

  /** The life of a row: its reservation never changes, and once it is completed or released nothing does. */
  predicate RowStays(before: Row, after: Row) {
    && after.tokens == before.tokens && after.cost == before.cost
    && (before.standing != Reserved ==> after == before)
    && (before.standing == Reserved && after.standing == Reserved ==> HeldTokens(after) == HeldTokens(before))
  }

  lemma {:induction false} ResolvedOnce(l: Ledger, rates: Rates, events: seq<Event>, i: nat)
    requires rates.input >= 0.0 && rates.output >= 0.0 && i < |l.rows|
    ensures i < |Play(l, rates, events).rows| && RowStays(l.rows[i], Play(l, rates, events).rows[i])
  {
    hide Sum, Charge, CostCharge, EstimateCost;
    if events != [] {
      ResolvedOnce(l, rates, events[..|events| - 1], i);
    }
  }

  /** An uncertain call keeps its whole hold and shows as unreconciled from that moment on. */
  lemma UncertainKeepsHold(l: Ledger, id: nat, now: int)
    requires id < |l.rows| && l.rows[id].standing == Reserved
    ensures var after := Uncertain(l, id, now);
            && Charge(after) == Charge(l) && CostCharge(after) == CostCharge(l)
            && Stale(now)(after.rows[id]) == 1
            && Status(after, now).unreconciled == Status(l, now).unreconciled + 1 - Stale(now)(l.rows[id])
  {
    hide Sum;
    var row := Uncertain(l, id, now).rows[id];
    SumUpdate(l.rows, id, row, UsedTokens);
    SumUpdate(l.rows, id, row, HeldTokens);
    SumUpdate(l.rows, id, row, UsedCost);
    SumUpdate(l.rows, id, row, HeldCost);
    SumUpdate(l.rows, id, row, Stale(now));
  }

  /** A call that stays within its reserved input and output overruns neither tokens nor cost. */
  lemma NoOverrun(l: Ledger, rates: Rates, bytes: int, maxOutput: int, now: int, input: int, output: int)
    requires rates.input >= 0.0 && rates.output >= 0.0 && Reserve(l, rates, bytes, maxOutput, now).Ok?
    requires input <= AtLeastOne(bytes) && output <= AtLeastOne(maxOutput)
    ensures var (held, id) := Reserve(l, rates, bytes, maxOutput, now).value;
            var done := Finalize(held, rates, id, input, output);
            && done.Ok?
            && TokenOverrun(done.value.rows[id]) == 0 && CostOverrun(done.value.rows[id]) == 0
            && Charge(done.value) <= Charge(held) && CostCharge(done.value) <= CostCharge(held)
  {
    hide Sum, EstimateCost;
    var (held, id) := Reserve(l, rates, bytes, maxOutput, now).value;
    CostMonotone(rates, NonNegative(input), NonNegative(output), AtLeastOne(bytes), AtLeastOne(maxOutput));
    var row := Finished(held.rows[id], rates, NonNegative(input), NonNegative(output));
    SumUpdate(held.rows, id, row, UsedTokens);
    SumUpdate(held.rows, id, row, HeldTokens);
    SumUpdate(held.rows, id, row, UsedCost);
    SumUpdate(held.rows, id, row, HeldCost);
  }

  // ---- what Status promises ----

  /**
   * Status predicts Reserve: a request gets through exactly if it fits the reported remainders. A request that costs
   * nothing is the exception: the report is cut off at zero, so it hides that the cost budget is already overdrawn.
   */
  lemma StatusPredictsReserve(l: Ledger, rates: Rates, bytes: int, maxOutput: int, now: int)
    requires rates.input >= 0.0 && rates.output >= 0.0
    ensures var input, output := AtLeastOne(bytes), AtLeastOne(maxOutput);
            var cost := EstimateCost(rates, input, output);
            var report := Status(l, now);
            Reserve(l, rates, bytes, maxOutput, now).Ok? <==>
              && l.active && input + output <= report.remainingTokens
              && (l.costBudget > 0 ==> cost <= report.remainingCost && (cost > 0 || CostCharge(l) <= l.costBudget))
  {
    hide Sum, EstimateCost;
  }

  /** A ledger before its first reservation. */
  function Fresh(active: bool, tokenBudget: nat, costBudget: nat): Ledger {
    Ledger(active, tokenBudget, costBudget, [])
  }

  lemma FreeMeansNoPrices(rates: Rates, input: nat, output: nat)
    requires rates.input >= 0.0 && rates.output >= 0.0 && input >= 1 && output >= 1 && EstimateCost(rates, input, output) == 0
    ensures rates.input == 0.0 && rates.output == 0.0
  {
    assert Price(rates, input, output) <= 0.0;
    assert input as real * rates.input >= rates.input && output as real * rates.output >= rates.output;
  }

  predicate CostNothing(rows: seq<Row>) {
    forall i :: 0 <= i < |rows| ==> rows[i].cost == 0 && rows[i].actualCost == 0
  }

  lemma {:induction false} NoCharge(rows: seq<Row>)
    requires CostNothing(rows)
    ensures Sum(rows, UsedCost) == 0 && Sum(rows, HeldCost) == 0
  {
    if rows != [] {
      NoCharge(rows[..|rows| - 1]);
    }
  }

  lemma {:induction false} FreeLedger(l: Ledger, events: seq<Event>)
    requires CostNothing(l.rows)
    ensures CostNothing(Play(l, Rates(0.0, 0.0), events).rows)
  {
    hide Sum, Charge, CostCharge;
    if events != [] {
      FreeLedger(l, events[..|events| - 1]);
    }
  }

  /** A ledger kept under one price list from its start has no exception: the report alone decides. */
  lemma OneListPredicts(start: Ledger, rates: Rates, events: seq<Event>, bytes: int, maxOutput: int, now: int)
    requires rates.input >= 0.0 && rates.output >= 0.0 && start.rows == []
    ensures var l := Play(start, rates, events);
            var input, output := AtLeastOne(bytes), AtLeastOne(maxOutput);
            var report := Status(l, now);
            Reserve(l, rates, bytes, maxOutput, now).Ok? <==>
              && l.active && input + output <= report.remainingTokens
              && (l.costBudget > 0 ==> EstimateCost(rates, input, output) <= report.remainingCost)
  {
    hide Sum, EstimateCost, Reserve, Play;
    var l := Play(start, rates, events);
    StatusPredictsReserve(l, rates, bytes, maxOutput, now);
    if EstimateCost(rates, AtLeastOne(bytes), AtLeastOne(maxOutput)) == 0 {
      FreeMeansNoPrices(rates, AtLeastOne(bytes), AtLeastOne(maxOutput));
      FreeLedger(start, events);
      NoCharge(l.rows);
    }
  }

  const LISTED := Rates(1.0, 1.0)
  const FREE := Rates(0.0, 0.0)

  /** One call that used more than it had reserved. */
  const OVERDRAW: seq<Event> := [DoReserve(1, 1, 0), DoFinalize(0, 5, 5)]

  lemma Overdrawn()
    ensures Play(Fresh(true, 1000, 5), LISTED, OVERDRAW) == Ledger(true, 1000, 5, [Row(2, 2, Completed, 5, 5, 10, TTL)])
  {
    hide Ceil;
    var start := Fresh(true, 1000, 5);
    assert OVERDRAW[..1] == [DoReserve(1, 1, 0)] && OVERDRAW[..1][..0] == [];
    PriceOf(1, 1);
    PriceOf(5, 5);
    assert Charge(start) == 0 && CostCharge(start) == 0;
    assert Play(start, LISTED, OVERDRAW[..1]) == Ledger(true, 1000, 5, [Row(2, 2, Reserved, 0, 0, 0, TTL)]);
  }

  lemma PriceOf(input: nat, output: nat)
    ensures EstimateCost(LISTED, input, output) == input + output
  {
    assert Price(LISTED, input, output) == (input + output) as real;
  }

  /**
   * The exception is reached once the price list changes: after an overdraft at full price a free model's call looks
   * admissible and is refused.
   */
  lemma StatusCanMislead()
    ensures var l := Play(Fresh(true, 1000, 5), LISTED, OVERDRAW);
            && Status(l, 0).remainingTokens >= 2 && EstimateCost(FREE, 1, 1) <= Status(l, 0).remainingCost
            && Reserve(l, FREE, 1, 1, 0).Err?
  {
    Overdrawn();
    var l := Play(Fresh(true, 1000, 5), LISTED, OVERDRAW);
    assert l.rows[..0] == [];
    assert Sum(l.rows, UsedTokens) == 10 && Sum(l.rows, HeldTokens) == 0;
    assert Sum(l.rows, UsedCost) == 10 && Sum(l.rows, HeldCost) == 0;
  }
}
