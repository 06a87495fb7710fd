/** The per-client token bucket with a bounded, pruned client table. */
module RateLimiter {
  import opened Sorting

  datatype Client = Client(tokens: real, lastSeen: real)

  datatype Limits = Limits(rate: real, burst: int, maxClients: int)

  datatype State = State(clients: map<string, Client>, requests: nat)

  datatype Request = Request(key: string, now: real)

  // Seconds a client may be idle before pruning forgets it, and the width of the request counter.
  const IDLE: real := 600.0
  const UINT64: nat := 0x1_0000_0000_0000_0000

  predicate Enabled(l: Limits) {
    l.rate > 0.0 && 1 <= l.burst < UINT64 / 2 && l.maxClients > 0
  }

  function Prune(clients: map<string, Client>, now: real): (kept: map<string, Client>)
    ensures kept.Keys <= clients.Keys
  {
    map k | k in clients && !(clients[k].lastSeen < now - IDLE) :: clients[k]
  }

  function Min(a: real, b: real): real {
    if a < b then a else b
  }

  /** Tokens credited for a stretch of time. */
  function Gain(l: Limits, seconds: real): real {
    seconds * l.rate
  }

  /** The client's tokens once the time since its last request has been credited. */
  function Refilled(l: Limits, c: Client, now: real): real {
    if now - c.lastSeen > 0.0 then Min(l.burst as real, c.tokens + Gain(l, now - c.lastSeen)) else c.tokens
  }

  /** The client after a request: one token less, if it has one. */
  function Served(l: Limits, c: Client, now: real): Client {
    var tokens := Refilled(l, c, now);
    Client(if tokens >= 1.0 then tokens - 1.0 else tokens, now)
  }

  function Counted(requests: nat): nat {
    (requests + 1) % UINT64
  }

  /** The table when the key is looked up. */
  function Swept(s: State, now: real): map<string, Client> {
    if Counted(s.requests) % 256 == 0 then Prune(s.clients, now) else s.clients
  }

  /** The table when room for the key has been made. */
  function Room(l: Limits, s: State, key: string, now: real): map<string, Client> {
    var clients := Swept(s, now);
    if key !in clients && |clients| >= l.maxClients then Prune(clients, now) else clients
  }

  /** The request is not turned away for lack of room. */
  predicate Admitted(l: Limits, s: State, r: Request) {
    r.key in Room(l, s, r.key, r.now) || |Room(l, s, r.key, r.now)| < l.maxClients
  }

  function ClientOf(l: Limits, clients: map<string, Client>, r: Request): Client {
    if r.key in clients then clients[r.key] else Client(l.burst as real, r.now)
  }

  predicate Allowed(l: Limits, s: State, r: Request) {
    Admitted(l, s, r) && Refilled(l, ClientOf(l, Room(l, s, r.key, r.now), r), r.now) >= 1.0
  }

  function Next(l: Limits, s: State, r: Request): State {
    var clients := Room(l, s, r.key, r.now);
    State(if Admitted(l, s, r) then clients[r.key := Served(l, ClientOf(l, clients, r), r.now)] else clients,
          Counted(s.requests))
  }

  class ClientRateLimiter {
    const limits: Limits
    var clients: map<string, Client>
    var requests: nat

    function View(): State reads this { State(clients, requests) }

    constructor (limits: Limits)
      ensures this.limits == limits && View() == State(map[], 0)
    {
      this.limits := limits;
      clients, requests := map[], 0;
    }

    method PruneClients(now: real)
      modifies this`clients
      ensures clients == Prune(old(clients), now)
    {
      var cutoff := now - 10.0 * 60.0;
      var todo := clients.Keys;
      ghost var start := clients;
      while todo != {}
        invariant todo <= start.Keys && clients.Keys <= start.Keys
        invariant forall k :: k in clients ==> clients[k] == start[k]
        invariant forall k :: k in start ==> (k in clients <==> k in todo || !(start[k].lastSeen < cutoff))
        invariant todo <= clients.Keys
      {
        var key :| key in todo;
        if clients[key].lastSeen < cutoff {
          clients := clients - {key};
        }
        todo := todo - {key};
      }
    }

    /** Credits the idle time and takes a token if there is one. */
    method Take(found: Client, now: real) returns (client: Client, allowed: bool)
      ensures client == Served(limits, found, now) && allowed == (Refilled(limits, found, now) >= 1.0)
    {
      client := found;
      var elapsed := now - client.lastSeen;
      if elapsed > 0.0 {
        client := client.(tokens := Min(limits.burst as real, client.tokens + Gain(limits, elapsed)));
      }
      client := client.(lastSeen := now);
      allowed := client.tokens >= 1.0;
      if allowed {
        client := client.(tokens := client.tokens - 1.0);
      }
    }

    method Allow(key: string, now: real) returns (allowed: bool)
      modifies this
      ensures allowed == Allowed(limits, old(View()), Request(key, now))
      ensures View() == Next(limits, old(View()), Request(key, now))
    {
      hide Prune, Refilled, Served;
      ghost var start, r := View(), Request(key, now);
      requests := (requests + 1) % UINT64;
      if requests % 256 == 0 {
        PruneClients(now);
      }
      var client;
      if key in clients {
        client := clients[key];
      } else {
        if |clients| >= limits.maxClients {
          PruneClients(now);
        }
        if |clients| >= limits.maxClients {
          return false;
        }
        client := Client(limits.burst as real, now);
      }
      assert clients == Room(limits, start, key, now) && client == ClientOf(limits, clients, r);
      client, allowed := Take(client, now);
      clients := clients[key := client];
    }
  }

  // ---- the table over a whole run ----

  predicate InRange(l: Limits, clients: map<string, Client>) {
    forall k :: k in clients ==> 0.0 <= clients[k].tokens <= l.burst as real
  }

  predicate Valid(l: Limits, s: State) {
    |s.clients| <= l.maxClients && s.requests < UINT64 && InRange(l, s.clients)
  }

  function Run(l: Limits, s: State, trace: seq<Request>): State {
    if trace == [] then s else Next(l, Run(l, s, trace[..|trace| - 1]), trace[|trace| - 1])
  }

  const EMPTY := State(map[], 0)

  lemma RefillRange(l: Limits, c: Client, now: real)
    requires Enabled(l) && 0.0 <= c.tokens <= l.burst as real
    ensures c.tokens <= Refilled(l, c, now) <= l.burst as real
  {
    GainMonotone(l, now - c.lastSeen, now - c.lastSeen);
  }

  lemma PruneShrinks(clients: map<string, Client>, now: real)
    ensures |Prune(clients, now)| <= |clients|
  {
    SubsetSize(Prune(clients, now).Keys, clients.Keys);
  }

  lemma RoomFacts(l: Limits, s: State, r: Request)
    requires Enabled(l) && Valid(l, s)
    ensures var clients := Room(l, s, r.key, r.now);
            && |clients| <= l.maxClients
            && (forall k :: k in clients ==> k in s.clients && clients[k] == s.clients[k])
            && (forall k :: k in s.clients && k !in clients ==> s.clients[k].lastSeen < r.now - IDLE)
  {
    PruneShrinks(s.clients, r.now);
    PruneShrinks(Swept(s, r.now), r.now);
  }

  lemma NextValid(l: Limits, s: State, r: Request)
    requires Enabled(l) && Valid(l, s)
    ensures Valid(l, Next(l, s, r))
  {
    hide Room, Refilled;
    RoomFacts(l, s, r);
    var clients := Room(l, s, r.key, r.now);
    var c := ClientOf(l, clients, r);
    RefillRange(l, c, r.now);
    if Admitted(l, s, r) {
      var after := clients[r.key := Served(l, c, r.now)];
      assert after.Keys == clients.Keys + {r.key};
    }
  }

  /** Over any run tokens stay within [0, burst] and the table within maxClients. */
  lemma {:induction false} RunValid(l: Limits, trace: seq<Request>)
    requires Enabled(l)
    ensures Valid(l, Run(l, EMPTY, trace))
  {
    hide Valid, Next;
    if trace == [] {
      EmptyValid(l);
    } else {
      RunValid(l, trace[..|trace| - 1]);
      NextValid(l, Run(l, EMPTY, trace[..|trace| - 1]), trace[|trace| - 1]);
    }
  }

  lemma EmptyValid(l: Limits)
    requires Enabled(l)
    ensures Valid(l, EMPTY)
  {
  }

  // ---- how much one client gets through ----

  /** What the limiter would grant the key at once at that moment; an unknown client has a full bucket. */
  function Potential(l: Limits, clients: map<string, Client>, key: string, now: real): real {
    if key in clients then Refilled(l, clients[key], now) else l.burst as real
  }

  /** Requests of the key that get through. */
  function Through(l: Limits, s: State, trace: seq<Request>, key: string): nat {
    if trace == [] then 0
    else
      var init, r := trace[..|trace| - 1], trace[|trace| - 1];
      Through(l, s, init, key) + if r.key == key && Allowed(l, Run(l, s, init), r) then 1 else 0
  }

  /** Total forward movement of the clock readings; readings taken by concurrent requests may arrive out of order. */
  function Forward(trace: seq<Request>): real {
    if |trace| <= 1 then 0.0
    else
      var n := |trace|;
      Forward(trace[..n - 1]) + if trace[n - 1].now > trace[n - 2].now then trace[n - 1].now - trace[n - 2].now else 0.0
  }

  /** An idle bucket is full again before pruning may forget it. */
  predicate RefillsBeforePruning(l: Limits) {
    l.burst as real <= Gain(l, IDLE)
  }

  lemma GainMonotone(l: Limits, a: real, b: real)
    requires l.rate > 0.0
    ensures a <= b ==> Gain(l, a) <= Gain(l, b)
    ensures 0.0 <= a ==> 0.0 <= Gain(l, a)
  {
    if a <= b {
      assert (b - a) * l.rate >= 0.0;
    }
  }

  lemma GainSum(l: Limits, a: real, b: real)
    ensures Gain(l, a + b) == Gain(l, a) + Gain(l, b)
  {
  }

  lemma PrunedIsFull(l: Limits, c: Client, now: real)
    requires Enabled(l) && RefillsBeforePruning(l) && 0.0 <= c.tokens <= l.burst as real && c.lastSeen < now - IDLE
    ensures Refilled(l, c, now) == l.burst as real
  {
    hide Gain;
    GainMonotone(l, IDLE, now - c.lastSeen);
  }

  /** Making room changes nobody's potential when idle buckets refill before pruning. */
  lemma RoomKeepsPotential(l: Limits, s: State, r: Request, key: string)
    requires Enabled(l) && Valid(l, s) && RefillsBeforePruning(l)
    ensures Potential(l, Room(l, s, r.key, r.now), key, r.now) == Potential(l, s.clients, key, r.now)
  {
    hide Room, Refilled;
    RoomFacts(l, s, r);
    if key in s.clients && key !in Room(l, s, r.key, r.now) {
      PrunedIsFull(l, s.clients[key], r.now);
    }
  }

  lemma NextPotential(l: Limits, s: State, r: Request, key: string)
    requires Enabled(l) && Valid(l, s) && RefillsBeforePruning(l)
    ensures Potential(l, Next(l, s, r).clients, key, r.now)
            == Potential(l, s.clients, key, r.now) - if r.key == key && Allowed(l, s, r) then 1.0 else 0.0
  {
    hide Room, Valid;
    RoomKeepsPotential(l, s, r, key);
  }

  /** Potential grows no faster than the rate, and does not grow at all when the clock reading goes back. */
  lemma Drift(l: Limits, clients: map<string, Client>, key: string, t: real, u: real)
    requires Enabled(l) && InRange(l, clients)
    ensures Potential(l, clients, key, u) <= Potential(l, clients, key, t) + Gain(l, if u > t then u - t else 0.0)
    ensures Potential(l, clients, key, t) <= l.burst as real
    ensures Potential(l, clients, key, t) >= 0.0
  {
    hide Gain, Refilled;
    var step := if u > t then u - t else 0.0;
    GainMonotone(l, step, step);
    if key in clients {
      var c := clients[key];
      RefillRange(l, c, t);
      RefillRange(l, c, u);
      DriftOne(l, c, t, u);
    }
  }

  lemma ValidInRange(l: Limits, s: State)
    requires Valid(l, s)
    ensures InRange(l, s.clients)
  {
  }

  lemma DriftOne(l: Limits, c: Client, t: real, u: real)
    requires Enabled(l) && 0.0 <= c.tokens <= l.burst as real
    ensures Refilled(l, c, u) <= Refilled(l, c, t) + Gain(l, if u > t then u - t else 0.0)
  {
    hide Gain;
    var step := if u > t then u - t else 0.0;
    GainMonotone(l, step, step);
    GainMonotone(l, u - c.lastSeen, t - c.lastSeen + step);
    GainMonotone(l, u - c.lastSeen, step);
    GainSum(l, t - c.lastSeen, step);
    RefillRange(l, c, t);
  }

  lemma {:induction false} Budget(l: Limits, s: State, trace: seq<Request>, key: string)
    requires Enabled(l) && Valid(l, s) && RefillsBeforePruning(l) && trace != []
    ensures var last := trace[|trace| - 1].now;
            && Valid(l, Run(l, s, trace))
            && Through(l, s, trace, key) as real + Potential(l, Run(l, s, trace).clients, key, last)
               <= l.burst as real + Gain(l, Forward(trace))
  {
    hide Allowed, Valid, Next, Potential, Refilled, RefillsBeforePruning, Enabled, Gain;
    var n := |trace|;
    var init, r := trace[..n - 1], trace[n - 1];
    var mid := Run(l, s, init);
    if n > 1 {
      Budget(l, s, init, key);
      ValidInRange(l, mid);
      Drift(l, mid.clients, key, init[n - 2].now, r.now);
      var step := if r.now > init[n - 2].now then r.now - init[n - 2].now else 0.0;
      assert Gain(l, Forward(trace)) == Gain(l, Forward(init)) + Gain(l, step) by {
        assert Forward(trace) == Forward(init) + step;
        GainSum(l, Forward(init), step);
      }
    } else {
      assert init == [];
      ValidInRange(l, mid);
      Drift(l, mid.clients, key, r.now, r.now);
    }
    NextValid(l, mid, r);
    NextPotential(l, mid, r, key);
  }

  /** In any window of any run one client gets through at most burst + rate * (forward clock movement) requests. */
  lemma WindowBound(l: Limits, before: seq<Request>, window: seq<Request>, key: string)
    requires Enabled(l) && RefillsBeforePruning(l)
    ensures Through(l, Run(l, EMPTY, before), window, key) as real <= l.burst as real + Gain(l, Forward(window))
  {
    hide Next, Valid, Through, Potential;
    var s := Run(l, EMPTY, before);
    RunValid(l, before);
    if window != [] {
      Budget(l, s, window, key);
      RunValidFrom(l, s, window);
      ValidInRange(l, Run(l, s, window));
      Drift(l, Run(l, s, window).clients, key, window[|window| - 1].now, window[|window| - 1].now);
    } else {
      NothingThrough(l, s, key);
    }
  }

  lemma NothingThrough(l: Limits, s: State, key: string)
    ensures Through(l, s, [], key) == 0
  {
  }

  lemma {:induction false} RunValidFrom(l: Limits, s: State, trace: seq<Request>)
    requires Enabled(l) && Valid(l, s)
    ensures Valid(l, Run(l, s, trace))
  {
    hide Valid, Next;
    if trace != [] {
      RunValidFrom(l, s, trace[..|trace| - 1]);
      NextValid(l, Run(l, s, trace[..|trace| - 1]), trace[|trace| - 1]);
    }
  }

  predicate Monotone(trace: seq<Request>) {
    forall i, j :: 0 <= i < j < |trace| ==> trace[i].now <= trace[j].now
  }

  /** With a clock that never goes back the forward movement is the length of the window. */
  lemma {:induction false} ForwardIsLength(trace: seq<Request>)
    requires Monotone(trace) && trace != []
    ensures Forward(trace) == trace[|trace| - 1].now - trace[0].now
  {
    if |trace| > 1 {
      ForwardIsLength(trace[..|trace| - 1]);
    }
  }

  // ---- a reference that never prunes ----

  /** The limiter and, beside it, buckets that are never pruned and see the requests the table had room for. */
  function Twin(l: Limits, s: State, buckets: map<string, Client>, trace: seq<Request>): map<string, Client> {
    if trace == [] then buckets
    else
      var init, r := trace[..|trace| - 1], trace[|trace| - 1];
      var before := Twin(l, s, buckets, init);
      if Admitted(l, Run(l, s, init), r) then before[r.key := Served(l, ClientOf(l, before, r), r.now)] else before
  }

  /** From t on nobody can tell the two apart. */
  ghost predicate Indistinguishable(l: Limits, clients: map<string, Client>, buckets: map<string, Client>, t: real) {
    forall k, u :: u >= t ==> Potential(l, clients, k, u) == Potential(l, buckets, k, u)
  }

  lemma LaterPotential(l: Limits, s: State, r: Request, k: string, u: real)
    requires Enabled(l) && Valid(l, s) && RefillsBeforePruning(l) && u >= r.now
    ensures Potential(l, Room(l, s, r.key, r.now), k, u) == Potential(l, s.clients, k, u)
  {
    hide Room, Refilled;
    RoomFacts(l, s, r);
    if k in s.clients && k !in Room(l, s, r.key, r.now) {
      PrunedIsFull(l, s.clients[k], u);
    }
  }

  lemma ServedPotential(l: Limits, clients: map<string, Client>, buckets: map<string, Client>, r: Request)
    requires Indistinguishable(l, clients, buckets, r.now)
    ensures Served(l, ClientOf(l, clients, r), r.now) == Served(l, ClientOf(l, buckets, r), r.now)
    ensures Refilled(l, ClientOf(l, clients, r), r.now) == Refilled(l, ClientOf(l, buckets, r), r.now)
  {
    assert Potential(l, clients, r.key, r.now) == Potential(l, buckets, r.key, r.now);
  }

  lemma TwinStep(l: Limits, s: State, buckets: map<string, Client>, r: Request)
    requires Enabled(l) && Valid(l, s) && RefillsBeforePruning(l)
    requires Indistinguishable(l, s.clients, buckets, r.now)
    ensures var after := if Admitted(l, s, r) then buckets[r.key := Served(l, ClientOf(l, buckets, r), r.now)] else buckets;
            Indistinguishable(l, Next(l, s, r).clients, after, r.now)
    ensures Admitted(l, s, r) ==> (Allowed(l, s, r) <==> Refilled(l, ClientOf(l, buckets, r), r.now) >= 1.0)
  {
    hide Room, Valid, Refilled, Served;
    var room := Room(l, s, r.key, r.now);
    forall k, u | u >= r.now ensures Potential(l, room, k, u) == Potential(l, buckets, k, u) {
      LaterPotential(l, s, r, k, u);
    }
    ServedPotential(l, room, buckets, r);
    var after := if Admitted(l, s, r) then buckets[r.key := Served(l, ClientOf(l, buckets, r), r.now)] else buckets;
    forall k, u | u >= r.now ensures Potential(l, Next(l, s, r).clients, k, u) == Potential(l, after, k, u) {
      assert Potential(l, room, k, u) == Potential(l, buckets, k, u);
    }
  }

  /** Pruning is invisible: every request the table has room for gets the answer an unpruned bucket would give. */
  lemma {:induction false} PruningInvisible(l: Limits, trace: seq<Request>, r: Request)
    requires Enabled(l) && RefillsBeforePruning(l) && Monotone(trace + [r])
    ensures Indistinguishable(l, Run(l, EMPTY, trace).clients, Twin(l, EMPTY, map[], trace), r.now)
    ensures Admitted(l, Run(l, EMPTY, trace), r) ==>
              (Allowed(l, Run(l, EMPTY, trace), r) <==>
               Refilled(l, ClientOf(l, Twin(l, EMPTY, map[], trace), r), r.now) >= 1.0)
  {
    hide Next, Valid, Admitted, Allowed, Refilled, Served, Enabled, RefillsBeforePruning;
    if trace != [] {
      var n := |trace|;
      var init, last := trace[..n - 1], trace[n - 1];
      assert init + [last] == trace;
      assert forall i :: 0 <= i < n ==> (trace + [r])[i] == trace[i];
      assert (trace + [r])[n] == r;
      PruningInvisible(l, init, last);
      RunValid(l, init);
      TwinStep(l, Run(l, EMPTY, init), Twin(l, EMPTY, map[], init), last);
      assert Indistinguishable(l, Run(l, EMPTY, trace).clients, Twin(l, EMPTY, map[], trace), last.now);
      assert last.now <= r.now;
    }
    RunValid(l, trace);
    TwinStep(l, Run(l, EMPTY, trace), Twin(l, EMPTY, map[], trace), r);
  }

  // ---- when the bound fails ----

  /** n requests of one client at one moment. */
  function Volley(key: string, now: real, n: nat): seq<Request> {
    seq(n, i => Request(key, now))
  }

  lemma VolleyStep(key: string, now: real, n: nat)
    requires n > 0
    ensures Volley(key, now, n)[..n - 1] == Volley(key, now, n - 1) && Volley(key, now, n)[n - 1] == Request(key, now)
  {
  }

  function Left(burst: int, n: nat): real {
    if n <= burst then (burst - n) as real else 0.0
  }

  /** One request of the only known client, seen at this very moment: it loses one token, if it has one. */
  lemma OneShot(l: Limits, s: State, c: Client, r: Request)
    requires Enabled(l) && s.clients == map[r.key := c] && c.lastSeen == r.now && s.requests + 1 < UINT64
    ensures Allowed(l, s, r) <==> c.tokens >= 1.0
    ensures Next(l, s, r) == State(map[r.key := Client(if c.tokens >= 1.0 then c.tokens - 1.0 else c.tokens, r.now)], s.requests + 1)
  {
    assert Prune(s.clients, r.now) == s.clients;
    assert s.clients[r.key := Served(l, c, r.now)] == map[r.key := Served(l, c, r.now)];
  }

  lemma {:induction false} Drain(l: Limits, s: State, c: Client, key: string, now: real, n: nat)
    requires Enabled(l) && s.clients == map[key := c] && c.lastSeen == now && c.tokens == Left(l.burst, 1)
    requires s.requests + n < UINT64
    ensures Run(l, s, Volley(key, now, n)) == State(map[key := Client(Left(l.burst, n + 1), now)], s.requests + n)
    ensures n < l.burst ==> Through(l, s, Volley(key, now, n), key) == n
  {
    hide Next, Allowed;
    if n > 0 {
      VolleyStep(key, now, n);
      Drain(l, s, c, key, now, n - 1);
      var mid := Run(l, s, Volley(key, now, n - 1));
      OneShot(l, mid, Client(Left(l.burst, n), now), Request(key, now));
    } else {
      assert Volley(key, now, 0) == [];
    }
  }

  /** The first request of an unknown client, whether the table is empty or pruning has just emptied it. */
  lemma FirstShot(l: Limits, s: State, r: Request)
    requires Enabled(l) && s.requests + 1 < UINT64
    requires s.clients == map[] ||
             ((s.requests + 1) % 256 == 0 && forall k :: k in s.clients ==> s.clients[k].lastSeen < r.now - IDLE)
    ensures Allowed(l, s, r)
    ensures Next(l, s, r) == State(map[r.key := Client(Left(l.burst, 1), r.now)], s.requests + 1)
  {
    assert Prune(s.clients, r.now) == map[];
    assert Room(l, s, r.key, r.now) == map[];
    var c := Served(l, Client(l.burst as real, r.now), r.now);
    assert map[][r.key := c] == map[r.key := c];
  }

  lemma {:induction false} ThroughSplit(l: Limits, s: State, a: seq<Request>, b: seq<Request>, key: string)
    ensures Run(l, s, a + b) == Run(l, Run(l, s, a), b)
    ensures Through(l, s, a + b, key) == Through(l, s, a, key) + Through(l, Run(l, s, a), b, key)
  {
    hide Next, Allowed;
    if b == [] {
      assert a + b == a;
    } else {
      var init := b[..|b| - 1];
      assert (a + b)[..|a + b| - 1] == a + init;
      ThroughSplit(l, s, a, init, key);
    }
  }

  lemma VolleySplit(key: string, now: real, a: nat, b: nat)
    ensures Volley(key, now, a + b) == Volley(key, now, a) + Volley(key, now, b)
  {
  }

  predicate AboutToForget(s: State, now: real) {
    (s.requests + 1) % 256 == 0 && forall k :: k in s.clients ==> s.clients[k].lastSeen < now - IDLE
  }

  lemma SingleShot(l: Limits, s: State, r: Request)
    requires Enabled(l) && s.requests + 1 < UINT64 && (s.clients == map[] || AboutToForget(s, r.now))
    ensures Run(l, s, [r]) == State(map[r.key := Client(Left(l.burst, 1), r.now)], s.requests + 1)
    ensures Through(l, s, [r], r.key) == 1
  {
    hide Next, Allowed, Left;
    FirstShot(l, s, r);
    assert [r][..0] == [] && Run(l, s, []) == s;
  }

  /** A volley by an unknown client: the first burst requests get through. */
  lemma FullVolley(l: Limits, s: State, key: string, now: real, n: nat)
    requires Enabled(l) && n >= l.burst && s.requests + n < UINT64
    requires s.clients == map[] || AboutToForget(s, now)
    ensures Through(l, s, Volley(key, now, n), key) >= l.burst
    ensures Run(l, s, Volley(key, now, n)) == State(map[key := Client(Left(l.burst, n), now)], s.requests + n)
  {
    hide Next, Allowed, Volley, Left, Run, Through;
    var r := Request(key, now);
    SingleShot(l, s, r);
    var first := Run(l, s, [r]);
    var c := Client(Left(l.burst, 1), now);
    var b := l.burst - 1;
    Drain(l, first, c, key, now, b);
    Drain(l, first, c, key, now, n - 1);
    VolleySplit(key, now, 1, n - 1);
    VolleySplit(key, now, b, n - 1 - b);
    OneVolley(key, now);
    ThroughSplit(l, s, [r], Volley(key, now, n - 1), key);
    ThroughSplit(l, first, Volley(key, now, b), Volley(key, now, n - 1 - b), key);
  }

  lemma OneVolley(key: string, now: real)
    ensures Volley(key, now, 1) == [Request(key, now)]
  {
  }

  /** Enough requests to spend the burst and to make the next one the 256th of its round. */
  function Opening(l: Limits): (n: nat)
    requires l.burst >= 1
    ensures l.burst <= n <= l.burst + 255 && (n + 1) % 256 == 0
  {
    256 * (l.burst / 256 + 1) - 1
  }

  /** One client spends its burst, falls silent until pruning can forget it, and spends a second burst too early. */
  function Abuse(l: Limits, pause: real): seq<Request>
    requires l.burst >= 1
  {
    Volley("a", 0.0, Opening(l)) + Volley("a", pause, l.burst)
  }

  lemma AbuseGetsThrough(l: Limits, pause: real)
    requires Enabled(l) && pause > IDLE
    ensures Through(l, EMPTY, Abuse(l, pause), "a") >= 2 * l.burst
    ensures Monotone(Abuse(l, pause)) && Forward(Abuse(l, pause)) == pause
  {
    hide Next, Allowed, Forward, Run, Through, Left, Volley;
    var n := Opening(l);
    var a, b := Volley("a", 0.0, n), Volley("a", pause, l.burst);
    FullVolley(l, EMPTY, "a", 0.0, n);
    var mid := Run(l, EMPTY, a);
    assert mid == State(map["a" := Client(Left(l.burst, n), 0.0)], n);
    FullVolley(l, mid, "a", pause, l.burst);
    ThroughSplit(l, EMPTY, a, b, "a");
    AbuseOrder(l, pause);
  }

  lemma AbuseOrder(l: Limits, pause: real)
    requires l.burst >= 1 && pause >= 0.0
    ensures Monotone(Abuse(l, pause)) && Forward(Abuse(l, pause)) == pause
  {
    hide Forward;
    ForwardIsLength(Abuse(l, pause));
  }

  /** The window bound holds for every run with a forward clock exactly when idle buckets refill before pruning. */
  lemma WindowBoundExactly(l: Limits)
    requires Enabled(l)
    ensures RefillsBeforePruning(l) <==>
            forall before, window: seq<Request>, key :: Monotone(before + window) ==>
              Through(l, Run(l, EMPTY, before), window, key) as real <= l.burst as real + Gain(l, Forward(window))
  {
    hide Next, Through, Monotone, Forward, Volley;
    if RefillsBeforePruning(l) {
      forall before, window: seq<Request>, key | Monotone(before + window)
        ensures Through(l, Run(l, EMPTY, before), window, key) as real <= l.burst as real + Gain(l, Forward(window))
      {
        WindowBound(l, before, window, key);
      }
    } else {
      var pause := (IDLE + l.burst as real / l.rate) / 2.0;
      AbuseGetsThrough(l, pause);
      var window := Abuse(l, pause);
      assert [] + window == window && Run(l, EMPTY, []) == EMPTY;
      assert Through(l, Run(l, EMPTY, []), window, "a") as real > l.burst as real + Gain(l, Forward(window));
    }
  }

  // ---- when pruning shows ----

  /** A request the table has room for gets the answer an unpruned bucket would give. */
  predicate AnsweredAlike(l: Limits, trace: seq<Request>, r: Request) {
    Admitted(l, Run(l, EMPTY, trace), r) ==>
      (Allowed(l, Run(l, EMPTY, trace), r) <==> Refilled(l, ClientOf(l, Twin(l, EMPTY, map[], trace), r), r.now) >= 1.0)
  }

  ghost predicate Invisible(l: Limits) {
    forall trace: seq<Request>, r :: Monotone(trace + [r]) ==> AnsweredAlike(l, trace, r)
  }

  /** One request seen by buckets that are never pruned, and answered as they would. */
  lemma TwinPotential(l: Limits, trace: seq<Request>, r: Request, key: string)
    requires Enabled(l) && InRange(l, Twin(l, EMPTY, map[], trace)) && AnsweredAlike(l, trace, r)
    ensures var before, after := Twin(l, EMPTY, map[], trace), Twin(l, EMPTY, map[], trace + [r]);
            && InRange(l, after)
            && Potential(l, after, key, r.now)
               == Potential(l, before, key, r.now) - if r.key == key && Allowed(l, Run(l, EMPTY, trace), r) then 1.0 else 0.0
  {
    hide Room, Gain, Run;
    assert (trace + [r])[..|trace|] == trace;
    var before := Twin(l, EMPTY, map[], trace);
    assert 0.0 <= ClientOf(l, before, r).tokens <= l.burst as real;
    RefillRange(l, ClientOf(l, before, r), r.now);
  }

  /** If pruning never shows, the limiter lets through no more than buckets that are never pruned. */
  lemma {:induction false} TwinBudget(l: Limits, trace: seq<Request>, key: string)
    requires Enabled(l) && Invisible(l) && Monotone(trace) && trace != []
    ensures var twin := Twin(l, EMPTY, map[], trace); var last := trace[|trace| - 1].now;
            && InRange(l, twin)
            && Through(l, EMPTY, trace, key) as real + Potential(l, twin, key, last) <= l.burst as real + Gain(l, Forward(trace))
  {
    hide Allowed, Admitted, Next, Potential, Refilled, Enabled, Gain, AnsweredAlike, InRange, Twin;
    var n := |trace|;
    var init, r := trace[..n - 1], trace[n - 1];
    assert init + [r] == trace;
    assert AnsweredAlike(l, init, r);
    var twin := Twin(l, EMPTY, map[], init);
    if n > 1 {
      TwinBudget(l, init, key);
      Drift(l, twin, key, init[n - 2].now, r.now);
      var step := if r.now > init[n - 2].now then r.now - init[n - 2].now else 0.0;
      assert Gain(l, Forward(trace)) == Gain(l, Forward(init)) + Gain(l, step) by {
        assert Forward(trace) == Forward(init) + step;
        GainSum(l, Forward(init), step);
      }
    } else {
      assert init == [];
      NoTwin(l);
      Drift(l, twin, key, r.now, r.now);
    }
    TwinPotential(l, init, r, key);
  }

  lemma NoTwin(l: Limits)
    ensures InRange(l, Twin(l, EMPTY, map[], []))
  {
  }

  /** Nobody can tell a pruned table from one that is never pruned exactly when idle buckets refill before pruning. */
  lemma PruningInvisibleExactly(l: Limits)
    requires Enabled(l)
    ensures RefillsBeforePruning(l) <==> Invisible(l)
  {
    hide Next, Through, Monotone, Forward, Volley, Abuse, Twin, Potential, Allowed, Admitted, Refilled, InRange;
    if RefillsBeforePruning(l) {
      forall trace: seq<Request>, r | Monotone(trace + [r]) ensures AnsweredAlike(l, trace, r) {
        PruningInvisible(l, trace, r);
      }
    } else if Invisible(l) {
      AbuseIsBounded(l);
    }
  }

  lemma AbuseIsBounded(l: Limits)
    requires Enabled(l) && Invisible(l)
    ensures RefillsBeforePruning(l)
  {
    hide Next, Through, Monotone, Forward, Twin, Potential, Allowed, Admitted, Refilled, InRange, AnsweredAlike, Invisible;
    if !RefillsBeforePruning(l) {
      var pause := (IDLE + l.burst as real / l.rate) / 2.0;
      var trace := Abuse(l, pause);
      AbuseGetsThrough(l, pause);
      TwinBudget(l, trace, "a");
      Drift(l, Twin(l, EMPTY, map[], trace), "a", pause, pause);
    }
  }
}
