/** The generation protocol of one document set's index: begin, complete, fail, and calls that arrive late. */
module IndexGenerations {
  import opened Results

  datatype Phase = Indexing | Ready | Failed | Superseded

  datatype Generation = Generation(phase: Phase, fingerprint: string, model: string, snapshot: nat, chunkCount: nat)

  /** The status row: never SUPERSEDED, because superseding moves it on to the next generation. */
  datatype Status = Status(phase: Phase, generation: nat, fingerprint: string, model: string, snapshot: nat, chunkCount: nat)

  datatype Chunk = Chunk(version: nat, key: string, payload: string)

  /** A chunk to store, with a flag for the shape of its embedding. */
  datatype Input = Input(chunk: Chunk, vectorOk: bool)

  datatype Member = Member(ordinal: nat, chunk: nat)

  /** Chunk rows are identified by position; members lists each generation's memberships in insertion order. */
  datatype Db = Db(status: Option<Status>, generations: map<nat, Generation>, members: map<nat, seq<Member>>, chunks: seq<Chunk>)

  function MembersOf(db: Db, g: nat): seq<Member> {
    if g in db.members then db.members[g] else []
  }

  // ---- Begin ----

  predicate Unchanged(db: Db, fingerprint: string, model: string, snapshot: nat) {
    db.status.Some? && var s := db.status.value;
    (s.phase == Ready || s.phase == Indexing) && s.fingerprint == fingerprint && s.model == model && s.snapshot == snapshot
  }

  /** The generations after the one being indexed, if any, has been superseded. */
  function Superseding(db: Db): map<nat, Generation> {
    if db.status.Some? && db.status.value.phase == Indexing && db.status.value.generation > 0 &&
       db.status.value.generation in db.generations && db.generations[db.status.value.generation].phase == Indexing
    then db.generations[db.status.value.generation := db.generations[db.status.value.generation].(phase := Superseded)]
    else db.generations
  }

  function NextNumber(db: Db): nat {
    if db.status.Some? then db.status.value.generation + 1 else 1
  }

  /** Returns the new state and the generation started; None when the running or finished index already matches. */
  function Begin(db: Db, fingerprint: string, model: string, snapshot: nat): Result<(Db, Option<nat>)> {
    if Unchanged(db, fingerprint, model, snapshot) then Ok((db, None))
    else
      var g := NextNumber(db);
      var kept := if db.status.Some? then db.status.value.chunkCount else 0;
      var generations := Superseding(db);
      if g in generations then Err(ConstraintViolated)
      else Ok((db.(status := Some(Status(Indexing, g, fingerprint, model, snapshot, kept)),
                   generations := generations[g := Generation(Indexing, fingerprint, model, snapshot, 0)]), Some(g)))
  }

  // ---- Complete ----

  function Find(chunks: seq<Chunk>, version: nat, key: string): (i: Option<nat>)
    ensures i.Some? ==> i.value < |chunks| && chunks[i.value].version == version && chunks[i.value].key == key
    ensures i.None? ==> forall k :: 0 <= k < |chunks| ==> !(chunks[k].version == version && chunks[k].key == key)
  {
    if chunks == [] then None
    else if chunks[|chunks| - 1].version == version && chunks[|chunks| - 1].key == key then Some(|chunks| - 1)
    else Find(chunks[..|chunks| - 1], version, key)
  }

  /** INSERT ... ON CONFLICT (version, key) DO UPDATE ... RETURNING id. */
  function Upsert(chunks: seq<Chunk>, c: Chunk): (r: (seq<Chunk>, nat))
    ensures r.1 < |r.0| && r.0[r.1] == c && |chunks| <= |r.0|
  {
    var i := Find(chunks, c.version, c.key);
    if i.Some? then (chunks[i.value := c], i.value) else (chunks + [c], |chunks|)
  }

  predicate Taken(members: seq<Member>, ordinal: nat, chunk: nat) {
    exists m :: m in members && (m.ordinal == ordinal || m.chunk == chunk)
  }

  /** One chunk: its embedding, its row, its membership in the generation. */
  function StoreOne(db: Db, g: nat, input: Input, ordinal: nat): Result<Db> {
    if !input.vectorOk then Err(InvalidInput)
    else
      var (chunks, id) := Upsert(db.chunks, input.chunk);
      if g !in db.generations || Taken(MembersOf(db, g), ordinal, id) then Err(ConstraintViolated)
      else Ok(db.(chunks := chunks, members := db.members[g := MembersOf(db, g) + [Member(ordinal, id)]]))
  }

  function StoreAll(db: Db, g: nat, inputs: seq<Input>): Result<Db> {
    if inputs == [] then Ok(db)
    else
      var before :- StoreAll(db, g, inputs[..|inputs| - 1]);
      StoreOne(before, g, inputs[|inputs| - 1], |inputs|)
  }

  /** The two guarded updates shared by Complete and Fail: the generation's row, and the status row if it is current. */
  function Settle(db: Db, g: nat, phase: Phase, chunkCount: Option<nat>): Db {
    var generations :=
      if g in db.generations && db.generations[g].phase == Indexing
      then db.generations[g := db.generations[g].(phase := phase,
             chunkCount := if chunkCount.Some? then chunkCount.value else db.generations[g].chunkCount)]
      else db.generations;
    var status :=
      if db.status.Some? && db.status.value.generation == g && db.status.value.phase == Indexing
      then Some(db.status.value.(phase := phase,
             chunkCount := if chunkCount.Some? then chunkCount.value else db.status.value.chunkCount))
      else db.status;
    db.(generations := generations, status := status)
  }

  function Complete(db: Db, g: nat, inputs: seq<Input>): Result<Db> {
    var stored :- StoreAll(db, g, inputs);
    Ok(Settle(stored, g, Ready, Some(|inputs|)))
  }

  function Fail(db: Db, g: nat): Db {
    Settle(db, g, Failed, None)
  }

  class IndexRepository {
    var status: Option<Status>
    var generations: map<nat, Generation>
    var members: map<nat, seq<Member>>
    var chunks: seq<Chunk>

    function View(): Db reads this { Db(status, generations, members, chunks) }

    method BeginIndex(fingerprint: string, model: string, snapshot: nat) returns (started: Result<Option<nat>>)
      modifies this
      ensures var result := Begin(old(View()), fingerprint, model, snapshot);
              if result.Ok? then View() == result.value.0 && started == Ok(result.value.1)
              else View() == old(View()) && started == Err(result.error)
      ensures View() == Step(old(View()), DoBegin(fingerprint, model, snapshot))
    {
      var start := View();
      if status.Some? && (status.value.phase == Ready || status.value.phase == Indexing) &&
         status.value.fingerprint == fingerprint && status.value.model == model && status.value.snapshot == snapshot {
        return Ok(None);
      }
      var g, kept := 1, 0;
      if status.Some? {
        var current := status.value.generation;
        if status.value.phase == Indexing && current > 0 && current in generations && generations[current].phase == Indexing {
          generations := generations[current := generations[current].(phase := Superseded)];
        }
        g, kept := current + 1, status.value.chunkCount;
      }
      status := Some(Status(Indexing, g, fingerprint, model, snapshot, kept));
      if g in generations {
        status, generations := start.status, start.generations;
        return Err(ConstraintViolated);
      }
      generations := generations[g := Generation(Indexing, fingerprint, model, snapshot, 0)];
      started := Ok(Some(g));
    }

    method StoreChunk(g: nat, input: Input, ordinal: nat) returns (error: Option<Failure>)
      modifies this`chunks, this`members
      ensures var result := StoreOne(old(View()), g, input, ordinal);
              if result.Ok? then error == None && View() == result.value else error == Some(result.error)
    {
      if !input.vectorOk {
        return Some(InvalidInput);
      }
      var updated, id := Upsert(chunks, input.chunk).0, Upsert(chunks, input.chunk).1;
      chunks := updated;
      var current := if g in members then members[g] else [];
      if g !in generations || Taken(current, ordinal, id) {
        return Some(ConstraintViolated);
      }
      members := members[g := current + [Member(ordinal, id)]];
      error := None;
    }

    method SettleGeneration(g: nat, phase: Phase, chunkCount: Option<nat>)
      modifies this`generations, this`status
      ensures View() == Settle(old(View()), g, phase, chunkCount)
    {
      if g in generations && generations[g].phase == Indexing {
        generations := generations[g := generations[g].(phase := phase,
          chunkCount := if chunkCount.Some? then chunkCount.value else generations[g].chunkCount)];
      }
      if status.Some? && status.value.generation == g && status.value.phase == Indexing {
        status := Some(status.value.(phase := phase,
          chunkCount := if chunkCount.Some? then chunkCount.value else status.value.chunkCount));
      }
    }

    /** Stores all chunks and settles both rows, or leaves everything as it was. */
    method CompleteIndex(g: nat, inputs: seq<Input>) returns (error: Option<Failure>)
      modifies this
      ensures var result := Complete(old(View()), g, inputs);
              if result.Ok? then error == None && View() == result.value
              else error == Some(result.error) && View() == old(View())
      ensures View() == Step(old(View()), DoComplete(g, inputs))
    {
      hide StoreOne, Settle;
      var start := View();
      var i := 0;
      while i < |inputs|
        invariant 0 <= i <= |inputs|
        invariant StoreAll(start, g, inputs[..i]) == Ok(View())
      {
        assert inputs[..i + 1][..i] == inputs[..i] && inputs[..i + 1][i] == inputs[i];
        error := StoreChunk(g, inputs[i], i + 1);
        if error != None {
          StoreFailsEarly(start, g, inputs, i + 1);
          status, generations, members, chunks := start.status, start.generations, start.members, start.chunks;
          return error;
        }
        i := i + 1;
      }
      assert inputs[..|inputs|] == inputs;
      SettleGeneration(g, Ready, Some(|inputs|));
      error := None;
    }

    method FailIndex(g: nat)
      modifies this
      ensures View() == Fail(old(View()), g) == Step(old(View()), DoFail(g))
    {
      SettleGeneration(g, Failed, None);
    }
  }

  lemma {:induction false} StoreFailsEarly(db: Db, g: nat, inputs: seq<Input>, k: nat)
    requires k <= |inputs| && StoreAll(db, g, inputs[..k]).Err?
    ensures StoreAll(db, g, inputs) == StoreAll(db, g, inputs[..k])
  {
    hide StoreOne;
    if k < |inputs| {
      assert inputs[..|inputs| - 1][..k] == inputs[..k];
      StoreFailsEarly(db, g, inputs[..|inputs| - 1], k);
    } else {
      assert inputs[..k] == inputs;
    }
  }

  // ---- all interleavings ----

  datatype Event =
    | DoBegin(fingerprint: string, model: string, snapshot: nat)
    | DoComplete(generation: nat, inputs: seq<Input>)
    | DoFail(generation: nat)

  function Step(db: Db, e: Event): Db {
    match e
    case DoBegin(fingerprint, model, snapshot) =>
      var r := Begin(db, fingerprint, model, snapshot); if r.Ok? then r.value.0 else db
    case DoComplete(g, inputs) =>
      var r := Complete(db, g, inputs); if r.Ok? then r.value else db
    case DoFail(g) => Fail(db, g)
  }

  function Play(db: Db, events: seq<Event>): Db {
    if events == [] then db else Step(Play(db, events[..|events| - 1]), events[|events| - 1])
  }

  const EMPTY := Db(None, map[], map[], [])

  /** The service never completes with an empty list of chunks; it fails the generation instead. */
  predicate NeverEmpty(events: seq<Event>) {
    forall e :: e in events && e.DoComplete? ==> e.inputs != []
  }

  /** The number of the newest generation; zero before the first. */
  function Current(db: Db): nat {
    if db.status.Some? then db.status.value.generation else 0
  }

  /** The status row carries the largest generation, and says about it exactly what the generation's own row says. */
  ghost predicate Mirrors(db: Db) {
    && (forall g :: g in db.generations <==> 1 <= g <= Current(db))
    && (db.status.Some? ==>
          && Current(db) >= 1
          && var s, n := db.status.value, db.generations[Current(db)];
             && s.phase == n.phase != Superseded
             && s.fingerprint == n.fingerprint && s.model == n.model && s.snapshot == n.snapshot
             && (s.phase == Ready ==> s.chunkCount == n.chunkCount))
    && (forall g :: g in db.generations && g < Current(db) ==> db.generations[g].phase != Indexing)
  }

  predicate Ordered(members: seq<Member>) {
    && (forall k :: 0 <= k < |members| ==> members[k].ordinal == k + 1)
    && (forall k, l :: 0 <= k < l < |members| ==> members[k].chunk != members[l].chunk)
  }

  predicate MembersPlaced(db: Db) {
    && (forall g :: g in db.members ==> g in db.generations)
    && (forall g :: g in db.generations ==> Ordered(MembersOf(db, g)))
    && (forall g, m :: g in db.generations && m in MembersOf(db, g) ==> m.chunk < |db.chunks|)
  }

  predicate MembersOk(db: Db) {
    && MembersPlaced(db)
    && (forall g :: g in db.generations && db.generations[g].phase == Ready ==>
          MembersOf(db, g) != [] && |MembersOf(db, g)| == db.generations[g].chunkCount)
  }

  predicate UniqueChunks(chunks: seq<Chunk>) {
    forall i, j :: 0 <= i < j < |chunks| ==> !(chunks[i].version == chunks[j].version && chunks[i].key == chunks[j].key)
  }

  // ---- storing chunks ----

  /** Storing a list fails on a generation that has members already; otherwise it adds 1 .. n and nothing else. */
  lemma {:induction false} StoreAllExact(db: Db, g: nat, inputs: seq<Input>)
    requires StoreAll(db, g, inputs).Ok? && MembersPlaced(db)
    ensures var after := StoreAll(db, g, inputs).value;
            && after == db.(members := after.members, chunks := after.chunks)
            && |db.chunks| <= |after.chunks|
            && (inputs != [] ==> MembersOf(db, g) == [] && g in db.generations && |MembersOf(after, g)| == |inputs|)
            && (inputs == [] ==> after == db)
            && Ordered(MembersOf(after, g))
            && (forall m :: m in MembersOf(after, g) ==> m.chunk < |after.chunks|)
            && (forall k :: k != g ==> MembersOf(after, k) == MembersOf(db, k))
            && (forall k :: k in after.members ==> k in db.members || (k == g && g in db.generations))
  {
    hide Upsert, Find;
    if inputs == [] {
      if g in db.generations {
        assert Ordered(MembersOf(db, g));
      } else {
        assert MembersOf(db, g) == [];
      }
    } else {
      var n := |inputs| - 1;
      StoreAllExact(db, g, inputs[..n]);
      var mid := StoreAll(db, g, inputs[..n]).value;
      var after := StoreAll(db, g, inputs).value;
      FirstIsTaken(MembersOf(mid, g), Upsert(mid.chunks, inputs[n].chunk).1);
      NewMember(MembersOf(mid, g), |inputs|, Upsert(mid.chunks, inputs[n].chunk).1);
    }
  }

  lemma FirstIsTaken(members: seq<Member>, chunk: nat)
    requires Ordered(members)
    ensures members != [] ==> Taken(members, 1, chunk)
  {
    if members != [] {
      assert members[0] in members;
    }
  }

  lemma NewMember(members: seq<Member>, ordinal: nat, chunk: nat)
    requires Ordered(members) && !Taken(members, ordinal, chunk) && ordinal == |members| + 1
    ensures Ordered(members + [Member(ordinal, chunk)])
  {
  }

  lemma SettleKeeps(db: Db, g: nat, phase: Phase, chunkCount: Option<nat>)
    requires Mirrors(db) && ((phase == Ready && chunkCount.Some?) || (phase == Failed && chunkCount.None?))
    ensures Mirrors(Settle(db, g, phase, chunkCount))
  {
  }

  lemma BeginKeeps(db: Db, fingerprint: string, model: string, snapshot: nat)
    requires Mirrors(db)
    ensures var r := Begin(db, fingerprint, model, snapshot);
            && r.Ok? && Mirrors(r.value.0)
            && (r.value.1.Some? <==> !Unchanged(db, fingerprint, model, snapshot))
            && (r.value.1.Some? ==> r.value.1.value == Current(r.value.0) == Current(db) + 1)
            && r.value.0.members == db.members && r.value.0.chunks == db.chunks
  {
  }

  lemma StoreAllTables(db: Db, g: nat, inputs: seq<Input>)
    requires StoreAll(db, g, inputs).Ok?
    ensures var after := StoreAll(db, g, inputs).value; after.status == db.status && after.generations == db.generations
  {
    hide Upsert;
    if inputs != [] {
      StoreAllTables(db, g, inputs[..|inputs| - 1]);
    }
  }

  lemma StepMirrors(db: Db, e: Event)
    requires Mirrors(db)
    ensures Mirrors(Step(db, e))
  {
    hide StoreAll, Settle, Mirrors, Begin;
    match e
    case DoBegin(fingerprint, model, snapshot) => BeginKeeps(db, fingerprint, model, snapshot);
    case DoComplete(g, inputs) =>
      if StoreAll(db, g, inputs).Ok? {
        StoreAllTables(db, g, inputs);
        MirrorsReads(db, StoreAll(db, g, inputs).value);
        SettleKeeps(StoreAll(db, g, inputs).value, g, Ready, Some(|inputs|));
      }
    case DoFail(g) => SettleKeeps(db, g, Failed, None);
  }

  lemma MirrorsReads(db: Db, other: Db)
    requires Mirrors(db) && other.status == db.status && other.generations == db.generations
    ensures Mirrors(other)
  {
  }

  /** In every reachable state the status row is the newest generation's mirror, and only it can be INDEXING. */
  lemma {:induction false} AlwaysMirrors(events: seq<Event>)
    ensures Mirrors(Play(EMPTY, events))
  {
    hide Step;
    if events != [] {
      AlwaysMirrors(events[..|events| - 1]);
      StepMirrors(Play(EMPTY, events[..|events| - 1]), events[|events| - 1]);
    }
  }

  lemma AtMostOneIndexing(events: seq<Event>, g: nat)
    requires g in Play(EMPTY, events).generations && Play(EMPTY, events).generations[g].phase == Indexing
    ensures var db := Play(EMPTY, events);
            && g == Current(db) && db.status.Some? && db.status.value.phase == Indexing
            && forall k :: k in db.generations ==> k <= g && (db.generations[k].phase == Indexing ==> k == g)
  {
    hide Step;
    AlwaysMirrors(events);
  }

  // ---- no way back ----

  /** A generation keeps its identity, and leaves INDEXING for good. */
  predicate GenerationFollows(before: Generation, after: Generation) {
    && after.fingerprint == before.fingerprint && after.model == before.model && after.snapshot == before.snapshot
    && (before.phase != Indexing ==> after == before)
  }

  lemma StepFollows(db: Db, e: Event, g: nat)
    requires g in db.generations
    ensures g in Step(db, e).generations && GenerationFollows(db.generations[g], Step(db, e).generations[g])
  {
    hide StoreAll, Unchanged;
    if e.DoComplete? && StoreAll(db, e.generation, e.inputs).Ok? {
      StoreAllTables(db, e.generation, e.inputs);
    }
  }

  /** A superseded or failed generation never becomes ready, and a ready one stays ready, whatever comes later. */
  lemma {:induction false} SettledForever(db: Db, later: seq<Event>, g: nat)
    requires g in db.generations
    ensures g in Play(db, later).generations && GenerationFollows(db.generations[g], Play(db, later).generations[g])
  {
    hide Step;
    if later != [] {
      SettledForever(db, later[..|later| - 1], g);
      StepFollows(Play(db, later[..|later| - 1]), later[|later| - 1], g);
    }
  }

  /** A call for a generation that is no longer the newest leaves the status row and all other generations alone. */
  lemma LateCallsAreHarmless(events: seq<Event>, e: Event)
    requires !e.DoBegin? && e.generation != Current(Play(EMPTY, events))
    ensures var db := Play(EMPTY, events); var after := Step(db, e);
            && after.status == db.status && after.generations == db.generations
            && forall k :: k != e.generation ==> MembersOf(after, k) == MembersOf(db, k)
  {
    hide Step, StoreAll;
    var db := Play(EMPTY, events);
    AlwaysMirrors(events);
    LateStep(db, e);
  }

  lemma LateStep(db: Db, e: Event)
    requires Mirrors(db) && !e.DoBegin? && e.generation != Current(db)
    ensures var after := Step(db, e);
            && after.status == db.status && after.generations == db.generations
            && forall k :: k != e.generation ==> MembersOf(after, k) == MembersOf(db, k)
  {
    hide StoreAll;
    if e.DoComplete? && StoreAll(db, e.generation, e.inputs).Ok? {
      StoreAllTables(db, e.generation, e.inputs);
      OtherMembers(db, e.generation, e.inputs);
    }
  }

  lemma {:induction false} OtherMembers(db: Db, g: nat, inputs: seq<Input>)
    requires StoreAll(db, g, inputs).Ok?
    ensures forall k :: k != g ==> MembersOf(StoreAll(db, g, inputs).value, k) == MembersOf(db, k)
  {
    hide Upsert;
    if inputs != [] {
      OtherMembers(db, g, inputs[..|inputs| - 1]);
    }
  }

  // ---- what READY promises ----

  lemma BeginPlaced(db: Db, fingerprint: string, model: string, snapshot: nat)
    requires Mirrors(db) && MembersPlaced(db)
    ensures var after := Begin(db, fingerprint, model, snapshot).value.0;
            MembersPlaced(after) && forall k :: MembersOf(after, k) == MembersOf(db, k)
    ensures NextNumber(db) !in db.generations && MembersOf(db, NextNumber(db)) == []
  {
    hide Ordered;
    var after := Begin(db, fingerprint, model, snapshot).value.0;
    if !Unchanged(db, fingerprint, model, snapshot) {
      var g := NextNumber(db);
      assert MembersOf(after, g) == [];
      assert Ordered([]) by { NoMembers(); }
      forall k | k in after.generations ensures Ordered(MembersOf(after, k)) {
        if k != g { assert Ordered(MembersOf(db, k)); }
      }
    }
  }

  lemma BeginMembers(db: Db, fingerprint: string, model: string, snapshot: nat)
    requires Mirrors(db) && MembersOk(db)
    ensures MembersOk(Begin(db, fingerprint, model, snapshot).value.0)
  {
    hide MembersPlaced;
    BeginPlaced(db, fingerprint, model, snapshot);
  }

  lemma NoMembers()
    ensures Ordered([])
  {
  }

  lemma CompletePlaced(db: Db, g: nat, inputs: seq<Input>)
    requires MembersPlaced(db) && Complete(db, g, inputs).Ok?
    ensures MembersPlaced(Complete(db, g, inputs).value)
  {
    hide Ordered, StoreAll;
    StoreAllExact(db, g, inputs);
    var after := Complete(db, g, inputs).value;
    forall k, m | k in after.generations && m in MembersOf(after, k) ensures m.chunk < |after.chunks| {
      if k != g {
        assert m in MembersOf(db, k);
      }
    }
    forall k | k in after.generations ensures Ordered(MembersOf(after, k)) {
      if k != g { assert Ordered(MembersOf(db, k)); }
    }
  }

  lemma CompleteMembers(db: Db, g: nat, inputs: seq<Input>)
    requires MembersOk(db) && inputs != [] && Complete(db, g, inputs).Ok?
    ensures MembersOk(Complete(db, g, inputs).value)
  {
    hide MembersPlaced, StoreAll;
    StoreAllExact(db, g, inputs);
    StoreAllTables(db, g, inputs);
    CompletePlaced(db, g, inputs);
  }

  lemma FailPlaced(db: Db, g: nat)
    requires MembersPlaced(db)
    ensures MembersPlaced(Fail(db, g)) && forall k :: MembersOf(Fail(db, g), k) == MembersOf(db, k)
  {
    hide Ordered;
    forall k ensures MembersOf(Fail(db, g), k) == MembersOf(db, k) {}
  }

  lemma FailMembers(db: Db, g: nat)
    requires MembersOk(db)
    ensures MembersOk(Fail(db, g))
  {
    hide MembersPlaced;
    FailPlaced(db, g);
  }

  lemma {:induction false} ReadyMembers(events: seq<Event>)
    requires NeverEmpty(events)
    ensures MembersOk(Play(EMPTY, events))
  {
    hide Begin, Complete, Fail, Mirrors, MembersOk;
    if events == [] {
      EmptyMembers();
    } else {
      var init, e := events[..|events| - 1], events[|events| - 1];
      assert e in events && forall x :: x in init ==> x in events;
      ReadyMembers(init);
      AlwaysMirrors(init);
      var db := Play(EMPTY, init);
      match e
      case DoBegin(fingerprint, model, snapshot) =>
        BeginKeeps(db, fingerprint, model, snapshot);
        BeginMembers(db, fingerprint, model, snapshot);
      case DoComplete(g, inputs) => if Complete(db, g, inputs).Ok? { CompleteMembers(db, g, inputs); }
      case DoFail(g) => FailMembers(db, g);
    }
  }

  lemma EmptyMembers()
    ensures MembersOk(EMPTY)
  {
  }

  /** A READY generation has exactly chunk_count members, numbered 1 to n, over distinct stored chunks; the status row agrees. */
  lemma ReadyIsComplete(events: seq<Event>, g: nat)
    requires NeverEmpty(events)
    requires g in Play(EMPTY, events).generations && Play(EMPTY, events).generations[g].phase == Ready
    ensures var db := Play(EMPTY, events); var n := db.generations[g].chunkCount; var members := MembersOf(db, g);
            && |members| == n > 0
            && (forall k :: 0 <= k < n ==> members[k].ordinal == k + 1 && members[k].chunk < |db.chunks|)
            && (forall k, l :: 0 <= k < l < n ==> members[k].chunk != members[l].chunk)
            && (g == Current(db) ==> db.status.Some? && db.status.value.phase == Ready && db.status.value.chunkCount == n)
  {
    hide Step;
    ReadyMembers(events);
    AlwaysMirrors(events);
    var db := Play(EMPTY, events);
    assert Ordered(MembersOf(db, g));
    forall k | 0 <= k < |MembersOf(db, g)| ensures MembersOf(db, g)[k].chunk < |db.chunks| {
      assert MembersOf(db, g)[k] in MembersOf(db, g);
    }
  }

  /** A READY generation whose count is not that of its members. */
  predicate Miscounted(db: Db, g: nat) {
    g in db.generations && db.generations[g].phase == Ready && |MembersOf(db, g)| != db.generations[g].chunkCount
  }

  /** A generation being indexed has no members yet; a wrong count is one of members that came later. */
  predicate Counting(db: Db) {
    && (forall g :: g in db.generations && db.generations[g].phase == Indexing ==> MembersOf(db, g) == [])
    && (forall g :: g in db.generations && Miscounted(db, g) ==> MembersOf(db, g) != [])
  }

  /** A second completion that goes through: it finds the generation READY, and without members. */
  predicate Recompletes(db: Db, e: Event, g: nat) {
    && e.DoComplete? && e.generation == g && e.inputs != [] && g in db.generations && db.generations[g].phase == Ready
    && StoreAll(db, g, e.inputs).Ok?
  }

  /** What a step does to one generation's count: exactly a second completion spoils it, and nothing mends it. */
  lemma CountKeptExactly(db: Db, e: Event, g: nat)
    requires Mirrors(db) && MembersPlaced(db) && Counting(db)
    ensures MembersPlaced(Step(db, e)) && Counting(Step(db, e))
    ensures Miscounted(Step(db, e), g) <==> Miscounted(db, g) || Recompletes(db, e, g)
  {
    hide StoreAll, Mirrors, MembersPlaced, Counting, Miscounted, Begin, Settle;
    match e
    case DoBegin(fingerprint, model, snapshot) => BeginCounts(db, fingerprint, model, snapshot, g);
    case DoComplete(k, inputs) => if Complete(db, k, inputs).Ok? { CompleteCounts(db, k, inputs, g); }
    case DoFail(k) => FailCounts(db, k, g);
  }

  lemma BeginCounts(db: Db, fingerprint: string, model: string, snapshot: nat, g: nat)
    requires Mirrors(db) && MembersPlaced(db) && Counting(db)
    ensures var r := Begin(db, fingerprint, model, snapshot);
            r.Ok? && MembersPlaced(r.value.0) && Counting(r.value.0) && (Miscounted(r.value.0, g) <==> Miscounted(db, g))
  {
    hide Mirrors, MembersPlaced, Unchanged;
    BeginPlaced(db, fingerprint, model, snapshot);
    BeginKeeps(db, fingerprint, model, snapshot);
  }

  lemma CompleteCounts(db: Db, k: nat, inputs: seq<Input>, g: nat)
    requires MembersPlaced(db) && Counting(db) && Complete(db, k, inputs).Ok?
    ensures var after := Complete(db, k, inputs).value;
            && MembersPlaced(after) && Counting(after)
            && (Miscounted(after, g) <==> Miscounted(db, g) || Recompletes(db, DoComplete(k, inputs), g))
  {
    hide MembersPlaced, StoreAll, Ordered;
    StoreAllExact(db, k, inputs);
    StoreAllTables(db, k, inputs);
    CompletePlaced(db, k, inputs);
  }

  lemma FailCounts(db: Db, k: nat, g: nat)
    requires MembersPlaced(db) && Counting(db)
    ensures var after := Fail(db, k);
            MembersPlaced(after) && Counting(after) && (Miscounted(after, g) <==> Miscounted(db, g))
  {
    hide MembersPlaced;
    FailPlaced(db, k);
  }

  /** Somewhere along the events the generation was completed a second time. */
  predicate Recompleted(events: seq<Event>, g: nat) {
    exists k :: 0 <= k < |events| && Recompletes(Play(EMPTY, events[..k]), events[k], g)
  }

  /** After any events a READY generation has chunk_count members unless it was completed a second time on the way. */
  lemma {:induction false} CountRightExactly(events: seq<Event>, g: nat)
    ensures MembersPlaced(Play(EMPTY, events)) && Counting(Play(EMPTY, events))
    ensures Miscounted(Play(EMPTY, events), g) <==> Recompleted(events, g)
  {
    hide Step, Mirrors, MembersPlaced, Counting, Miscounted, Recompletes, Recompleted;
    if events == [] {
      NothingCounted(g);
    } else {
      var init, e := events[..|events| - 1], events[|events| - 1];
      CountRightExactly(init, g);
      AlwaysMirrors(init);
      CountKeptExactly(Play(EMPTY, init), e, g);
      LastRecompletion(events, g);
    }
  }

  lemma NothingCounted(g: nat)
    ensures MembersPlaced(EMPTY) && Counting(EMPTY) && !Miscounted(EMPTY, g) && !Recompleted([], g)
  {
  }

  lemma LastRecompletion(events: seq<Event>, g: nat)
    requires events != []
    ensures var init, last := events[..|events| - 1], events[|events| - 1];
            Recompleted(events, g) <==> Recompleted(init, g) || Recompletes(Play(EMPTY, init), last, g)
  {
    hide Recompletes, Play;
    var n := |events| - 1;
    var init := events[..n];
    if Recompleted(events, g) {
      var k :| 0 <= k < |events| && Recompletes(Play(EMPTY, events[..k]), events[k], g);
      assert k < n ==> init[..k] == events[..k] && init[k] == events[k];
    }
    if Recompleted(init, g) {
      var k :| 0 <= k < n && Recompletes(Play(EMPTY, init[..k]), init[k], g);
      assert events[..k] == init[..k] && events[k] == init[k];
    }
  }

  /** Only a generation that an empty completion made READY can be completed a second time. */
  lemma RecompletedWasEmpty(events: seq<Event>, e: Event, g: nat)
    requires Recompletes(Play(EMPTY, events), e, g)
    ensures var db := Play(EMPTY, events); MembersOf(db, g) == [] && db.generations[g].chunkCount == 0
  {
    hide StoreAll, Step;
    CountRightExactly(events, g);
    StoreAllExact(Play(EMPTY, events), g, e.inputs);
  }

  /** Without the service's guard the count would be wrong: an empty completion leaves room for a second one. */
  lemma EmptyCompletionBreaksTheCount(input: Input)
    requires input.vectorOk
    ensures var db := Play(EMPTY, [DoBegin("f", "m", 1), DoComplete(1, []), DoComplete(1, [input])]);
            && 1 in db.generations && db.generations[1].phase == Ready && db.generations[1].chunkCount == 0
            && |MembersOf(db, 1)| == 1
  {
    var b, c, d := DoBegin("f", "m", 1), DoComplete(1, []), DoComplete(1, [input]);
    assert [b, c, d][..2] == [b, c] && [b, c][..1] == [b] && [b][..0] == [];
    var one := Step(EMPTY, b);
    var two := Step(one, c);
    assert two.generations[1].phase == Ready && MembersOf(two, 1) == [];
    assert [input][..0] == [];
    assert StoreAll(two, 1, [input]) == StoreOne(two, 1, input, 1);
    var three := Step(two, d);
    assert |MembersOf(three, 1)| == 1;
    assert Play(EMPTY, [b]) == one && Play(EMPTY, [b, c]) == two && Play(EMPTY, [b, c, d]) == three;
  }

  // ---- shared chunk rows ----

  lemma UpsertUnique(chunks: seq<Chunk>, c: Chunk)
    requires UniqueChunks(chunks)
    ensures UniqueChunks(Upsert(chunks, c).0)
  {
    hide Find;
    var i := Find(chunks, c.version, c.key);
    if i.Some? {
      var after := chunks[i.value := c];
      forall k, l | 0 <= k < l < |after| ensures !(after[k].version == after[l].version && after[k].key == after[l].key) {
        assert !(chunks[k].version == chunks[l].version && chunks[k].key == chunks[l].key);
      }
    }
  }

  lemma {:induction false} ChunksStayUnique(db: Db, g: nat, inputs: seq<Input>)
    requires UniqueChunks(db.chunks) && StoreAll(db, g, inputs).Ok?
    ensures UniqueChunks(StoreAll(db, g, inputs).value.chunks)
  {
    hide Upsert, Find;
    if inputs != [] {
      ChunksStayUnique(db, g, inputs[..|inputs| - 1]);
      UpsertUnique(StoreAll(db, g, inputs[..|inputs| - 1]).value.chunks, inputs[|inputs| - 1].chunk);
    }
  }

  lemma {:induction false} ReachableUnique(events: seq<Event>)
    ensures UniqueChunks(Play(EMPTY, events).chunks)
  {
    hide StoreAll, Begin, UniqueChunks;
    if events == [] {
      NoChunks();
    } else {
      var init, e := events[..|events| - 1], events[|events| - 1];
      ReachableUnique(init);
      var db := Play(EMPTY, init);
      if e.DoComplete? && StoreAll(db, e.generation, e.inputs).Ok? {
        ChunksStayUnique(db, e.generation, e.inputs);
      }
      if e.DoBegin? {
        AlwaysMirrors(init);
        BeginKeeps(db, e.fingerprint, e.model, e.snapshot);
      }
    }
  }

  lemma NoChunks()
    ensures UniqueChunks([])
  {
  }

  predicate SameRow(a: Chunk, b: Chunk) {
    a.version == b.version && a.key == b.key
  }

  /** What an upsert does to a row: it is replaced if it has the chunk's version and key. */
  lemma UpsertRow(chunks: seq<Chunk>, c: Chunk, i: nat)
    requires UniqueChunks(chunks) && i < |chunks|
    ensures i < |Upsert(chunks, c).0| && Upsert(chunks, c).0[i] == if SameRow(chunks[i], c) then c else chunks[i]
    ensures SameRow(chunks[i], c) ==> Upsert(chunks, c).1 == i
  {
    hide Find;
    var j := Find(chunks, c.version, c.key);
    if SameRow(chunks[i], c) {
      assert j.Some?;
      OnlyRow(chunks, i, j.value);
    }
  }

  lemma OnlyRow(chunks: seq<Chunk>, i: nat, j: nat)
    requires UniqueChunks(chunks) && i < |chunks| && j < |chunks| && SameRow(chunks[i], chunks[j])
    ensures i == j
  {
  }

  /** The input's row is in the table and its membership in the generation. */
  predicate StoredIn(db: Db, g: nat, input: Input) {
    exists m :: m in MembersOf(db, g) && m.chunk < |db.chunks| && SameRow(db.chunks[m.chunk], input.chunk)
  }

  lemma StoredStays(db: Db, g: nat, input: Input, next: Input, ordinal: nat)
    requires UniqueChunks(db.chunks) && StoredIn(db, g, input) && StoreOne(db, g, next, ordinal).Ok?
    ensures StoredIn(StoreOne(db, g, next, ordinal).value, g, input)
    ensures !SameRow(next.chunk, input.chunk)
  {
    hide Upsert;
    var after := StoreOne(db, g, next, ordinal).value;
    var m :| m in MembersOf(db, g) && m.chunk < |db.chunks| && SameRow(db.chunks[m.chunk], input.chunk);
    UpsertRow(db.chunks, next.chunk, m.chunk);
    assert m in MembersOf(after, g);
    assert SameRow(after.chunks[m.chunk], input.chunk);
  }

  lemma NewlyStored(db: Db, g: nat, input: Input, ordinal: nat)
    requires StoreOne(db, g, input, ordinal).Ok?
    ensures StoredIn(StoreOne(db, g, input, ordinal).value, g, input)
  {
    hide Find;
    var after := StoreOne(db, g, input, ordinal).value;
    var id := Upsert(db.chunks, input.chunk).1;
    assert Member(ordinal, id) in MembersOf(after, g);
  }

  /** Some input is for the row. */
  predicate For(inputs: seq<Input>, row: Chunk) {
    exists k :: 0 <= k < |inputs| && SameRow(inputs[k].chunk, row)
  }

  /** A completion that goes through names every row at most once, and leaves in each what it brings for it. */
  lemma {:induction false} StoreAllRows(db: Db, g: nat, inputs: seq<Input>, i: nat)
    requires UniqueChunks(db.chunks) && StoreAll(db, g, inputs).Ok? && i < |db.chunks|
    ensures var after := StoreAll(db, g, inputs).value;
            && (forall k :: 0 <= k < |inputs| ==> StoredIn(after, g, inputs[k]))
            && (forall k, l :: 0 <= k < l < |inputs| ==> !SameRow(inputs[k].chunk, inputs[l].chunk))
            && i < |after.chunks| && SameRow(after.chunks[i], db.chunks[i])
            && (!For(inputs, db.chunks[i]) ==> after.chunks[i] == db.chunks[i])
            && (forall k :: 0 <= k < |inputs| && SameRow(inputs[k].chunk, db.chunks[i]) ==> after.chunks[i] == inputs[k].chunk)
  {
    hide Upsert, Find, StoreOne, StoredIn, UniqueChunks;
    if inputs != [] {
      var n := |inputs| - 1;
      var init, last := inputs[..n], inputs[n];
      StoreAllRows(db, g, init, i);
      ChunksStayUnique(db, g, init);
      var mid := StoreAll(db, g, init).value;
      forall k | 0 <= k < n ensures StoredIn(StoreOne(mid, g, last, |inputs|).value, g, inputs[k]) && !SameRow(inputs[k].chunk, last.chunk) {
        assert init[k] == inputs[k];
        StoredStays(mid, g, inputs[k], last, |inputs|);
      }
      NewlyStored(mid, g, last, |inputs|);
      StoreOneRow(mid, g, last, |inputs|, i);
      if For(init, db.chunks[i]) {
        var k :| 0 <= k < n && SameRow(init[k].chunk, db.chunks[i]);
        assert inputs[k] == init[k];
        assert For(inputs, db.chunks[i]);
      }
      assert For(inputs, db.chunks[i]) <== SameRow(last.chunk, db.chunks[i]);
    }
  }

  lemma StoreOneRow(db: Db, g: nat, input: Input, ordinal: nat, i: nat)
    requires UniqueChunks(db.chunks) && StoreOne(db, g, input, ordinal).Ok? && i < |db.chunks|
    ensures var after := StoreOne(db, g, input, ordinal).value.chunks;
            i < |after| && after[i] == if SameRow(db.chunks[i], input.chunk) then input.chunk else db.chunks[i]
  {
    hide Upsert;
    UpsertRow(db.chunks, input.chunk, i);
  }

  /** A completion that goes through and carries another payload for the row's version and key. */
  predicate Brings(db: Db, e: Event, row: Chunk) {
    && e.DoComplete? && Complete(db, e.generation, e.inputs).Ok?
    && exists k :: 0 <= k < |e.inputs| && SameRow(e.inputs[k].chunk, row) && e.inputs[k].chunk.payload != row.payload
  }

  /** A step changes a stored chunk row if and only if it is such a completion, for whichever generation. */
  lemma RowChangesExactly(db: Db, e: Event, i: nat)
    requires UniqueChunks(db.chunks) && i < |db.chunks|
    ensures i < |Step(db, e).chunks| && SameRow(Step(db, e).chunks[i], db.chunks[i])
    ensures Step(db, e).chunks[i] != db.chunks[i] <==> Brings(db, e, db.chunks[i])
  {
    hide StoreAll, UniqueChunks, Unchanged, Superseding;
    if e.DoComplete? && StoreAll(db, e.generation, e.inputs).Ok? {
      StoreAllRows(db, e.generation, e.inputs, i);
    }
  }

  lemma StepUnique(db: Db, e: Event)
    requires UniqueChunks(db.chunks)
    ensures UniqueChunks(Step(db, e).chunks)
  {
    hide StoreAll, UniqueChunks, Unchanged, Superseding;
    if e.DoComplete? && StoreAll(db, e.generation, e.inputs).Ok? {
      ChunksStayUnique(db, e.generation, e.inputs);
    }
  }

  /** The row is what it was after every prefix. */
  predicate Stands(db: Db, later: seq<Event>, i: nat)
    requires i < |db.chunks|
  {
    forall n :: 0 <= n <= |later| ==> i < |Play(db, later[..n]).chunks| && Play(db, later[..n]).chunks[i] == db.chunks[i]
  }

  /** No later completion brings another payload for the row. */
  predicate NeverBrought(db: Db, later: seq<Event>, row: Chunk) {
    forall k :: 0 <= k < |later| ==> !Brings(Play(db, later[..k]), later[k], row)
  }

  lemma LastPrefix(db: Db, later: seq<Event>, i: nat)
    requires later != [] && i < |db.chunks|
    ensures var init, last, after := later[..|later| - 1], later[|later| - 1], Play(db, later);
            && (Stands(db, later, i) <==> Stands(db, init, i) && i < |after.chunks| && after.chunks[i] == db.chunks[i])
            && (NeverBrought(db, later, db.chunks[i]) <==>
                  NeverBrought(db, init, db.chunks[i]) && !Brings(Play(db, init), last, db.chunks[i]))
            && (Stands(db, init, i) ==> i < |Play(db, init).chunks| && Play(db, init).chunks[i] == db.chunks[i])
  {
    hide Brings, Play;
    var n := |later| - 1;
    var init, row := later[..n], db.chunks[i];
    assert later[..|later|] == later && init[..n] == init;
    assert forall m :: 0 <= m <= n ==> init[..m] == later[..m];
    if Stands(db, init, i) && i < |Play(db, later).chunks| && Play(db, later).chunks[i] == row {
      forall m | 0 <= m <= |later| ensures i < |Play(db, later[..m]).chunks| && Play(db, later[..m]).chunks[i] == row {
        assert m <= n ==> init[..m] == later[..m];
      }
    }
    if Stands(db, later, i) {
      forall m | 0 <= m <= n ensures i < |Play(db, init[..m]).chunks| && Play(db, init[..m]).chunks[i] == row {
        assert init[..m] == later[..m];
      }
    }
    if NeverBrought(db, later, row) {
      forall k | 0 <= k < n ensures !Brings(Play(db, init[..k]), init[k], row) {
        assert !Brings(Play(db, later[..k]), later[k], row);
      }
      assert !Brings(Play(db, later[..n]), later[n], row);
    }
    if NeverBrought(db, init, row) && !Brings(Play(db, init), later[n], row) {
      forall k | 0 <= k < |later| ensures !Brings(Play(db, later[..k]), later[k], row) {
        assert k < n ==> !Brings(Play(db, init[..k]), init[k], row);
      }
    }
  }

  /** A stored row stands forever if and only if no later completion brings another payload for its version and key. */
  lemma {:induction false} RowStandsExactly(db: Db, later: seq<Event>, i: nat)
    requires UniqueChunks(db.chunks) && i < |db.chunks|
    ensures UniqueChunks(Play(db, later).chunks)
    ensures Stands(db, later, i) <==> NeverBrought(db, later, db.chunks[i])
  {
    hide UniqueChunks, Step, Stands, NeverBrought, Brings;
    if later == [] {
      NothingLater(db, i);
    } else {
      var init := later[..|later| - 1];
      RowStandsExactly(db, init, i);
      LastPrefix(db, later, i);
      StepUnique(Play(db, init), later[|later| - 1]);
      if Stands(db, init, i) {
        RowChangesExactly(Play(db, init), later[|later| - 1], i);
      }
    }
  }

  lemma NothingLater(db: Db, i: nat)
    requires i < |db.chunks|
    ensures Stands(db, [], i) && NeverBrought(db, [], db.chunks[i])
  {
    var none: seq<Event> := [];
    assert none[..0] == none;
  }

  /** A ready generation's members stay, and their rows stand exactly as long as nothing else is brought for them. */
  lemma ReadyRowsStandExactly(events: seq<Event>, later: seq<Event>, g: nat)
    requires NeverEmpty(events + later)
    requires g in Play(EMPTY, events).generations && Play(EMPTY, events).generations[g].phase == Ready
    ensures var db := Play(EMPTY, events);
            && MembersOf(Play(db, later), g) == MembersOf(db, g)
            && (forall m :: m in MembersOf(db, g) ==> m.chunk < |db.chunks|)
            && ((forall m :: m in MembersOf(db, g) ==> Stands(db, later, m.chunk)) <==>
                (forall m :: m in MembersOf(db, g) ==> NeverBrought(db, later, db.chunks[m.chunk])))
  {
    hide Step, Stands, NeverBrought, UniqueChunks;
    var db := Play(EMPTY, events);
    assert forall e :: e in events ==> e in events + later;
    ReadyMembers(events);
    ReachableUnique(events);
    MembersStay(events, later, g);
    forall m | m in MembersOf(db, g) ensures Stands(db, later, m.chunk) <==> NeverBrought(db, later, db.chunks[m.chunk]) {
      RowStandsExactly(db, later, m.chunk);
    }
  }

  lemma {:induction false} MembersStay(events: seq<Event>, later: seq<Event>, g: nat)
    requires NeverEmpty(events + later)
    requires g in Play(EMPTY, events).generations && Play(EMPTY, events).generations[g].phase == Ready
    ensures MembersOf(Play(Play(EMPTY, events), later), g) == MembersOf(Play(EMPTY, events), g)
  {
    hide Step, MembersOk, Mirrors;
    if later != [] {
      var init, e := later[..|later| - 1], later[|later| - 1];
      assert forall x :: x in events + init ==> x in events + later;
      assert e in events + later;
      MembersStay(events, init, g);
      PlayConcat(EMPTY, events, init);
      ReadyMembers(events + init);
      AlwaysMirrors(events + init);
      SettledForever(Play(EMPTY, events), init, g);
      ReadyStep(Play(EMPTY, events + init), e, g);
    }
  }

  lemma ReadyStep(db: Db, e: Event, g: nat)
    requires Mirrors(db) && MembersOk(db) && g in db.generations && db.generations[g].phase == Ready
    requires e.DoComplete? ==> e.inputs != []
    ensures MembersOf(Step(db, e), g) == MembersOf(db, g)
  {
    hide StoreAll, Ordered, MembersOk;
    match e
    case DoBegin(fingerprint, model, snapshot) => BeginKeeps(db, fingerprint, model, snapshot);
    case DoComplete(k, inputs) =>
      if StoreAll(db, k, inputs).Ok? {
        ReadyHasMembers(db, g);
        StoreAllExact(db, k, inputs);
      }
    case DoFail(k) =>
  }

  lemma ReadyHasMembers(db: Db, g: nat)
    requires MembersOk(db) && g in db.generations && db.generations[g].phase == Ready
    ensures MembersPlaced(db) && MembersOf(db, g) != []
  {
  }

  lemma {:induction false} PlayConcat(db: Db, a: seq<Event>, b: seq<Event>)
    ensures Play(db, a + b) == Play(Play(db, a), b)
  {
    hide Step;
    if b == [] {
      assert a + b == a;
    } else {
      var n := |b| - 1;
      assert (a + b)[..|a + b| - 1] == a + b[..n];
      PlayConcat(db, a, b[..n]);
    }
  }

  const OLD := Input(Chunk(7, "k", "old"), true)
  const NEW := Input(Chunk(7, "k", "new"), true)

  /** The second generation supersedes the first and becomes ready; then the first completes late. */
  const LATE: seq<Event> := [DoBegin("f", "m", 1), DoBegin("f", "m", 2), DoComplete(2, [NEW]), DoComplete(1, [OLD])]

  const FIRST := Db(Some(Status(Indexing, 1, "f", "m", 1, 0)), map[1 := Generation(Indexing, "f", "m", 1, 0)], map[], [])

  const SECOND := Db(Some(Status(Indexing, 2, "f", "m", 2, 0)),
                     map[1 := Generation(Superseded, "f", "m", 1, 0), 2 := Generation(Indexing, "f", "m", 2, 0)], map[], [])

  const SERVING := Db(Some(Status(Ready, 2, "f", "m", 2, 1)),
                      map[1 := Generation(Superseded, "f", "m", 1, 0), 2 := Generation(Ready, "f", "m", 2, 1)],
                      map[2 := [Member(1, 0)]], [NEW.chunk])

  lemma BegunTwice()
    ensures Step(EMPTY, LATE[0]) == FIRST && Step(FIRST, LATE[1]) == SECOND
  {
    assert Superseding(FIRST) == map[1 := Generation(Superseded, "f", "m", 1, 0)];
  }

  lemma SecondServes()
    ensures Step(SECOND, LATE[2]) == SERVING
  {
    hide StoreAll;
    OneInput(SECOND, 2, NEW);
    assert Find([], 7, "k") == None && [] + [NEW.chunk] == [NEW.chunk];
    assert Upsert(SECOND.chunks, NEW.chunk) == ([NEW.chunk], 0);
    assert [] + [Member(1, 0)] == [Member(1, 0)] && MembersOf(SECOND, 2) == [];
    assert SECOND.members[2 := [Member(1, 0)]] == map[2 := [Member(1, 0)]];
    assert StoreOne(SECOND, 2, NEW, 1) == Ok(SECOND.(chunks := [NEW.chunk], members := map[2 := [Member(1, 0)]]));
  }

  lemma FirstRewrites()
    ensures Step(SERVING, LATE[3]) == SERVING.(chunks := [OLD.chunk], members := map[2 := [Member(1, 0)], 1 := [Member(1, 0)]])
  {
    hide StoreAll;
    OneInput(SERVING, 1, OLD);
    assert Find([NEW.chunk], 7, "k") == Some(0);
    assert [NEW.chunk][0 := OLD.chunk] == [OLD.chunk];
    assert Upsert(SERVING.chunks, OLD.chunk) == ([OLD.chunk], 0);
    assert [] + [Member(1, 0)] == [Member(1, 0)] && MembersOf(SERVING, 1) == [];
    assert SERVING.members[1 := [Member(1, 0)]] == map[2 := [Member(1, 0)], 1 := [Member(1, 0)]];
  }

  /** A concrete run: the ready generation ends up serving the superseded one's payload. */
  lemma LateCompletionRewritesChunks()
    ensures var db := Play(EMPTY, LATE[..3]); var after := Play(EMPTY, LATE);
            && Current(after) == 2 && 2 in after.generations && after.generations[2].phase == Ready
            && MembersOf(after, 2) == MembersOf(db, 2) == [Member(1, 0)]
            && db.chunks == [NEW.chunk] && after.chunks == [OLD.chunk]
  {
    hide Step;
    assert LATE[..1][..0] == [] && LATE[..2][..1] == LATE[..1] && LATE[..3][..2] == LATE[..2] && LATE[..4] == LATE;
    assert LATE[..4][..3] == LATE[..3];
    BegunTwice();
    SecondServes();
    FirstRewrites();
    assert Play(EMPTY, LATE[..1]) == FIRST;
    assert Play(EMPTY, LATE[..2]) == SECOND;
    assert Play(EMPTY, LATE[..3]) == SERVING;
  }

  lemma OneInput(db: Db, g: nat, input: Input)
    ensures StoreAll(db, g, [input]) == StoreOne(db, g, input, 1)
  {
    assert [input][..0] == [];
    assert StoreAll(db, g, [input][..0]) == Ok(db);
  }
}
