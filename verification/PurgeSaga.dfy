/** Uploads, lifecycle changes and purges over two stores that share no transaction: database rows and files. */
module PurgeSaga {
  import opened Results

  datatype SetStatus = Active | Archived | Purging

  datatype SetRow = SetRow(status: SetStatus, archivedAt: Option<int>, retentionDays: nat)

  datatype Version = Version(setId: nat, key: string)

  /** An upload whose file is stored, and one whose file has to go again because the database refused it. */
  datatype Upload = Saved(setId: nat, key: string) | Cleaning(key: string)

  /** A purge working through the keys it was given when it began. */
  datatype PurgeJob = PurgeJob(setId: nat, keys: seq<string>, done: nat)

  /** used and leaked are history: keys ever generated, and keys whose owner crashed or could not clean up. */
  datatype World = World(sets: map<nat, SetRow>, nextSet: nat, versions: seq<Version>, files: set<string>,
                         uploads: map<nat, Upload>, purges: map<nat, PurgeJob>, used: set<string>, leaked: set<string>)

  const DAY: int := 86400

  /** The keys of a set's versions, in row order. */
  function KeysOf(versions: seq<Version>, s: nat): seq<string> {
    if versions == [] then []
    else KeysOf(versions[..|versions| - 1], s) +
         if versions[|versions| - 1].setId == s then [versions[|versions| - 1].key] else []
  }

  /** Deleting a set cascades to its versions. */
  function Without(versions: seq<Version>, s: nat): seq<Version> {
    if versions == [] then []
    else Without(versions[..|versions| - 1], s) +
         if versions[|versions| - 1].setId == s then [] else [versions[|versions| - 1]]
  }

  // ---- database transactions ----

  function Lifecycle(w: World, s: nat, archive: bool, retentionDays: nat, now: int): Result<World> {
    if s !in w.sets then Err(NotFound)
    else if w.sets[s].status == Purging then Err(InvalidInput)
    else
      var at := if !archive then None else if w.sets[s].archivedAt.Some? then w.sets[s].archivedAt else Some(now);
      Ok(w.(sets := w.sets[s := SetRow(if archive then Archived else Active, at, retentionDays)]))
  }

  /** CreateVersion takes versions for active sets only; refused stands for every other reason to fail. */
  function CreateVersion(w: World, s: nat, key: string, refused: bool): Result<World> {
    if s !in w.sets then Err(NotFound)
    else if w.sets[s].status != Active || refused then Err(InvalidInput)
    else Ok(w.(versions := w.versions + [Version(s, key)]))
  }

  function BeginPurge(w: World, s: nat, confirmed: bool, blocked: bool, now: int): Result<(World, seq<string>)> {
    if s !in w.sets then Err(NotFound)
    else if !confirmed || w.sets[s].status == Active then Err(InvalidInput)
    else if w.sets[s].archivedAt == None || now < w.sets[s].archivedAt.value + w.sets[s].retentionDays * DAY || blocked then
      Err(NotRequestable)
    else Ok((w.(sets := w.sets[s := w.sets[s].(status := Purging)]), KeysOf(w.versions, s)))
  }

  function CompletePurge(w: World, s: nat): Result<World> {
    if s !in w.sets || w.sets[s].status != Purging then Err(NotFound)
    else Ok(w.(sets := w.sets - {s}, versions := Without(w.versions, s)))
  }

  // ---- interleaved actors ----

  datatype Event =
    | NewSet(retentionDays: nat)
    | Change(setId: nat, archive: bool, retentionDays: nat, now: int)
    | StoreFile(actor: nat, setId: nat, key: string)
    | Insert(actor: nat, refused: bool)
    | Clean(actor: nat, ok: bool)
    | CrashUpload(actor: nat)
    | Begin(actor: nat, setId: nat, confirmed: bool, blocked: bool, now: int)
    | DeleteNext(actor: nat, ok: bool)
    | Finish(actor: nat)
    | CrashPurge(actor: nat)

  function UploadStep(w: World, e: Event): World {
    match e
    case StoreFile(u, s, key) =>
      if u !in w.uploads && s in w.sets && key !in w.used
      then w.(files := w.files + {key}, used := w.used + {key}, uploads := w.uploads[u := Saved(s, key)])
      else w
    case Insert(u, refused) =>
      if u in w.uploads && w.uploads[u].Saved? then
        var r := CreateVersion(w, w.uploads[u].setId, w.uploads[u].key, refused);
        if r.Ok? then r.value.(uploads := w.uploads - {u}) else w.(uploads := w.uploads[u := Cleaning(w.uploads[u].key)])
      else w
    case Clean(u, ok) =>
      if u in w.uploads && w.uploads[u].Cleaning? then
        if ok then w.(files := w.files - {w.uploads[u].key}, uploads := w.uploads - {u})
        else w.(leaked := w.leaked + {w.uploads[u].key}, uploads := w.uploads - {u})
      else w
    case CrashUpload(u) =>
      if u in w.uploads then w.(leaked := w.leaked + {w.uploads[u].key}, uploads := w.uploads - {u}) else w
    case _ => w
  }

  function PurgeStep(w: World, e: Event): World {
    match e
    case Begin(p, s, confirmed, blocked, now) =>
      var r := BeginPurge(w, s, confirmed, blocked, now);
      if p !in w.purges && r.Ok? then r.value.0.(purges := w.purges[p := PurgeJob(s, r.value.1, 0)]) else w
    case DeleteNext(p, ok) =>
      if p in w.purges && w.purges[p].done < |w.purges[p].keys| then
        var purge := w.purges[p];
        if ok then w.(files := w.files - {purge.keys[purge.done]}, purges := w.purges[p := purge.(done := purge.done + 1)])
        else w.(purges := w.purges - {p})
      else w
    case Finish(p) =>
      if p in w.purges && w.purges[p].done == |w.purges[p].keys| then
        var r := CompletePurge(w, w.purges[p].setId);
        (if r.Ok? then r.value else w).(purges := w.purges - {p})
      else w
    case CrashPurge(p) => if p in w.purges then w.(purges := w.purges - {p}) else w
    case _ => w
  }

  function Step(w: World, e: Event): World {
    match e
    case NewSet(days) => w.(sets := w.sets[w.nextSet := SetRow(Active, None, days)], nextSet := w.nextSet + 1)
    case Change(s, archive, days, now) =>
      var r := Lifecycle(w, s, archive, days, now); if r.Ok? then r.value else w
    case _ => if e.StoreFile? || e.Insert? || e.Clean? || e.CrashUpload? then UploadStep(w, e) else PurgeStep(w, e)
  }

  function Play(w: World, events: seq<Event>): World {
    if events == [] then w else Step(Play(w, events[..|events| - 1]), events[|events| - 1])
  }

  const EMPTY := World(map[], 0, [], {}, map[], map[], {}, {})

  // ---- the invariant ----

  predicate VersionOk(w: World, v: Version) {
    && v.setId in w.sets && v.key in w.used && v.key !in w.leaked
    && (w.sets[v.setId].status != Purging ==> v.key in w.files)
  }

  predicate VersionsOk(w: World) {
    && (forall i :: 0 <= i < |w.versions| ==> VersionOk(w, w.versions[i]))
    && DistinctKeys(w.versions)
  }

  /** An upload in flight owns its file: no version, no other upload and no purge knows the key. */
  predicate UploadsOk(w: World) {
    && (forall u :: u in w.uploads ==> w.uploads[u].key in w.files && w.uploads[u].key in w.used && w.uploads[u].key !in w.leaked)
    && (forall u, i :: u in w.uploads && 0 <= i < |w.versions| ==> w.uploads[u].key != w.versions[i].key)
    && (forall u, v :: u in w.uploads && v in w.uploads && u != v ==> w.uploads[u].key != w.uploads[v].key)
  }

  /** A purge has the set's complete and final key list, or the set is gone together with all its files. */
  predicate PurgeOk(w: World, p: PurgeJob) {
    && p.setId < w.nextSet && p.done <= |p.keys|
    && (forall k :: k in p.keys ==> k in w.used)
    && (forall i :: 0 <= i < p.done ==> p.keys[i] !in w.files)
    && (if p.setId in w.sets then w.sets[p.setId].status == Purging && p.keys == KeysOf(w.versions, p.setId)
        else forall k :: k in p.keys ==> k !in w.files)
  }

  predicate PurgesOk(w: World) {
    forall p :: p in w.purges ==> PurgeOk(w, w.purges[p])
  }

  predicate Referenced(w: World, key: string) {
    exists i :: 0 <= i < |w.versions| && w.versions[i].key == key
  }

  predicate InFlight(w: World, key: string) {
    exists u :: u in w.uploads && w.uploads[u].key == key
  }

  predicate FilesOk(w: World) {
    && w.files <= w.used
    && forall k :: k in w.files ==> Referenced(w, k) || InFlight(w, k) || k in w.leaked
  }

  predicate SetsOk(w: World) {
    forall s :: s in w.sets ==> s < w.nextSet
  }

  predicate Inv(w: World) {
    w.leaked <= w.used && VersionsOk(w) && UploadsOk(w) && PurgesOk(w) && FilesOk(w) && SetsOk(w)
  }

  // ---- key lists ----

  lemma {:induction false} KeysOfIn(versions: seq<Version>, s: nat, key: string)
    ensures key in KeysOf(versions, s) <==> exists i :: 0 <= i < |versions| && versions[i].setId == s && versions[i].key == key
  {
    if versions != [] {
      var n := |versions| - 1;
      KeysOfIn(versions[..n], s, key);
      if i :| 0 <= i < n && versions[..n][i].setId == s && versions[..n][i].key == key {
        assert versions[i] == versions[..n][i];
      }
      if i :| 0 <= i < |versions| && versions[i].setId == s && versions[i].key == key {
        assert i < n ==> versions[..n][i] == versions[i];
      }
    }
  }

  lemma {:induction false} WithoutIn(versions: seq<Version>, s: nat)
    ensures forall v :: v in Without(versions, s) <==> v in versions && v.setId != s
  {
    if versions != [] {
      var n := |versions| - 1;
      WithoutIn(versions[..n], s);
      assert versions == versions[..n] + [versions[n]];
    }
  }

  lemma {:induction false} WithoutKeys(versions: seq<Version>, s: nat, k: nat)
    requires k != s
    ensures KeysOf(Without(versions, s), k) == KeysOf(versions, k)
  {
    if versions != [] {
      var n := |versions| - 1;
      WithoutKeys(versions[..n], s, k);
      var rest := Without(versions[..n], s);
      assert (rest + [versions[n]])[..|rest|] == rest;
      assert rest + [] == rest;
    }
  }

  predicate DistinctKeys(versions: seq<Version>) {
    forall i, j :: 0 <= i < j < |versions| ==> versions[i].key != versions[j].key
  }

  lemma {:induction false} WithoutDistinct(versions: seq<Version>, s: nat)
    requires DistinctKeys(versions)
    ensures DistinctKeys(Without(versions, s))
  {
    if versions != [] {
      var n := |versions| - 1;
      var last := versions[n];
      var rest := Without(versions[..n], s);
      WithoutDistinct(versions[..n], s);
      WithoutIn(versions[..n], s);
      forall i | 0 <= i < |rest| ensures rest[i].key != last.key {
        assert rest[i] in versions[..n];
        var j :| 0 <= j < n && versions[j] == rest[i];
      }
      assert Without(versions, s) == rest + if last.setId == s then [] else [last];
      assert rest + [] == rest;
    }
  }

  // ---- what carries over when a step leaves a part alone ----

  lemma VersionsCarry(w: World, t: World)
    requires VersionsOk(w) && t.versions == w.versions && w.used <= t.used
    requires forall s :: s in w.sets ==> s in t.sets && (w.sets[s].status == Purging ==> t.sets[s].status == Purging)
    requires forall i :: 0 <= i < |w.versions| ==> w.versions[i].key !in t.leaked || w.versions[i].key in w.leaked
    requires forall i :: 0 <= i < |w.versions| && w.versions[i].setId in w.sets && w.sets[w.versions[i].setId].status != Purging ==>
               (w.versions[i].key in w.files ==> w.versions[i].key in t.files)
    ensures VersionsOk(t)
  {
    forall i | 0 <= i < |t.versions| ensures VersionOk(t, t.versions[i]) { assert VersionOk(w, w.versions[i]); }
  }

  lemma PurgesCarry(w: World, t: World)
    requires PurgesOk(w) && w.nextSet <= t.nextSet && w.used <= t.used && t.files <= w.files && t.versions == w.versions
    requires forall s :: s in t.sets && s < w.nextSet ==> s in w.sets
    requires forall s :: s in w.sets ==> s in t.sets && (w.sets[s].status == Purging ==> t.sets[s].status == Purging)
    requires forall p :: p in t.purges ==> p in w.purges && t.purges[p] == w.purges[p]
    ensures PurgesOk(t)
  {
    hide KeysOf;
    forall p | p in t.purges ensures PurgeOk(t, t.purges[p]) { assert PurgeOk(w, w.purges[p]); }
  }

  lemma UploadsCarry(w: World, t: World)
    requires UploadsOk(w) && t.versions == w.versions && w.used <= t.used
    requires forall u :: u in t.uploads ==> u in w.uploads && t.uploads[u].key == w.uploads[u].key
    requires forall u :: u in t.uploads ==> t.uploads[u].key in t.files && t.uploads[u].key !in t.leaked
    ensures UploadsOk(t)
  {
  }

  // ---- lifecycle ----

  lemma NewSetKeeps(w: World, days: nat)
    requires Inv(w)
    ensures Inv(Step(w, NewSet(days)))
  {
    hide VersionsOk, PurgesOk, UploadsOk, FilesOk;
    var t := Step(w, NewSet(days));
    VersionsCarry(w, t);
    PurgesCarry(w, t);
    UploadsUntouched(w, t);
    FilesIgnore(w, t);
  }

  lemma UploadsUntouched(w: World, t: World)
    requires UploadsOk(w) && t.uploads == w.uploads && t.versions == w.versions && t.files == w.files
    requires t.used == w.used && t.leaked == w.leaked
    ensures UploadsOk(t)
  {
  }

  lemma FilesIgnore(w: World, t: World)
    requires FilesOk(w) && t.versions == w.versions && t.uploads == w.uploads
    requires t.files <= w.files && w.used <= t.used && w.leaked <= t.leaked
    ensures FilesOk(t)
  {
    forall k | k in t.files ensures Referenced(t, k) || InFlight(t, k) || k in t.leaked {
      assert Referenced(w, k) || InFlight(w, k) || k in w.leaked;
    }
  }

  lemma ChangeKeeps(w: World, e: Event)
    requires Inv(w) && e.Change?
    ensures Inv(Step(w, e))
  {
    hide VersionsOk, PurgesOk, UploadsOk, FilesOk;
    var t := Step(w, e);
    VersionsCarry(w, t);
    PurgesCarry(w, t);
    UploadsUntouched(w, t);
    FilesIgnore(w, t);
  }

  // ---- uploads ----

  lemma StoreKeeps(w: World, e: Event)
    requires Inv(w) && e.StoreFile?
    ensures Inv(UploadStep(w, e))
  {
    hide VersionsOk, PurgesOk, UploadsOk, FilesOk;
    var t := UploadStep(w, e);
    if t != w {
      VersionsCarry(w, t);
      StoredPurges(w, t, e.key);
      StoredUploads(w, t, e);
      StoredFiles(w, t, e);
    }
  }

  lemma StoredPurges(w: World, t: World, key: string)
    requires PurgesOk(w) && key !in w.used
    requires t == w.(files := w.files + {key}, used := w.used + {key}, uploads := t.uploads)
    ensures PurgesOk(t)
  {
    hide KeysOf;
    forall p | p in t.purges ensures PurgeOk(t, t.purges[p]) {
      assert PurgeOk(w, w.purges[p]);
      assert key !in t.purges[p].keys;
    }
  }

  lemma StoredUploads(w: World, t: World, e: Event)
    requires VersionsOk(w) && UploadsOk(w) && w.leaked <= w.used && e.StoreFile? && t == UploadStep(w, e) && t != w
    ensures UploadsOk(t)
  {
    forall i | 0 <= i < |t.versions| ensures t.versions[i].key != e.key { assert VersionOk(w, w.versions[i]); }
  }

  lemma StoredFiles(w: World, t: World, e: Event)
    requires FilesOk(w) && e.StoreFile? && t == UploadStep(w, e) && t != w
    ensures FilesOk(t)
  {
    forall k | k in t.files ensures Referenced(t, k) || InFlight(t, k) || k in t.leaked {
      if k == e.key {
        assert e.actor in t.uploads;
      } else {
        assert Referenced(w, k) || InFlight(w, k) || k in w.leaked;
        if u :| u in w.uploads && w.uploads[u].key == k {
          assert t.uploads[u].key == k;
        }
      }
    }
  }

  lemma InsertKeeps(w: World, e: Event)
    requires Inv(w) && e.Insert?
    ensures Inv(UploadStep(w, e))
  {
    hide VersionsOk, PurgesOk, UploadsOk, FilesOk, CreateVersion;
    var t := UploadStep(w, e);
    if e.actor in w.uploads && w.uploads[e.actor].Saved? {
      var up := w.uploads[e.actor];
      if CreateVersion(w, up.setId, up.key, e.refused).Ok? {
        InsertedKeeps(w, t, e);
      } else {
        VersionsCarry(w, t);
        PurgesCarry(w, t);
        RefusedUploads(w, t, e.actor);
        RefusedFiles(w, t, e.actor);
      }
    }
  }

  lemma RefusedUploads(w: World, t: World, actor: nat)
    requires UploadsOk(w) && actor in w.uploads && t == w.(uploads := w.uploads[actor := Cleaning(w.uploads[actor].key)])
    ensures UploadsOk(t)
  {
  }

  lemma RefusedFiles(w: World, t: World, actor: nat)
    requires FilesOk(w) && actor in w.uploads && t == w.(uploads := w.uploads[actor := Cleaning(w.uploads[actor].key)])
    ensures FilesOk(t)
  {
    forall k | k in t.files ensures Referenced(t, k) || InFlight(t, k) || k in t.leaked {
      assert Referenced(w, k) || InFlight(w, k) || k in w.leaked;
      if u :| u in w.uploads && w.uploads[u].key == k { assert t.uploads[u].key == k; }
    }
  }

  predicate Inserted(w: World, t: World, actor: nat) {
    && actor in w.uploads && w.uploads[actor].Saved?
    && var up := w.uploads[actor];
       && up.setId in w.sets && w.sets[up.setId].status == Active
       && t == w.(versions := w.versions + [Version(up.setId, up.key)], uploads := w.uploads - {actor})
  }

  lemma InsertedKeeps(w: World, t: World, e: Event)
    requires Inv(w) && e.Insert? && e.actor in w.uploads && w.uploads[e.actor].Saved? && t == UploadStep(w, e)
    requires CreateVersion(w, w.uploads[e.actor].setId, w.uploads[e.actor].key, e.refused).Ok?
    ensures Inv(t)
  {
    hide VersionsOk, PurgesOk, UploadsOk, FilesOk;
    InsertedVersions(w, t, e.actor);
    InsertedUploads(w, t, e.actor);
    InsertedPurges(w, t, e.actor);
    InsertedFiles(w, t, e.actor);
  }

  lemma InsertedVersions(w: World, t: World, actor: nat)
    requires Inserted(w, t, actor) && VersionsOk(w) && UploadsOk(w)
    ensures VersionsOk(t)
  {
    forall i | 0 <= i < |t.versions| ensures VersionOk(t, t.versions[i]) {
      if i < |w.versions| { assert VersionOk(w, w.versions[i]); }
    }
  }

  lemma InsertedUploads(w: World, t: World, actor: nat)
    requires Inserted(w, t, actor) && UploadsOk(w)
    ensures UploadsOk(t)
  {
  }

  lemma InsertedPurges(w: World, t: World, actor: nat)
    requires Inserted(w, t, actor) && PurgesOk(w)
    ensures PurgesOk(t)
  {
    hide KeysOf;
    var up := w.uploads[actor];
    forall p | p in t.purges ensures PurgeOk(t, t.purges[p]) {
      assert PurgeOk(w, w.purges[p]);
      OneMoreKey(w.versions, Version(up.setId, up.key), t.purges[p].setId);
    }
  }

  lemma InsertedFiles(w: World, t: World, actor: nat)
    requires Inserted(w, t, actor) && FilesOk(w)
    ensures FilesOk(t)
  {
    var n := |w.versions|;
    forall k | k in t.files ensures Referenced(t, k) || InFlight(t, k) || k in t.leaked {
      assert Referenced(w, k) || InFlight(w, k) || k in w.leaked;
      if i :| 0 <= i < n && w.versions[i].key == k { assert t.versions[i].key == k; }
      if u :| u in w.uploads && w.uploads[u].key == k {
        if u == actor { assert t.versions[n].key == k; } else { assert t.uploads[u].key == k; }
      }
    }
  }

  lemma OneMoreKey(versions: seq<Version>, v: Version, s: nat)
    ensures v.setId != s ==> KeysOf(versions + [v], s) == KeysOf(versions, s)
  {
    assert (versions + [v])[..|versions|] == versions;
  }

  lemma EndUploadKeeps(w: World, e: Event)
    requires Inv(w) && (e.Clean? || e.CrashUpload?)
    ensures Inv(UploadStep(w, e))
  {
    hide VersionsOk, PurgesOk, UploadsOk, FilesOk;
    var t := UploadStep(w, e);
    if t != w {
      var key := w.uploads[e.actor].key;
      OwnKey(w, e.actor);
      VersionsCarry(w, t);
      PurgesCarry(w, t);
      EndedUploads(w, t, e.actor);
      EndedFiles(w, t, e.actor);
    }
  }

  lemma OwnKey(w: World, actor: nat)
    requires UploadsOk(w) && actor in w.uploads
    ensures forall i :: 0 <= i < |w.versions| ==> w.versions[i].key != w.uploads[actor].key
    ensures w.uploads[actor].key in w.used
  {
  }

  predicate Ended(w: World, t: World, actor: nat) {
    && actor in w.uploads
    && var key := w.uploads[actor].key;
       t == w.(uploads := w.uploads - {actor}, files := w.files - {key}) ||
       t == w.(uploads := w.uploads - {actor}, leaked := w.leaked + {key})
  }

  lemma EndedUploads(w: World, t: World, actor: nat)
    requires Ended(w, t, actor) && UploadsOk(w)
    ensures UploadsOk(t)
  {
  }

  lemma EndedFiles(w: World, t: World, actor: nat)
    requires Ended(w, t, actor) && FilesOk(w)
    ensures FilesOk(t)
  {
    forall k | k in t.files ensures Referenced(t, k) || InFlight(t, k) || k in t.leaked {
      assert Referenced(w, k) || InFlight(w, k) || k in w.leaked;
      if u :| u in w.uploads && w.uploads[u].key == k {
        if u != actor { assert t.uploads[u].key == k; }
      }
    }
  }

  // ---- purges ----

  lemma BeginKeeps(w: World, e: Event)
    requires Inv(w) && e.Begin?
    ensures Inv(PurgeStep(w, e))
  {
    hide VersionsOk, PurgesOk, UploadsOk, FilesOk, KeysOf;
    var t := PurgeStep(w, e);
    if t != w {
      VersionsCarry(w, t);
      UploadsUntouched(w, t);
      BegunPurges(w, t, e);
      FilesIgnore(w, t);
    }
  }

  lemma KeysUsed(w: World, s: nat)
    requires VersionsOk(w)
    ensures forall k :: k in KeysOf(w.versions, s) ==> k in w.used
  {
    hide KeysOf;
    forall k | k in KeysOf(w.versions, s) ensures k in w.used {
      KeysOfIn(w.versions, s, k);
      var i :| 0 <= i < |w.versions| && w.versions[i].setId == s && w.versions[i].key == k;
      assert VersionOk(w, w.versions[i]);
    }
  }

  lemma BegunPurges(w: World, t: World, e: Event)
    requires VersionsOk(w) && PurgesOk(w) && SetsOk(w) && e.Begin? && t == PurgeStep(w, e) && t != w
    ensures PurgesOk(t)
  {
    hide KeysOf, VersionsOk;
    KeysUsed(w, e.setId);
    forall p | p in t.purges ensures PurgeOk(t, t.purges[p]) {
      if p in w.purges { assert PurgeOk(w, w.purges[p]); }
    }
  }

  lemma DeleteKeeps(w: World, e: Event)
    requires Inv(w) && e.DeleteNext?
    ensures Inv(PurgeStep(w, e))
  {
    hide VersionsOk, PurgesOk, UploadsOk, FilesOk;
    var t := PurgeStep(w, e);
    if t != w {
      DeletedKey(w, e.actor);
      VersionsCarry(w, t);
      UploadsCarry(w, t);
      DeletedPurges(w, t, e);
      FilesIgnore(w, t);
    }
  }

  /** The object a purge deletes next is not needed: no live version, no upload in flight. */
  lemma DeletedKey(w: World, p: nat)
    requires Inv(w) && p in w.purges && w.purges[p].done < |w.purges[p].keys|
    ensures var key := w.purges[p].keys[w.purges[p].done];
            && (forall i :: 0 <= i < |w.versions| && w.versions[i].setId in w.sets && w.sets[w.versions[i].setId].status != Purging ==>
                  w.versions[i].key != key || key !in w.files)
            && (forall u :: u in w.uploads ==> w.uploads[u].key != key && w.uploads[u].key in w.files && w.uploads[u].key !in w.leaked)
  {
    hide KeysOf, FilesOk;
    var purge := w.purges[p];
    assert PurgeOk(w, purge);
    var key := purge.keys[purge.done];
    assert key in purge.keys;
    if purge.setId in w.sets {
      KeysOfIn(w.versions, purge.setId, key);
      var j :| 0 <= j < |w.versions| && w.versions[j].setId == purge.setId && w.versions[j].key == key;
    }
  }

  lemma DeletedPurges(w: World, t: World, e: Event)
    requires PurgesOk(w) && e.DeleteNext? && t == PurgeStep(w, e) && t != w
    ensures PurgesOk(t)
  {
    hide KeysOf;
    assert PurgeOk(w, w.purges[e.actor]);
    forall p | p in t.purges ensures PurgeOk(t, t.purges[p]) { assert PurgeOk(w, w.purges[p]); }
  }

  lemma FinishKeeps(w: World, e: Event)
    requires Inv(w) && e.Finish?
    ensures Inv(PurgeStep(w, e))
    ensures forall v :: v in w.versions && v !in PurgeStep(w, e).versions ==> v.key !in PurgeStep(w, e).files
  {
    hide VersionsOk, PurgesOk, UploadsOk, FilesOk, Without;
    var t := PurgeStep(w, e);
    if e.actor in w.purges && w.purges[e.actor].done == |w.purges[e.actor].keys| {
      var purge := w.purges[e.actor];
      assert PurgeOk(w, purge) by { OnePurge(w, e.actor); }
      if purge.setId in w.sets {
        WithoutIn(w.versions, purge.setId);
        SetKeysGone(w, purge);
        RemovedVersions(w, t, purge.setId);
        RemovedUploads(w, t, purge.setId);
        RemovedPurges(w, t, purge);
        RemovedFiles(w, t, purge.setId);
      } else {
        VersionsCarry(w, t);
        PurgesCarry(w, t);
        UploadsUntouched(w, t);
        FilesIgnore(w, t);
      }
    }
  }

  lemma OnePurge(w: World, p: nat)
    requires PurgesOk(w) && p in w.purges
    ensures PurgeOk(w, w.purges[p])
  {
  }

  lemma SetKeysGone(w: World, purge: PurgeJob)
    requires PurgeOk(w, purge) && purge.done == |purge.keys| && purge.setId in w.sets
    ensures forall v :: v in w.versions && v.setId == purge.setId ==> v.key !in w.files
  {
    hide PurgeOk;
    forall v | v in w.versions && v.setId == purge.setId ensures v.key !in w.files {
      GoneKey(w, purge, v);
    }
  }

  predicate Removed(w: World, t: World, s: nat) {
    && t == w.(sets := w.sets - {s}, versions := Without(w.versions, s), purges := t.purges)
    && forall p :: p in t.purges ==> p in w.purges && t.purges[p] == w.purges[p]
  }

  lemma RemovedVersions(w: World, t: World, s: nat)
    requires Removed(w, t, s) && VersionsOk(w)
    ensures VersionsOk(t)
  {
    hide Without;
    WithoutIn(w.versions, s);
    WithoutDistinct(w.versions, s);
    forall i | 0 <= i < |t.versions| ensures VersionOk(t, t.versions[i]) {
      assert t.versions[i] in w.versions;
      var j :| 0 <= j < |w.versions| && w.versions[j] == t.versions[i];
      assert VersionOk(w, w.versions[j]);
    }
  }

  lemma RemovedUploads(w: World, t: World, s: nat)
    requires Removed(w, t, s) && UploadsOk(w)
    ensures UploadsOk(t)
  {
    hide Without;
    WithoutIn(w.versions, s);
    forall u, i | u in t.uploads && 0 <= i < |t.versions| ensures t.uploads[u].key != t.versions[i].key {
      assert t.versions[i] in w.versions;
      var j :| 0 <= j < |w.versions| && w.versions[j] == t.versions[i];
    }
  }

  lemma RemovedPurges(w: World, t: World, purge: PurgeJob)
    requires Removed(w, t, purge.setId) && PurgesOk(w) && PurgeOk(w, purge)
    requires purge.setId in w.sets && purge.done == |purge.keys|
    ensures PurgesOk(t)
  {
    hide KeysOf, Without;
    forall p | p in t.purges ensures PurgeOk(t, t.purges[p]) {
      assert PurgeOk(w, w.purges[p]);
      if w.purges[p].setId == purge.setId {
      } else {
        WithoutKeys(w.versions, purge.setId, w.purges[p].setId);
      }
    }
  }

  lemma RemovedFiles(w: World, t: World, s: nat)
    requires Removed(w, t, s) && FilesOk(w)
    requires forall v :: v in w.versions && v.setId == s ==> v.key !in w.files
    ensures FilesOk(t)
  {
    hide Without, Referenced, InFlight;
    forall k | k in t.files ensures Referenced(t, k) || InFlight(t, k) || k in t.leaked {
      StillAccounted(w, t, s, k);
    }
  }

  lemma GoneKey(w: World, purge: PurgeJob, v: Version)
    requires PurgeOk(w, purge) && purge.done == |purge.keys| && purge.setId in w.sets
    requires v in w.versions && v.setId == purge.setId
    ensures v.key !in w.files
  {
    hide KeysOf;
    KeysOfIn(w.versions, purge.setId, v.key);
    var j :| 0 <= j < |w.versions| && w.versions[j] == v;
    assert v.key in purge.keys;
    var i :| 0 <= i < |purge.keys| && purge.keys[i] == v.key;
  }

  lemma StillAccounted(w: World, t: World, s: nat, k: string)
    requires FilesOk(w) && k in w.files && t.versions == Without(w.versions, s) && t.uploads == w.uploads && t.leaked == w.leaked
    requires forall v :: v in w.versions && v.setId == s ==> v.key !in w.files
    ensures Referenced(t, k) || InFlight(t, k) || k in t.leaked
  {
    hide Without;
    WithoutIn(w.versions, s);
    if i :| 0 <= i < |w.versions| && w.versions[i].key == k {
      assert w.versions[i] in w.versions;
      assert w.versions[i] in t.versions;
      var j :| 0 <= j < |t.versions| && t.versions[j] == w.versions[i];
    } else {
      assert InFlight(w, k) || k in w.leaked;
    }
  }

  lemma CrashPurgeKeeps(w: World, e: Event)
    requires Inv(w) && e.CrashPurge?
    ensures Inv(PurgeStep(w, e))
  {
    hide VersionsOk, PurgesOk, UploadsOk, FilesOk;
    var t := PurgeStep(w, e);
    VersionsCarry(w, t);
    PurgesCarry(w, t);
    UploadsUntouched(w, t);
    FilesIgnore(w, t);
  }

  lemma StepKeeps(w: World, e: Event)
    requires Inv(w)
    ensures Inv(Step(w, e))
  {
    hide Inv, Lifecycle, UploadStep, PurgeStep;
    match e
    case NewSet(days) => NewSetKeeps(w, days);
    case Change(_, _, _, _) => ChangeKeeps(w, e);
    case StoreFile(_, _, _) => StoreKeeps(w, e);
    case Insert(_, _) => InsertKeeps(w, e);
    case Clean(_, _) => EndUploadKeeps(w, e);
    case CrashUpload(_) => EndUploadKeeps(w, e);
    case Begin(_, _, _, _, _) => BeginKeeps(w, e);
    case DeleteNext(_, _) => DeleteKeeps(w, e);
    case Finish(_) => FinishKeeps(w, e);
    case CrashPurge(_) => CrashPurgeKeeps(w, e);
  }

  lemma {:induction false} Reachable(events: seq<Event>)
    ensures Inv(Play(EMPTY, events))
  {
    hide Inv, Step;
    if events == [] {
      EmptyIsFine();
    } else {
      Reachable(events[..|events| - 1]);
      StepKeeps(Play(EMPTY, events[..|events| - 1]), events[|events| - 1]);
    }
  }

  lemma EmptyIsFine()
    ensures Inv(EMPTY)
  {
  }

  // ---- what the saga promises ----

  /** Whatever is interleaved, every version of a set that is not being purged has its stored object. */
  lemma VersionsHaveObjects(events: seq<Event>, i: nat)
    requires i < |Play(EMPTY, events).versions|
    ensures var w := Play(EMPTY, events); var v := w.versions[i];
            v.setId in w.sets && (w.sets[v.setId].status != Purging ==> v.key in w.files)
  {
    hide Step;
    Reachable(events);
    var w := Play(EMPTY, events);
    assert VersionOk(w, w.versions[i]);
  }

  /** Every stored object belongs to a version, to an upload in flight, or to an owner that crashed or failed to clean up. */
  lemma ObjectsAreAccounted(events: seq<Event>, key: string)
    requires key in Play(EMPTY, events).files
    ensures var w := Play(EMPTY, events); Referenced(w, key) || InFlight(w, key) || key in w.leaked
  {
    hide Step;
    Reachable(events);
  }

  /** A set being purged stays so, with the same versions, until it is deleted; a deleted set never comes back. */
  predicate PurgingFollows(w: World, t: World, s: nat) {
    && (s in w.sets && w.sets[s].status == Purging ==>
          s !in t.sets || (t.sets[s].status == Purging && KeysOf(t.versions, s) == KeysOf(w.versions, s)))
    && (s !in w.sets && s < w.nextSet ==> s !in t.sets)
    && w.nextSet <= t.nextSet
  }

  lemma StepPurging(w: World, e: Event, s: nat)
    requires Inv(w)
    ensures PurgingFollows(w, Step(w, e), s)
  {
    hide KeysOf, VersionsOk, UploadsOk, FilesOk, PurgeOk;
    if e.Insert? && e.actor in w.uploads && w.uploads[e.actor].Saved? {
      OneMoreKey(w.versions, Version(w.uploads[e.actor].setId, w.uploads[e.actor].key), s);
    }
    if e.Finish? && e.actor in w.purges {
      if s != w.purges[e.actor].setId { WithoutKeys(w.versions, w.purges[e.actor].setId, s); }
    }
  }

  lemma {:induction false} PurgingUntilDeleted(events: seq<Event>, later: seq<Event>, s: nat)
    ensures PurgingFollows(Play(EMPTY, events), Play(Play(EMPTY, events), later), s)
  {
    hide Step, Inv, KeysOf;
    if later != [] {
      var n := |later| - 1;
      PurgingUntilDeleted(events, later[..n], s);
      PlayAppend(EMPTY, events, later[..n]);
      Reachable(events + later[..n]);
      StepPurging(Play(Play(EMPTY, events), later[..n]), later[n], s);
      SetsBelow(events);
    }
  }

  lemma SetsBelow(events: seq<Event>)
    ensures SetsOk(Play(EMPTY, events))
  {
    hide Step;
    Reachable(events);
  }

  lemma {:induction false} PlayAppend(w: World, a: seq<Event>, b: seq<Event>)
    ensures Play(w, a + b) == Play(Play(w, a), b)
  {
    hide Step;
    if b == [] {
      assert a + b == a;
    } else {
      PlayAppend(w, a, b[..|b| - 1]);
      assert (a + b)[..|a + b| - 1] == a + b[..|b| - 1];
    }
  }

  /** A purge removes a set only when every object of its versions is gone, also when several purges work at once. */
  lemma PurgeRemovesEverything(events: seq<Event>, e: Event, v: Version)
    requires e.Finish? && v in Play(EMPTY, events).versions && v !in Step(Play(EMPTY, events), e).versions
    ensures v.key !in Step(Play(EMPTY, events), e).files && v.setId !in Step(Play(EMPTY, events), e).sets
  {
    hide Without;
    Reachable(events);
    var w := Play(EMPTY, events);
    FinishKeeps(w, e);
    if e.actor in w.purges {
      WithoutIn(w.versions, w.purges[e.actor].setId);
    }
  }

  // ---- when a purge may begin ----

  /** A set starts being purged exactly by a confirmed request nothing blocks, once it has been archived for its retention. */
  lemma PurgeBeginsExactly(w: World, e: Event, s: nat)
    requires Inv(w) && s in w.sets && w.sets[s].status != Purging
    ensures s in Step(w, e).sets
    ensures Step(w, e).sets[s].status == Purging <==>
              && e.Begin? && e.setId == s && e.actor !in w.purges && e.confirmed && !e.blocked
              && w.sets[s].status == Archived && w.sets[s].archivedAt.Some?
              && e.now >= w.sets[s].archivedAt.value + w.sets[s].retentionDays * 86400
  {
    hide KeysOf, Without, VersionsOk, UploadsOk, FilesOk;
    if e.Finish? && e.actor in w.purges {
      assert PurgeOk(w, w.purges[e.actor]);
    }
  }

  /** The set was archived at t, and nobody has activated it since. */
  predicate ArchivedSince(events: seq<Event>, s: nat, t: int) {
    exists j :: 0 <= j < |events| && IsArchiving(events[j], s) && events[j].now == t &&
                forall i :: j < i < |events| ==> !IsActivating(events[i], s)
  }

  predicate IsArchiving(e: Event, s: nat) {
    e.Change? && e.setId == s && e.archive
  }

  predicate IsActivating(e: Event, s: nat) {
    e.Change? && e.setId == s && !e.archive
  }

  /** The time in the row is that of such a change. */
  predicate Dated(events: seq<Event>, w: World, s: nat) {
    s in w.sets && w.sets[s].status != Purging && w.sets[s].archivedAt.Some? ==> ArchivedSince(events, s, w.sets[s].archivedAt.value)
  }

  lemma DateStep(events: seq<Event>, w: World, e: Event, s: nat)
    requires Inv(w) && Dated(events, w, s)
    ensures Dated(events + [e], Step(w, e), s)
  {
    hide KeysOf, Without, VersionsOk, UploadsOk, FilesOk, PurgeOk, ArchivedSince;
    var t := Step(w, e);
    if s in t.sets && t.sets[s].status != Purging && t.sets[s].archivedAt.Some? {
      if s in w.sets && w.sets[s].status != Purging && w.sets[s].archivedAt == t.sets[s].archivedAt {
        assert !IsActivating(e, s);
        StillArchived(events, e, s, t.sets[s].archivedAt.value);
      } else {
        NewSetsApart(w, e, s);
        assert IsArchiving(e, s) && e.now == t.sets[s].archivedAt.value;
        JustArchived(events, e, s);
      }
    }
  }

  lemma NewSetsApart(w: World, e: Event, s: nat)
    requires Inv(w)
    ensures e.NewSet? ==> w.nextSet !in w.sets
  {
    hide VersionsOk, UploadsOk, FilesOk, PurgesOk;
  }

  lemma StillArchived(events: seq<Event>, e: Event, s: nat, t: int)
    requires ArchivedSince(events, s, t) && !IsActivating(e, s)
    ensures ArchivedSince(events + [e], s, t)
  {
    var more := events + [e];
    var j :| 0 <= j < |events| && IsArchiving(events[j], s) && events[j].now == t &&
             forall i :: j < i < |events| ==> !IsActivating(events[i], s);
    assert IsArchiving(more[j], s) && more[j].now == t;
    forall i | j < i < |more| ensures !IsActivating(more[i], s) {
      assert i < |events| ==> more[i] == events[i];
    }
  }

  lemma JustArchived(events: seq<Event>, e: Event, s: nat)
    requires IsArchiving(e, s)
    ensures ArchivedSince(events + [e], s, e.now)
  {
    assert (events + [e])[|events|] == e;
  }

  lemma {:induction false} AlwaysDated(events: seq<Event>, s: nat)
    ensures Dated(events, Play(EMPTY, events), s)
  {
    hide Step, Inv, Dated;
    if events == [] {
      NothingDated(s);
    } else {
      var n := |events| - 1;
      AlwaysDated(events[..n], s);
      Reachable(events[..n]);
      DateStep(events[..n], Play(EMPTY, events[..n]), events[n], s);
      assert events[..n] + [events[n]] == events;
    }
  }

  lemma NothingDated(s: nat)
    ensures Dated([], EMPTY, s)
  {
  }

  /** Nothing is purged early: somebody archived the set, nobody activated it again, and its retention has passed since. */
  lemma PurgedAfterRetention(events: seq<Event>, e: Event, s: nat)
    requires var w := Play(EMPTY, events); s in w.sets && w.sets[s].status != Purging
    requires s in Step(Play(EMPTY, events), e).sets && Step(Play(EMPTY, events), e).sets[s].status == Purging
    ensures e.Begin? && e.confirmed && !e.blocked
    ensures exists j :: 0 <= j < |events| && IsArchiving(events[j], s) &&
              events[j].now + Play(EMPTY, events).sets[s].retentionDays * 86400 <= e.now &&
              forall i :: j < i < |events| ==> !IsActivating(events[i], s)
  {
    hide Step, Inv;
    Reachable(events);
    AlwaysDated(events, s);
    PurgeBeginsExactly(Play(EMPTY, events), e, s);
    var t := Play(EMPTY, events).sets[s].archivedAt.value;
    var j :| 0 <= j < |events| && IsArchiving(events[j], s) && events[j].now == t &&
             forall i :: j < i < |events| ==> !IsActivating(events[i], s);
  }

  // ---- the program's own sequences ----

  class Service {
    var world: World

    /** The file is stored before the row. */
    method StoreObject(actor: nat, s: nat, key: string)
      modifies this
      ensures world == Step(old(world), StoreFile(actor, s, key))
    {
      if actor !in world.uploads && s in world.sets && key !in world.used {
        world := world.(files := world.files + {key}, used := world.used + {key}, uploads := world.uploads[actor := Saved(s, key)]);
      }
    }

    /** CreateVersion: the set is locked and must be active; whatever refuses the row leaves the file to be cleaned up. */
    method InsertVersion(actor: nat, refused: bool)
      modifies this
      ensures world == Step(old(world), Insert(actor, refused))
    {
      if actor !in world.uploads || !world.uploads[actor].Saved? {
        return;
      }
      var s, key := world.uploads[actor].setId, world.uploads[actor].key;
      if s !in world.sets || world.sets[s].status == Archived || world.sets[s].status == Purging || refused {
        world := world.(uploads := world.uploads[actor := Cleaning(key)]);
        return;
      }
      world := world.(versions := world.versions + [Version(s, key)], uploads := world.uploads - {actor});
    }

    method RemoveObject(actor: nat, ok: bool)
      modifies this
      ensures world == Step(old(world), Clean(actor, ok))
    {
      if actor !in world.uploads || !world.uploads[actor].Cleaning? {
        return;
      }
      var key := world.uploads[actor].key;
      if ok {
        world := world.(files := world.files - {key}, uploads := world.uploads - {actor});
      } else {
        world := world.(leaked := world.leaked + {key}, uploads := world.uploads - {actor});
      }
    }

    /** UpdateLifecycle: archiving keeps the first time it was done, activating clears it. */
    method UpdateLifecycle(s: nat, archive: bool, retentionDays: nat, now: int)
      modifies this
      ensures world == Step(old(world), Change(s, archive, retentionDays, now))
    {
      if s !in world.sets || world.sets[s].status == Purging {
        return;
      }
      var archivedAt := world.sets[s].archivedAt;
      if archive && archivedAt == None {
        archivedAt := Some(now);
      } else if !archive {
        archivedAt := None;
      }
      world := world.(sets := world.sets[s := SetRow(if archive then Archived else Active, archivedAt, retentionDays)]);
    }

    /** BeginPurge: confirmation, archive status, retention, references; then the plan and the status. */
    method MarkPurging(actor: nat, s: nat, confirmed: bool, blocked: bool, now: int)
      modifies this
      ensures world == Step(old(world), Begin(actor, s, confirmed, blocked, now))
    {
      hide KeysOf;
      if actor in world.purges || s !in world.sets || !confirmed {
        return;
      }
      var row := world.sets[s];
      if row.status != Archived && row.status != Purging {
        return;
      }
      if row.archivedAt == None || now < row.archivedAt.value + row.retentionDays * 24 * 3600 {
        return;
      }
      if blocked {
        return;
      }
      var keys := StorageKeys(s);
      world := world.(sets := world.sets[s := row.(status := Purging)], purges := world.purges[actor := PurgeJob(s, keys, 0)]);
    }

    method StorageKeys(s: nat) returns (keys: seq<string>)
      ensures keys == KeysOf(world.versions, s)
    {
      keys := [];
      var i := 0;
      while i < |world.versions|
        invariant 0 <= i <= |world.versions| && keys == KeysOf(world.versions[..i], s)
      {
        assert world.versions[..i + 1][..i] == world.versions[..i];
        if world.versions[i].setId == s {
          keys := keys + [world.versions[i].key];
        }
        i := i + 1;
      }
      assert world.versions[..|world.versions|] == world.versions;
    }

    method DeleteObject(actor: nat, ok: bool)
      modifies this
      ensures world == Step(old(world), DeleteNext(actor, ok))
    {
      if actor !in world.purges || world.purges[actor].done >= |world.purges[actor].keys| {
        return;
      }
      var purge := world.purges[actor];
      if ok {
        world := world.(files := world.files - {purge.keys[purge.done]},
                        purges := world.purges[actor := PurgeJob(purge.setId, purge.keys, purge.done + 1)]);
      } else {
        world := world.(purges := world.purges - {actor});
      }
    }

    /** CompletePurge: the set's row if it is still PURGING, and by cascade its versions. */
    method RemoveSet(actor: nat)
      modifies this
      ensures world == Step(old(world), Finish(actor))
    {
      hide Without;
      if actor !in world.purges || world.purges[actor].done != |world.purges[actor].keys| {
        return;
      }
      var s := world.purges[actor].setId;
      if s in world.sets && world.sets[s].status == Purging {
        var rest := OtherVersions(s);
        world := world.(sets := world.sets - {s}, versions := rest);
      }
      world := world.(purges := world.purges - {actor});
    }

    method OtherVersions(s: nat) returns (rest: seq<Version>)
      ensures rest == Without(world.versions, s)
    {
      rest := [];
      var i := 0;
      while i < |world.versions|
        invariant 0 <= i <= |world.versions| && rest == Without(world.versions[..i], s)
      {
        assert world.versions[..i + 1][..i] == world.versions[..i];
        if world.versions[i].setId != s {
          rest := rest + [world.versions[i]];
        }
        i := i + 1;
      }
      assert world.versions[..|world.versions|] == world.versions;
    }

    /** Upload: store the file, then the row; if the row is refused, remove the file again. */
    method Upload(actor: nat, s: nat, key: string, refused: bool, cleanable: bool)
      returns (accepted: bool, ghost trace: seq<Event>)
      requires Inv(world) && actor !in world.uploads && key !in world.used
      modifies this
      ensures world == Play(old(world), trace) && Inv(world) && world.uploads == old(world).uploads
      ensures accepted <==> (s in old(world).sets && old(world).sets[s].status == Active && !refused)
      ensures accepted ==> world.versions == old(world).versions + [Version(s, key)] && world.files == old(world).files + {key}
      ensures !accepted ==> world.versions == old(world).versions
      ensures !accepted && (cleanable || s !in old(world).sets) ==> world.files == old(world).files
      ensures world.sets == old(world).sets && world.purges == old(world).purges
    {
      hide Inv;
      trace := [];
      if s !in world.sets {
        return false, [];
      }
      ghost var start := world;
      assert key !in start.files by { FilesUsed(start); }
      StoreObject(actor, s, key);
      StepKeeps(start, StoreFile(actor, s, key));
      ghost var stored := world;
      InsertVersion(actor, refused);
      StepKeeps(stored, Insert(actor, refused));
      ghost var answered := world;
      accepted := actor !in world.uploads;
      trace := [StoreFile(actor, s, key), Insert(actor, refused)];
      Played(start, StoreFile(actor, s, key), Insert(actor, refused));
      assert stored.uploads - {actor} == start.uploads;
      if !accepted {
        RemoveObject(actor, cleanable);
        StepKeeps(answered, Clean(actor, cleanable));
        ghost var before := trace;
        trace := trace + [Clean(actor, cleanable)];
        assert trace[..2] == before;
        assert answered.uploads - {actor} == start.uploads;
      }
    }

    /** Purge: mark the set, delete the objects one by one, then the rows; stop at the first object that cannot go. */
    method Purge(actor: nat, s: nat, confirmed: bool, blocked: bool, now: int, deletable: set<string>)
      returns (done: bool, ghost trace: seq<Event>)
      requires Inv(world) && actor !in world.purges
      modifies this
      ensures world == Play(old(world), trace) && Inv(world)
      ensures done <==> BeginPurge(old(world), s, confirmed, blocked, now).Ok? &&
                        forall k :: k in KeysOf(old(world).versions, s) ==> k in deletable
      ensures done ==> s !in world.sets && world.versions == Without(old(world).versions, s) &&
                       forall k :: k in KeysOf(old(world).versions, s) ==> k !in world.files
      ensures !done && BeginPurge(old(world), s, confirmed, blocked, now).Ok? ==>
                s in world.sets && world.sets[s].status == Purging && world.versions == old(world).versions
    {
      hide Inv, KeysOf, Without, Step, BeginPurge;
      trace := [];
      ghost var start := world;
      var e := Begin(actor, s, confirmed, blocked, now);
      BeginFacts(start, actor, s, confirmed, blocked, now);
      MarkPurging(actor, s, confirmed, blocked, now);
      StepKeeps(start, e);
      if actor !in world.purges {
        return false, [];
      }
      trace := [e];
      assert trace[..0] == [];
      var keys := world.purges[actor].keys;
      ghost var begun := world;
      var i := 0;
      while i < |keys|
        invariant 0 <= i <= |keys| && Inv(world) && world == Play(start, trace)
        invariant actor in world.purges && world.purges[actor] == PurgeJob(s, keys, i)
        invariant world.versions == begun.versions && world.sets == begun.sets
        invariant forall k :: 0 <= k < i ==> keys[k] in deletable && keys[k] !in world.files
      {
        ghost var before := world;
        ghost var was := trace;
        var ok := keys[i] in deletable;
        assert ok || keys[i] in keys;
        DeleteFacts(before, actor, ok);
        DeleteObject(actor, ok);
        StepKeeps(before, DeleteNext(actor, ok));
        trace := trace + [DeleteNext(actor, ok)];
        assert trace[..|was|] == was;
        if !ok {
          return false, trace;
        }
        i := i + 1;
      }
      ghost var emptied := world;
      ghost var was := trace;
      FinishFacts(emptied, actor);
      RemoveSet(actor);
      StepKeeps(emptied, Finish(actor));
      trace := trace + [Finish(actor)];
      assert trace[..|was|] == was;
      done := true;
    }
  }

  lemma BeginFacts(w: World, actor: nat, s: nat, confirmed: bool, blocked: bool, now: int)
    requires actor !in w.purges
    ensures var t := Step(w, Begin(actor, s, confirmed, blocked, now));
            if BeginPurge(w, s, confirmed, blocked, now).Ok?
            then s in w.sets && t == w.(sets := w.sets[s := w.sets[s].(status := Purging)],
                                        purges := w.purges[actor := PurgeJob(s, KeysOf(w.versions, s), 0)])
            else t == w
  {
    hide KeysOf;
  }

  lemma DeleteFacts(w: World, actor: nat, ok: bool)
    requires actor in w.purges && w.purges[actor].done < |w.purges[actor].keys|
    ensures var t := Step(w, DeleteNext(actor, ok)); var purge := w.purges[actor];
            if ok then t == w.(files := w.files - {purge.keys[purge.done]}, purges := w.purges[actor := purge.(done := purge.done + 1)])
            else t == w.(purges := w.purges - {actor})
  {
  }

  lemma FinishFacts(w: World, actor: nat)
    requires actor in w.purges && w.purges[actor].done == |w.purges[actor].keys|
    requires w.purges[actor].setId in w.sets && w.sets[w.purges[actor].setId].status == Purging
    ensures var s := w.purges[actor].setId;
            Step(w, Finish(actor)) == w.(sets := w.sets - {s}, versions := Without(w.versions, s), purges := w.purges - {actor})
  {
    hide Without;
  }

  lemma FilesUsed(w: World)
    requires Inv(w)
    ensures w.files <= w.used
  {
  }

  lemma Played(w: World, a: Event, b: Event)
    ensures Play(w, [a, b]) == Step(Step(w, a), b)
  {
    hide Step;
    assert [a, b][..1] == [a] && [a][..0] == [];
    assert Play(w, [a]) == Step(Play(w, []), a);
  }
}
