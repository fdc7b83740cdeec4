/**
 * The client-side video store (lib/video-storage.ts): a singleton over one
 * IndexedDB object store named "videos", keyed by the record's `id`, in the
 * database "GolfitterVideoDB" version 1. The database handle is opened lazily
 * by the first operation that needs it.
 *
 * The durable object store is a map from id to record. The browser's answers
 * (whether `indexedDB.open` succeeds, whether a request succeeds) and the
 * values of `Date.now()`, `Math.random()` and `new Date()` are parameters.
 */
module VideoStorage {
  import opened Wrappers
  import Text
  import ObjectUrls

  const DbName: string := "GolfitterVideoDB"
  const DbVersion: nat := 1
  const StoreName: string := "videos"

  /** What a browser `File` exposes: name, MIME type, byte size and contents. */
  datatype VideoFile = VideoFile(name: string, mime: string, size: nat, data: ObjectUrls.Blob)

  /** A persisted record; `uploadedAt` is the creation time in milliseconds. */
  datatype StoredVideo = StoredVideo(
    id: string, name: string, mime: string, size: nat, data: ObjectUrls.Blob, uploadedAt: int)

  /** Why an operation rejected. `KeyExists` is the constraint error of `add` on a key already present. */
  datatype StoreError = OpenFailed(message: string) | KeyExists | RequestFailed(message: string)

  /** The `message` of the rejection, as the upload form shows it. */
  function ErrorMessage(e: StoreError): string {
    match e
    case OpenFailed(m) => m
    case KeyExists => "Key already exists"
    case RequestFailed(m) => m
  }

  /**
   * How the browser answers one operation: the error of `indexedDB.open` if it
   * fails, and the error of the operation's request if that fails.
   */
  datatype Backend = Backend(openError: Option<string>, requestError: Option<string>)

  /** The request of an operation succeeds: the database is or gets open, and the request itself does not fail. */
  predicate Succeeds(isOpen: bool, backend: Backend) {
    (isOpen || backend.openError.None?) && backend.requestError.None?
  }

  /** The clock and random values one `saveVideo` call reads. */
  datatype SaveEnv = SaveEnv(now: nat, random36: string, uploadedAt: int)

  // ---------------------------------------------------------------------------
  // Identifiers

  /**
   * The id `video_${Date.now()}_${Math.random().toString(36).substr(2, 9)}`;
   * `random36` is the text of `Math.random().toString(36)`.
   */
  function MakeId(now: nat, random36: string): string {
    "video_" + Text.NatToDecimal(now) + "_" + Text.Substr(random36, 2, 9)
  }

  const IdPrefix: string := "video_"

  /** The pattern `^video_\d+_[a-z0-9]+$` the generated ids are expected to match. */
  predicate MatchesIdPattern(s: string) {
    |s| >= |IdPrefix| && s[..|IdPrefix|] == IdPrefix &&
    var rest := s[|IdPrefix|..];
    match Text.FirstIndex(rest, '_')
    case None => false
    case Some(k) =>
      k > 0 && Text.AllDigits(rest[..k]) && k + 1 < |rest| && Text.AllBase36(rest[k + 1..])
  }

  /** The timestamp part of an id of the pattern above. */
  function IdTimestamp(s: string): Option<nat> {
    if |s| >= |IdPrefix| && s[..|IdPrefix|] == IdPrefix then
      var rest := s[|IdPrefix|..];
      match Text.FirstIndex(rest, '_')
      case None => None
      case Some(k) => Text.ParseNat(rest[..k])
    else None
  }

  lemma MakeIdParts(now: nat, random36: string)
    ensures var id := MakeId(now, random36);
      var digits := Text.NatToDecimal(now);
      id[..|IdPrefix|] == IdPrefix &&
      id[|IdPrefix|..] == digits + "_" + Text.Substr(random36, 2, 9) &&
      Text.FirstIndex(id[|IdPrefix|..], '_') == Some(|digits|)
  {
    var digits := Text.NatToDecimal(now);
    var rest := digits + "_" + Text.Substr(random36, 2, 9);
    assert MakeId(now, random36) == IdPrefix + rest;
    var f := Text.FirstIndex(rest, '_');
    assert rest[|digits|] == '_';
    assert forall i :: 0 <= i < |digits| ==> rest[i] == digits[i] && Text.IsDigit(rest[i]);
  }

  /** Ids made from a non-empty base-36 fraction match the expected pattern. */
  lemma IdShape(now: nat, random36: string)
    requires |random36| > 2 && Text.AllBase36(random36[2..])
    ensures MatchesIdPattern(MakeId(now, random36))
  {
    MakeIdParts(now, random36);
    var digits := Text.NatToDecimal(now);
    var suffix := Text.Substr(random36, 2, 9);
    var rest := digits + "_" + suffix;
    assert rest[..|digits|] == digits;
    assert rest[|digits| + 1..] == suffix;
  }

  /** `Math.random()` can return 0, whose base-36 text is "0": the id then ends in "_" and misses the pattern. */
  lemma ZeroRandomMissesPattern(now: nat)
    ensures !MatchesIdPattern(MakeId(now, "0"))
  {
    MakeIdParts(now, "0");
    var digits := Text.NatToDecimal(now);
    assert |MakeId(now, "0")[|IdPrefix|..]| == |digits| + 1;
  }

  /** The timestamp can be read back from the id. */
  lemma IdTimestampRoundTrip(now: nat, random36: string)
    ensures IdTimestamp(MakeId(now, random36)) == Some(now)
  {
    MakeIdParts(now, random36);
    var digits := Text.NatToDecimal(now);
    var rest := digits + "_" + Text.Substr(random36, 2, 9);
    assert rest[..|digits|] == digits;
    Text.ParseRenderRoundTrip(now);
  }

  /** Two saves at different milliseconds get different ids, whatever the random parts. */
  lemma IdsFromDistinctClocksDiffer(now1: nat, r1: string, now2: nat, r2: string)
    requires now1 != now2
    ensures MakeId(now1, r1) != MakeId(now2, r2)
  {
    IdTimestampRoundTrip(now1, r1);
    IdTimestampRoundTrip(now2, r2);
  }

  // ---------------------------------------------------------------------------
  // The object store as a value

  /** Every record sits under its own id, as the key path 'id' ensures. */
  ghost predicate KeyedById(m: map<string, StoredVideo>) {
    forall id :: id in m ==> m[id].id == id
  }

  /**
   * Why `saveVideo` rejects, from the state before the call, in the order the
   * source meets the failures: opening, the `add` of a key in use, the request.
   * None when it resolves.
   */
  function SaveError(isOpen: bool, records: map<string, StoredVideo>, env: SaveEnv, backend: Backend): (e: Option<StoreError>)
    ensures e.None? <==> Succeeds(isOpen, backend) && MakeId(env.now, env.random36) !in records
  {
    if !isOpen && backend.openError.Some? then Some(OpenFailed(backend.openError.value))
    else if MakeId(env.now, env.random36) in records then Some(KeyExists)
    else if backend.requestError.Some? then Some(RequestFailed(backend.requestError.value))
    else None
  }

  function NewRecord(id: string, file: VideoFile, uploadedAt: int): StoredVideo {
    StoredVideo(id, file.name, file.mime, file.size, file.data, uploadedAt)
  }

  /** `store.add(v)`: None when the key is already present (nothing is overwritten). */
  function Add(m: map<string, StoredVideo>, v: StoredVideo): (r: Option<map<string, StoredVideo>>)
    ensures r.Some? <==> v.id !in m
    ensures r.Some? ==> r.value.Keys == m.Keys + {v.id}
  {
    if v.id in m then None else Some(m[v.id := v])
  }

  /** `store.get(id)`, with `request.result || null` as None. */
  function Lookup(m: map<string, StoredVideo>, id: string): Option<StoredVideo> {
    if id in m then Some(m[id]) else None
  }

  /** `store.delete(id)`. */
  function Remove(m: map<string, StoredVideo>, id: string): (r: map<string, StoredVideo>)
    ensures r.Keys == m.Keys - {id}
  {
    m - {id}
  }

  /** The ids of a list of records. */
  function Ids(s: seq<StoredVideo>): set<string> {
    set i | 0 <= i < |s| :: s[i].id
  }

  /** `s` holds each record of `m` exactly once, in some order: what `store.getAll()` resolves with. */
  ghost predicate IsListing(s: seq<StoredVideo>, m: map<string, StoredVideo>) {
    && |s| == |m|
    && Ids(s) == m.Keys
    && (forall i :: 0 <= i < |s| ==> s[i].id in m && m[s[i].id] == s[i])
    && (forall i, j :: 0 <= i < j < |s| ==> s[i].id != s[j].id)
  }

  /** After a save of `file` under a fresh id, `getVideo(id)` yields that id and the file's name, type and size. */
  lemma SaveThenGet(m: map<string, StoredVideo>, id: string, file: VideoFile, uploadedAt: int)
    requires id !in m
    ensures var v := NewRecord(id, file, uploadedAt);
      Add(m, v).Some? &&
      Lookup(Add(m, v).value, id) == Some(v) &&
      v.id == id && v.name == file.name && v.mime == file.mime && v.size == file.size && v.data == file.data
  {
  }

  /** A duplicate key makes `add` fail and leaves the stored record as it was. */
  lemma AddKeepsExisting(m: map<string, StoredVideo>, v: StoredVideo)
    requires v.id in m
    ensures Add(m, v) == None
    ensures Lookup(m, v.id) == Some(m[v.id])
  {
  }

  /** Deleting removes that key only; an absent key leaves the store as it was. */
  lemma RemoveOnlyThatKey(m: map<string, StoredVideo>, id: string)
    ensures Lookup(Remove(m, id), id) == None
    ensures forall k :: k != id ==> Lookup(Remove(m, id), k) == Lookup(m, k)
    ensures id !in m ==> Remove(m, id) == m
  {
  }

  /** Deleting twice is the same as deleting once. */
  lemma RemoveIdempotent(m: map<string, StoredVideo>, id: string)
    ensures Remove(Remove(m, id), id) == Remove(m, id)
  {
  }

  /** A list of the records of `m` holds only records that `getVideo` finds under their ids. */
  lemma ListedRecordsAreFetchable(s: seq<StoredVideo>, m: map<string, StoredVideo>, i: nat)
    requires IsListing(s, m) && i < |s|
    ensures Lookup(m, s[i].id) == Some(s[i])
  {
  }

  /** The empty store lists as []. */
  lemma EmptyStoreListsNothing(s: seq<StoredVideo>)
    requires IsListing(s, map[])
    ensures s == []
  {
  }

  /** Saving a batch of records one after another, stopping at the first rejection. */
  function AddAll(m: map<string, StoredVideo>, vs: seq<StoredVideo>): Option<map<string, StoredVideo>>
    decreases |vs|
  {
    if vs == [] then Some(m)
    else match Add(m, vs[0])
      case None => None
      case Some(m') => AddAll(m', vs[1..])
  }

  /**
   * Saving n records with pairwise distinct fresh ids succeeds, and the store
   * then holds exactly the old keys and the n new ids.
   */
  lemma {:induction false} AddAllCompleteness(m: map<string, StoredVideo>, vs: seq<StoredVideo>)
    requires forall i :: 0 <= i < |vs| ==> vs[i].id !in m
    requires forall i, j :: 0 <= i < j < |vs| ==> vs[i].id != vs[j].id
    ensures AddAll(m, vs).Some?
    ensures AddAll(m, vs).value.Keys == m.Keys + Ids(vs)
    ensures forall i :: 0 <= i < |vs| ==> AddAll(m, vs).value[vs[i].id] == vs[i]
    ensures forall k :: k in m ==> AddAll(m, vs).value[k] == m[k]
    decreases |vs|
  {
    if vs != [] {
      var m' := m[vs[0].id := vs[0]];
      assert Add(m, vs[0]) == Some(m');
      var tail := vs[1..];
      forall i | 0 <= i < |tail| ensures tail[i].id !in m' {
        assert tail[i] == vs[i + 1];
      }
      forall i, j | 0 <= i < j < |tail| ensures tail[i].id != tail[j].id {
        assert tail[i] == vs[i + 1] && tail[j] == vs[j + 1];
      }
      AddAllCompleteness(m', tail);
      assert vs == [vs[0]] + tail;
      IdsConcat([vs[0]], tail);
      var r := AddAll(m', tail).value;
      forall i | 0 <= i < |vs| ensures r[vs[i].id] == vs[i] {
        if i > 0 { assert tail[i - 1] == vs[i]; }
      }
    }
  }

  lemma IdsConcat(s: seq<StoredVideo>, t: seq<StoredVideo>)
    ensures Ids(s + t) == Ids(s) + Ids(t)
  {
    var u := s + t;
    forall x | x in Ids(u) ensures x in Ids(s) + Ids(t) {
      var i :| 0 <= i < |u| && u[i].id == x;
      if i < |s| { assert u[i] == s[i]; } else { assert u[i] == t[i - |s|]; }
    }
    forall x | x in Ids(s) + Ids(t) ensures x in Ids(u) {
      if x in Ids(s) {
        var i :| 0 <= i < |s| && s[i].id == x;
        assert u[i] == s[i];
      } else {
        var i :| 0 <= i < |t| && t[i].id == x;
        assert u[|s| + i] == t[i];
      }
    }
  }

  /** `s` lists the records of `m` whose keys are not in `remaining`, each once. */
  ghost predicate PartialListing(s: seq<StoredVideo>, m: map<string, StoredVideo>, remaining: set<string>) {
    && remaining <= m.Keys
    && Ids(s) == m.Keys - remaining
    && |s| + |remaining| == |m.Keys|
    && (forall i :: 0 <= i < |s| ==> s[i].id in m && m[s[i].id] == s[i])
    && (forall i, j :: 0 <= i < j < |s| ==> s[i].id != s[j].id)
  }

  lemma PartialListingStep(s: seq<StoredVideo>, m: map<string, StoredVideo>, remaining: set<string>, k: string)
    requires KeyedById(m) && PartialListing(s, m, remaining) && k in remaining
    ensures PartialListing(s + [m[k]], m, remaining - {k})
  {
    var v := m[k];
    assert v.id == k;
    IdsConcat(s, [v]);
    assert [v][0] == v;
    assert Ids([v]) == {k};
    forall i | 0 <= i < |s| ensures s[i].id != k {
      assert s[i].id in Ids(s);
    }
    var t := s + [v];
    forall i | 0 <= i < |t| ensures t[i].id in m && m[t[i].id] == t[i] {
      if i < |s| { assert t[i] == s[i]; }
    }
    forall i, j | 0 <= i < j < |t| ensures t[i].id != t[j].id {
      if j < |s| { assert t[i] == s[i] && t[j] == s[j]; } else { assert t[i] == s[i]; }
    }
  }

  /** Lists the records of `m` into a sequence, one record per key: `store.getAll()`. */
  method ListRecords(m: map<string, StoredVideo>) returns (s: seq<StoredVideo>)
    requires KeyedById(m)
    ensures IsListing(s, m)
  {
    s := [];
    var remaining := m.Keys;
    while remaining != {}
      invariant PartialListing(s, m, remaining)
      decreases |remaining|
    {
      var k :| k in remaining;
      PartialListingStep(s, m, remaining, k);
      s := s + [m[k]];
      remaining := remaining - {k};
    }
    assert |m| == |m.Keys|;
  }

  // ---------------------------------------------------------------------------
  // The store object

  class VideoStore {
    /** Whether the database handle `db` is non-null. */
    var isOpen: bool
    /** The durable contents of the object store; they outlive `db`. */
    var records: map<string, StoredVideo>

    ghost predicate Valid()
      reads this
    {
      KeyedById(records)
    }

    /** The singleton as a page load creates it: no handle yet, over what is already persisted. */
    constructor (persisted: map<string, StoredVideo>)
      requires KeyedById(persisted)
      ensures Valid() && !isOpen && records == persisted
    {
      isOpen := false;
      records := persisted;
    }

    /** `init()`: opens the database; on failure rejects and leaves `db` as it was. */
    method Init(backend: Backend) returns (r: Result<(), StoreError>)
      modifies this`isOpen
      ensures r == if backend.openError.Some? then Failure(OpenFailed(backend.openError.value)) else Success(())
      ensures isOpen == (old(isOpen) || backend.openError.None?)
    {
      if backend.openError.Some? {
        r := Failure(OpenFailed(backend.openError.value));
      } else {
        isOpen := true;
        r := Success(());
      }
    }

    /** `if (!this.db) await this.init()`, the first step of every data operation. */
    method EnsureOpen(backend: Backend) returns (r: Result<(), StoreError>)
      modifies this`isOpen
      ensures old(isOpen) ==> r == Success(()) && isOpen
      ensures !old(isOpen) ==> r == if backend.openError.Some? then Failure(OpenFailed(backend.openError.value)) else Success(())
      ensures isOpen == (old(isOpen) || backend.openError.None?)
      ensures r.Success? <==> isOpen
    {
      if !isOpen {
        r := Init(backend);
      } else {
        r := Success(());
      }
    }

    /** `saveVideo(file)`: writes a new record with `add` under a generated id and resolves with the id. */
    method SaveVideo(file: VideoFile, env: SaveEnv, backend: Backend) returns (r: Result<string, StoreError>)
      requires Valid()
      modifies this
      ensures Valid()
      ensures r.Success? <==> SaveError(old(isOpen), old(records), env, backend).None?
      ensures r.Failure? ==> r.error == SaveError(old(isOpen), old(records), env, backend).value
      ensures isOpen == (old(isOpen) || backend.openError.None?)
      ensures !old(isOpen) && backend.openError.Some? ==>
        r == Failure(OpenFailed(backend.openError.value)) && records == old(records)
      ensures old(isOpen) || backend.openError.None? ==>
        var id := MakeId(env.now, env.random36);
        var v := NewRecord(id, file, env.uploadedAt);
        if id in old(records) then r == Failure(KeyExists) && records == old(records)
        else if backend.requestError.Some? then
          r == Failure(RequestFailed(backend.requestError.value)) && records == old(records)
        else r == Success(id) && Add(old(records), v) == Some(records)
    {
      var o := EnsureOpen(backend);
      if o.Failure? {
        r := Failure(o.error);
        return;
      }
      var id := MakeId(env.now, env.random36);
      var v := NewRecord(id, file, env.uploadedAt);
      if id in records {
        r := Failure(KeyExists);
      } else if backend.requestError.Some? {
        r := Failure(RequestFailed(backend.requestError.value));
      } else {
        records := records[id := v];
        r := Success(id);
      }
    }

    /** `getVideo(id)`: the record, or None when the key is absent. */
    method GetVideo(id: string, backend: Backend) returns (r: Result<Option<StoredVideo>, StoreError>)
      modifies this`isOpen
      ensures isOpen == (old(isOpen) || backend.openError.None?)
      ensures !old(isOpen) && backend.openError.Some? ==> r == Failure(OpenFailed(backend.openError.value))
      ensures old(isOpen) || backend.openError.None? ==>
        r == if backend.requestError.Some? then Failure(RequestFailed(backend.requestError.value))
             else Success(Lookup(records, id))
    {
      var o := EnsureOpen(backend);
      if o.Failure? {
        r := Failure(o.error);
      } else if backend.requestError.Some? {
        r := Failure(RequestFailed(backend.requestError.value));
      } else {
        r := Success(Lookup(records, id));
      }
    }

    /** `getAllVideos()`: every stored record once, in no promised order; [] for an empty store. */
    method GetAllVideos(backend: Backend) returns (r: Result<seq<StoredVideo>, StoreError>)
      requires Valid()
      modifies this`isOpen
      ensures isOpen == (old(isOpen) || backend.openError.None?)
      ensures !old(isOpen) && backend.openError.Some? ==> r == Failure(OpenFailed(backend.openError.value))
      ensures old(isOpen) || backend.openError.None? ==>
        if backend.requestError.Some? then r == Failure(RequestFailed(backend.requestError.value))
        else r.Success? && IsListing(r.value, records)
    {
      var o := EnsureOpen(backend);
      if o.Failure? {
        r := Failure(o.error);
      } else if backend.requestError.Some? {
        r := Failure(RequestFailed(backend.requestError.value));
      } else {
        var all := ListRecords(records);
        r := Success(all);
      }
    }

    /** `deleteVideo(id)`: removes the key if present; an absent key is a silent success. */
    method DeleteVideo(id: string, backend: Backend) returns (r: Result<(), StoreError>)
      requires Valid()
      modifies this
      ensures Valid()
      ensures isOpen == (old(isOpen) || backend.openError.None?)
      ensures !old(isOpen) && backend.openError.Some? ==>
        r == Failure(OpenFailed(backend.openError.value)) && records == old(records)
      ensures old(isOpen) || backend.openError.None? ==>
        if backend.requestError.Some? then
          r == Failure(RequestFailed(backend.requestError.value)) && records == old(records)
        else r == Success(()) && records == Remove(old(records), id)
    {
      r := EnsureOpen(backend);
      if r.Failure? {
        return;
      }
      if backend.requestError.Some? {
        r := Failure(RequestFailed(backend.requestError.value));
      } else {
        records := Remove(records, id);
      }
    }

    /** `clearAll()`: empties the store. */
    method ClearAll(backend: Backend) returns (r: Result<(), StoreError>)
      requires Valid()
      modifies this
      ensures Valid()
      ensures isOpen == (old(isOpen) || backend.openError.None?)
      ensures !old(isOpen) && backend.openError.Some? ==>
        r == Failure(OpenFailed(backend.openError.value)) && records == old(records)
      ensures old(isOpen) || backend.openError.None? ==>
        if backend.requestError.Some? then
          r == Failure(RequestFailed(backend.requestError.value)) && records == old(records)
        else r == Success(()) && records == map[]
    {
      r := EnsureOpen(backend);
      if r.Failure? {
        return;
      }
      if backend.requestError.Some? {
        r := Failure(RequestFailed(backend.requestError.value));
      } else {
        records := map[];
      }
    }

    /** `getVideoUrl(video)`: acquires a fresh playback handle for the record's blob. */
    method GetVideoUrl(video: StoredVideo, urls: ObjectUrls.Registry) returns (url: string)
      requires urls.Valid()
      modifies urls
      ensures urls.Valid()
      ensures !old(urls.IsLive(url)) && urls.IsLive(url)
      ensures ObjectUrls.HandleNumber(url) == Some(old(urls.next))
      ensures urls.live == old(urls.live)[old(urls.next) := video.data]
    {
      url := urls.Create(video.data);
    }

    /** `revokeVideoUrl(url)`: releases the handle; an unknown or released handle is ignored. */
    method RevokeVideoUrl(url: string, urls: ObjectUrls.Registry)
      requires urls.Valid()
      modifies urls
      ensures urls.Valid() && urls.next == old(urls.next)
      ensures urls.live == match ObjectUrls.HandleNumber(url)
        case Some(n) => old(urls.live) - {n}
        case None => old(urls.live)
      ensures !urls.IsLive(url)
    {
      urls.Revoke(url);
    }
  }
}
