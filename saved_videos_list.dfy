/**
 * The saved-videos list (components/saved-videos-list.tsx): loads every record
 * from the store, shows it newest first, deletes a record after confirmation
 * and reloads, formats file sizes, and highlights the selected row.
 */
module SavedVideosList {
  import opened Wrappers
  import VideoStorage

  type StoredVideo = VideoStorage.StoredVideo

  // ---------------------------------------------------------------------------
  // Newest-first ordering

  /** Each record is at least as recent as every later one. */
  predicate NewestFirst(s: seq<StoredVideo>) {
    forall i, j :: 0 <= i < j < |s| ==> s[i].uploadedAt >= s[j].uploadedAt
  }

  /** Inserts v in front of the first record that is not newer than it. */
  function Insert(v: StoredVideo, s: seq<StoredVideo>): seq<StoredVideo> {
    if s == [] || s[0].uploadedAt <= v.uploadedAt then [v] + s
    else [s[0]] + Insert(v, s[1..])
  }

  lemma {:induction false} InsertPermutes(v: StoredVideo, s: seq<StoredVideo>)
    ensures multiset(Insert(v, s)) == multiset(s) + multiset{v}
  {
    if s != [] && s[0].uploadedAt > v.uploadedAt {
      InsertPermutes(v, s[1..]);
      assert s == [s[0]] + s[1..];
    }
  }

  /** Every record of the insertion is v or one of s. */
  lemma InsertFrom(v: StoredVideo, s: seq<StoredVideo>, k: nat)
    requires k < |Insert(v, s)|
    ensures Insert(v, s)[k] == v || Insert(v, s)[k] in s
  {
    var r := Insert(v, s);
    InsertPermutes(v, s);
    assert r[k] in multiset(r);
  }

  lemma {:induction false} InsertKeepsOrder(v: StoredVideo, s: seq<StoredVideo>)
    requires NewestFirst(s)
    ensures NewestFirst(Insert(v, s))
  {
    if s != [] && s[0].uploadedAt > v.uploadedAt {
      var rest := Insert(v, s[1..]);
      InsertKeepsOrder(v, s[1..]);
      forall k | 0 <= k < |rest| ensures rest[k].uploadedAt <= s[0].uploadedAt {
        InsertFrom(v, s[1..], k);
      }
      var r := [s[0]] + rest;
      assert r == Insert(v, s);
      forall i, j | 0 <= i < j < |r| ensures r[i].uploadedAt >= r[j].uploadedAt {
        assert r[j] == rest[j - 1];
        if i > 0 {
          assert r[i] == rest[i - 1];
        }
      }
    }
  }

  /**
   * `sort((a, b) => b.uploadedAt - a.uploadedAt)`: the records ordered by
   * upload time, newest first; records with equal times keep their order.
   */
  function SortNewestFirst(s: seq<StoredVideo>): (r: seq<StoredVideo>)
    ensures NewestFirst(r)
    ensures multiset(r) == multiset(s)
    ensures |r| == |s|
  {
    if s == [] then []
    else
      var rest := SortNewestFirst(s[1..]);
      InsertPermutes(s[0], rest);
      InsertKeepsOrder(s[0], rest);
      assert s == [s[0]] + s[1..];
      Insert(s[0], rest)
  }

  /** The records of s uploaded at time t, in their order in s. */
  function WithTime(s: seq<StoredVideo>, t: int): seq<StoredVideo> {
    if s == [] then [] else (if s[0].uploadedAt == t then [s[0]] else []) + WithTime(s[1..], t)
  }

  /** Insert passes over newer records only, so v lands in front of every record of its own time. */
  lemma {:induction false} InsertWithTime(v: StoredVideo, s: seq<StoredVideo>, t: int)
    ensures WithTime(Insert(v, s), t) == if v.uploadedAt == t then [v] + WithTime(s, t) else WithTime(s, t)
  {
    if s == [] || s[0].uploadedAt <= v.uploadedAt {
      assert ([v] + s)[1..] == s;
    } else {
      var r := [s[0]] + Insert(v, s[1..]);
      assert r[1..] == Insert(v, s[1..]);
      InsertWithTime(v, s[1..], t);
    }
  }

  /**
   * The sort is stable: the records of any one upload time keep their
   * relative order, as `Array.prototype.sort` promises.
   */
  lemma {:induction false} SortIsStable(s: seq<StoredVideo>, t: int)
    ensures WithTime(SortNewestFirst(s), t) == WithTime(s, t)
  {
    if s != [] {
      SortIsStable(s[1..], t);
      InsertWithTime(s[0], SortNewestFirst(s[1..]), t);
    }
  }

  lemma CountAtLeastTwo(t: seq<StoredVideo>, i: nat, j: nat)
    requires i < j < |t| && t[i] == t[j]
    ensures multiset(t)[t[i]] >= 2
  {
    assert t == t[..j] + [t[j]] + t[j + 1..];
    assert t[..j][i] == t[i];
    assert t[i] in multiset(t[..j]);
  }

  lemma {:induction false} DistinctCountAtMostOne(s: seq<StoredVideo>, x: StoredVideo)
    requires forall i, j :: 0 <= i < j < |s| ==> s[i].id != s[j].id
    ensures multiset(s)[x] <= 1
  {
    if s != [] {
      var tail := s[1..];
      assert s == [s[0]] + tail;
      forall i, j | 0 <= i < j < |tail| ensures tail[i].id != tail[j].id {
        assert tail[i] == s[i + 1] && tail[j] == s[j + 1];
      }
      DistinctCountAtMostOne(tail, x);
      if x == s[0] {
        forall k | 0 <= k < |tail| ensures tail[k] != x {
          assert tail[k] == s[k + 1];
        }
        assert x !in multiset(tail);
      }
    }
  }

  /** Every record of a reordering is one of the original records. */
  lemma PermutedElement(s: seq<StoredVideo>, t: seq<StoredVideo>, i: nat) returns (j: nat)
    requires multiset(t) == multiset(s) && i < |t|
    ensures j < |s| && s[j] == t[i]
  {
    assert t[i] in multiset(s);
    j :| 0 <= j < |s| && s[j] == t[i];
  }

  /** A reordering of records with distinct ids has distinct ids. */
  lemma PermutedDistinct(s: seq<StoredVideo>, t: seq<StoredVideo>, m: map<string, StoredVideo>)
    requires VideoStorage.IsListing(s, m) && multiset(t) == multiset(s)
    requires forall i :: 0 <= i < |t| ==> t[i].id in m && m[t[i].id] == t[i]
    ensures forall i, j :: 0 <= i < j < |t| ==> t[i].id != t[j].id
  {
    forall i, j | 0 <= i < j < |t| ensures t[i].id != t[j].id {
      if t[i].id == t[j].id {
        CountAtLeastTwo(t, i, j);
        DistinctCountAtMostOne(s, t[i]);
      }
    }
  }

  /** A reordering has the same set of ids. */
  lemma PermutedIds(s: seq<StoredVideo>, t: seq<StoredVideo>)
    requires multiset(t) == multiset(s)
    ensures VideoStorage.Ids(t) == VideoStorage.Ids(s)
  {
    forall x | x in VideoStorage.Ids(t) ensures x in VideoStorage.Ids(s) {
      var i :| 0 <= i < |t| && t[i].id == x;
      var j := PermutedElement(s, t, i);
    }
    forall x | x in VideoStorage.Ids(s) ensures x in VideoStorage.Ids(t) {
      var i :| 0 <= i < |s| && s[i].id == x;
      var j := PermutedElement(t, s, i);
    }
  }

  /** Reordering a listing of the store gives a listing of the store. */
  lemma PermutedListing(s: seq<StoredVideo>, t: seq<StoredVideo>, m: map<string, StoredVideo>)
    requires VideoStorage.IsListing(s, m) && multiset(t) == multiset(s)
    ensures VideoStorage.IsListing(t, m)
  {
    assert |t| == |multiset(t)| == |multiset(s)| == |s|;
    forall i | 0 <= i < |t| ensures t[i].id in m && m[t[i].id] == t[i] {
      var j := PermutedElement(s, t, i);
    }
    PermutedDistinct(s, t, m);
    PermutedIds(s, t);
  }

  /** Sorting a listing of the store gives a newest-first listing of the store. */
  lemma SortedListing(s: seq<StoredVideo>, m: map<string, StoredVideo>)
    requires VideoStorage.IsListing(s, m)
    ensures VideoStorage.IsListing(SortNewestFirst(s), m) && NewestFirst(SortNewestFirst(s))
  {
    PermutedListing(s, SortNewestFirst(s), m);
  }

  // ---------------------------------------------------------------------------
  // Display helpers

  /** The size badge: "0 Bytes", or a value and one of the four units (`undefined` past the table). */
  datatype SizeDisplay = ZeroBytes | Scaled(value: real, unit: string)

  const Units: seq<string> := ["Bytes", "KB", "MB", "GB"]

  function Pow1024(i: nat): (p: nat)
    ensures p >= 1
  {
    if i == 0 then 1 else 1024 * Pow1024(i - 1)
  }

  /** The unit index `floor(log(bytes) / log(1024))`, as the largest i with 1024^i <= bytes. */
  function UnitIndex(bytes: nat): nat
    requires bytes >= 1
  {
    if bytes < 1024 then 0 else 1 + UnitIndex(bytes / 1024)
  }

  lemma {:induction false} UnitIndexBounds(bytes: nat)
    requires bytes >= 1
    ensures Pow1024(UnitIndex(bytes)) <= bytes < Pow1024(UnitIndex(bytes) + 1)
  {
    if bytes >= 1024 {
      var q := bytes / 1024;
      UnitIndexBounds(q);
      var i := UnitIndex(q);
      assert bytes == 1024 * q + bytes % 1024;
      assert Pow1024(i + 1) == 1024 * Pow1024(i);
      assert Pow1024(i + 2) == 1024 * Pow1024(i + 1);
      assert Pow1024(i) <= q < Pow1024(i + 1);
      assert 1024 * Pow1024(i) <= 1024 * q;
      assert q + 1 <= Pow1024(i + 1);
      assert 1024 * (q + 1) <= 1024 * Pow1024(i + 1);
    }
  }

  lemma {:induction false} PowMonotone(i: nat, j: nat)
    requires i <= j
    ensures Pow1024(i) <= Pow1024(j)
    decreases j
  {
    if i < j {
      PowMonotone(i, j - 1);
    }
  }

  /** The index is the only one whose power interval holds the size. */
  lemma UnitIndexUnique(bytes: nat, i: nat)
    requires bytes >= 1 && Pow1024(i) <= bytes < Pow1024(i + 1)
    ensures UnitIndex(bytes) == i
  {
    UnitIndexBounds(bytes);
    var k := UnitIndex(bytes);
    if k < i {
      PowMonotone(k + 1, i);
    } else if k > i {
      PowMonotone(i + 1, k);
    }
  }

  /** `formatFileSize(bytes)`, before the value is rounded to two decimals. */
  function FormatFileSize(bytes: nat): SizeDisplay {
    if bytes == 0 then ZeroBytes
    else
      var i := UnitIndex(bytes);
      Scaled(bytes as real / Pow1024(i) as real, if i < |Units| then Units[i] else "undefined")
  }

  /**
   * Below 1024^4 bytes the unit is Bytes/KB/MB/GB at the largest i with
   * 1024^i <= bytes, the value lies in [1, 1024); from 1024^4 on the table has
   * no entry and the unit reads "undefined".
   */
  lemma FileSizeUnit(bytes: nat, i: nat)
    requires 1 <= bytes && Pow1024(i) <= bytes < Pow1024(i + 1)
    ensures FormatFileSize(bytes).Scaled?
    ensures FormatFileSize(bytes).unit == if i < 4 then Units[i] else "undefined"
    ensures 1.0 <= FormatFileSize(bytes).value < 1024.0
  {
    UnitIndexUnique(bytes, i);
    var p := Pow1024(i) as real;
    assert Pow1024(i + 1) == 1024 * Pow1024(i);
    assert p <= bytes as real < 1024.0 * p;
    RatioBounds(bytes as real, p);
  }

  lemma RatioBounds(b: real, p: real)
    requires p >= 1.0 && p <= b < 1024.0 * p
    ensures 1.0 <= b / p < 1024.0
  {
    assert b / p * p == b;
  }

  lemma FileSizeZero()
    ensures FormatFileSize(0) == ZeroBytes
  {
  }

  /** The three views of the list: loading, empty, or the list with its count. */
  datatype ListView = LoadingView | EmptyView | ListingView(count: nat)

  function ViewOf(loading: bool, videos: seq<StoredVideo>): (v: ListView)
    ensures v.ListingView? ==> v.count == |videos| && v.count > 0
  {
    if loading then LoadingView else if |videos| == 0 then EmptyView else ListingView(|videos|)
  }

  /** Exactly one view applies: loading while loading, else empty for no records, else the list of all records. */
  lemma ViewCases(loading: bool, videos: seq<StoredVideo>)
    ensures ViewOf(loading, videos) == LoadingView <==> loading
    ensures ViewOf(loading, videos) == EmptyView <==> !loading && videos == []
    ensures ViewOf(loading, videos).ListingView? <==> !loading && videos != []
  {
  }

  /** A row is highlighted when its id is the selected id. */
  predicate Highlighted(video: StoredVideo, selectedVideoId: Option<string>) {
    selectedVideoId == Some(video.id)
  }

  /** In a listing of the store at most one row is highlighted, and it is the selected record. */
  lemma AtMostOneHighlighted(s: seq<StoredVideo>, m: map<string, StoredVideo>, sel: Option<string>, i: nat, j: nat)
    requires VideoStorage.IsListing(s, m) && i < |s| && j < |s|
    requires Highlighted(s[i], sel) && Highlighted(s[j], sel)
    ensures i == j && m[sel.value] == s[i]
  {
  }

  // ---------------------------------------------------------------------------
  // The component state

  class VideoList {
    const selectedVideoId: Option<string>
    var videos: seq<StoredVideo>
    var loading: bool

    constructor (selectedVideoId: Option<string>)
      ensures this.selectedVideoId == selectedVideoId && videos == [] && loading
    {
      this.selectedVideoId := selectedVideoId;
      videos := [];
      loading := true;
    }

    /** `loadVideos`: on success the store's records newest first; on failure the list stays; loading ends either way. */
    method LoadVideos(store: VideoStorage.VideoStore, backend: VideoStorage.Backend)
      requires store.Valid()
      modifies this`videos, this`loading, store`isOpen
      ensures !loading
      ensures store.isOpen == (old(store.isOpen) || backend.openError.None?)
      ensures VideoStorage.Succeeds(old(store.isOpen), backend) ==>
        VideoStorage.IsListing(videos, store.records) && NewestFirst(videos)
      ensures !VideoStorage.Succeeds(old(store.isOpen), backend) ==> videos == old(videos)
    {
      loading := true;
      var r := store.GetAllVideos(backend);
      if r.Success? {
        SortedListing(r.value, store.records);
        videos := SortNewestFirst(r.value);
      }
      loading := false;
    }

    /**
     * `handleDeleteVideo`: only after confirmation; a successful delete is
     * followed by a reload, after which the id is gone from the list; a failed
     * delete leaves the list and the store as they were.
     */
    method HandleDeleteVideo(videoId: string, confirmed: bool, store: VideoStorage.VideoStore,
                             deleteBackend: VideoStorage.Backend, reloadBackend: VideoStorage.Backend)
      requires store.Valid()
      modifies this`videos, this`loading, store
      ensures store.Valid()
      ensures store.isOpen == if confirmed then old(store.isOpen) || deleteBackend.openError.None? else old(store.isOpen)
      ensures !confirmed ==>
        videos == old(videos) && loading == old(loading) && store.records == old(store.records)
      ensures confirmed && !VideoStorage.Succeeds(old(store.isOpen), deleteBackend) ==>
        videos == old(videos) && loading == old(loading) && store.records == old(store.records)
      ensures confirmed && VideoStorage.Succeeds(old(store.isOpen), deleteBackend) ==>
        && store.records == VideoStorage.Remove(old(store.records), videoId)
        && !loading
        && (reloadBackend.requestError.None? ==>
              VideoStorage.IsListing(videos, store.records) && NewestFirst(videos) &&
              videoId !in VideoStorage.Ids(videos))
        && (reloadBackend.requestError.Some? ==> videos == old(videos))
    {
      if !confirmed {
        return;
      }
      var r := store.DeleteVideo(videoId, deleteBackend);
      if r.Failure? {
        return;
      }
      LoadVideos(store, reloadBackend);
    }
  }
}
