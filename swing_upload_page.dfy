/**
 * The upload page (app/swing-upload/page.tsx): the upload form, the list of
 * saved videos newest first, selection of one of them, deletion, and the
 * button that opens the analysis of the selected video.
 */
module SwingUploadPage {
  import opened Wrappers
  import VideoStorage
  import SavedVideosList
  import Navigation
  import Text

  type StoredVideo = VideoStorage.StoredVideo

  const AnalysisPath := "/analysis"
  /** `/analysis?videoId=`, the route of the analysis page before the video id. */
  const AnalysisPrefix := AnalysisPath + "?" + "videoId" + "="

  /** `formatFileSize` of this page: the size in megabytes, before rounding to two decimals. */
  function SizeInMegabytes(bytes: nat): (mb: real)
    ensures mb * 1048576.0 == bytes as real
    ensures mb >= 0.0
  {
    bytes as real / 1024.0 / 1024.0
  }

  class UploadPage {
    var savedVideoId: Option<string>
    var savedVideos: seq<StoredVideo>
    var selectedVideo: Option<StoredVideo>

    /** The list on the page is always newest first. */
    ghost predicate Valid()
      reads this
    {
      SavedVideosList.NewestFirst(savedVideos)
    }

    constructor ()
      ensures Valid()
      ensures savedVideoId == None && savedVideos == [] && selectedVideo == None
    {
      savedVideoId := None;
      savedVideos := [];
      selectedVideo := None;
    }

    /** `loadSavedVideos`: on success the store's records newest first; on failure the list stays. */
    method LoadSavedVideos(store: VideoStorage.VideoStore, backend: VideoStorage.Backend)
      requires Valid() && store.Valid()
      modifies this`savedVideos, store`isOpen
      ensures Valid()
      ensures store.isOpen == (old(store.isOpen) || backend.openError.None?)
      ensures VideoStorage.Succeeds(old(store.isOpen), backend) ==>
        VideoStorage.IsListing(savedVideos, store.records)
      ensures !VideoStorage.Succeeds(old(store.isOpen), backend) ==> savedVideos == old(savedVideos)
    {
      var r := store.GetAllVideos(backend);
      if r.Success? {
        SavedVideosList.SortedListing(r.value, store.records);
        savedVideos := SavedVideosList.SortNewestFirst(r.value);
      }
    }

    /**
     * `handleUploadComplete` with the effect on `savedVideoId`: the id is
     * recorded, and the list is reloaded when the recorded id changed.
     */
    method HandleUploadComplete(videoId: string, store: VideoStorage.VideoStore, backend: VideoStorage.Backend)
      requires Valid() && store.Valid()
      modifies this`savedVideoId, this`savedVideos, store`isOpen
      ensures Valid()
      ensures savedVideoId == Some(videoId)
      ensures old(savedVideoId) == Some(videoId) ==>
        savedVideos == old(savedVideos) && store.isOpen == old(store.isOpen)
      ensures old(savedVideoId) != Some(videoId) && VideoStorage.Succeeds(old(store.isOpen), backend) ==>
        VideoStorage.IsListing(savedVideos, store.records)
      ensures old(savedVideoId) != Some(videoId) && !VideoStorage.Succeeds(old(store.isOpen), backend) ==>
        savedVideos == old(savedVideos)
    {
      var changed := savedVideoId != Some(videoId);
      savedVideoId := Some(videoId);
      if changed {
        LoadSavedVideos(store, backend);
      }
    }

    /** `handleVideoSelect`: the clicked record becomes the selection. */
    method HandleVideoSelect(video: StoredVideo)
      modifies this`selectedVideo
      ensures selectedVideo == Some(video)
    {
      selectedVideo := Some(video);
    }

    /**
     * `handleDeleteVideo`: after a successful delete the list is reloaded and
     * the selection is cleared exactly when it was the deleted record; a
     * rejected delete changes neither the list nor the selection.
     */
    method HandleDeleteVideo(videoId: string, store: VideoStorage.VideoStore,
                             deleteBackend: VideoStorage.Backend, reloadBackend: VideoStorage.Backend)
      requires Valid() && store.Valid()
      modifies this`savedVideos, this`selectedVideo, store
      ensures Valid() && store.Valid()
      ensures store.isOpen == (old(store.isOpen) || deleteBackend.openError.None?)
      ensures !VideoStorage.Succeeds(old(store.isOpen), deleteBackend) ==>
        && savedVideos == old(savedVideos) && selectedVideo == old(selectedVideo)
        && store.records == old(store.records)
      ensures VideoStorage.Succeeds(old(store.isOpen), deleteBackend) ==>
        && store.records == VideoStorage.Remove(old(store.records), videoId)
        && selectedVideo == (if old(selectedVideo).Some? && old(selectedVideo).value.id == videoId
                             then None else old(selectedVideo))
        && (reloadBackend.requestError.None? ==>
              VideoStorage.IsListing(savedVideos, store.records) &&
              videoId !in VideoStorage.Ids(savedVideos))
        && (reloadBackend.requestError.Some? ==> savedVideos == old(savedVideos))
    {
      var r := store.DeleteVideo(videoId, deleteBackend);
      if r.Failure? {
        return;
      }
      LoadSavedVideos(store, reloadBackend);
      if selectedVideo.Some? && selectedVideo.value.id == videoId {
        selectedVideo := None;
      }
    }

    /** The saved list is shown only when it has records. */
    predicate ListShown()
      reads this
    {
      |savedVideos| > 0
    }

    /**
     * The target of the analyze button: present only while the list is shown
     * and a record is selected, and then the analysis route followed by
     * exactly the selected id.
     */
    function AnalyzeTarget(): (target: Option<string>)
      reads this
      ensures target.Some? <==> ListShown() && selectedVideo.Some?
      ensures target.Some? ==>
        |target.value| >= |AnalysisPrefix| &&
        target.value[..|AnalysisPrefix|] == AnalysisPrefix &&
        target.value[|AnalysisPrefix|..] == selectedVideo.value.id
      ensures target.Some? && VideoStorage.MatchesIdPattern(selectedVideo.value.id) ==>
        Navigation.Path(target.value) == AnalysisPath &&
        Navigation.RouteParam(target.value, "videoId") == Some(selectedVideo.value.id)
    {
      if ListShown() && selectedVideo.Some? then
        AnalysisRoute(selectedVideo.value.id);
        Some(AnalysisPrefix + selectedVideo.value.id)
      else None
    }

    /** The click of the analyze button, which is rendered only with a shown list and a selection. */
    method HandleAnalyzeClick(router: Navigation.Router)
      requires ListShown() && selectedVideo.Some?
      modifies router
      ensures router.pushed == old(router.pushed) + [AnalyzeTarget().value]
    {
      router.Push(AnalysisPrefix + selectedVideo.value.id);
    }
  }

  /** Every character of an id of the generated pattern is a letter, a digit or `_`. */
  lemma PatternIdsArePlain(id: string)
    requires VideoStorage.MatchesIdPattern(id)
    ensures Navigation.Plain(id)
  {
    var n := |VideoStorage.IdPrefix|;
    var rest := id[n..];
    var k := Text.FirstIndex(rest, '_').value;
    forall i | 0 <= i < |id| ensures id[i] != '&' && id[i] != '=' {
      if i < n {
        assert id[i] == VideoStorage.IdPrefix[i];
      } else if i - n < k {
        assert id[i] == rest[..k][i - n];
      } else if i - n > k {
        assert id[i] == rest[k + 1..][i - n - k - 1];
      } else {
        assert id[i] == rest[k];
      }
    }
  }

  /**
   * The analysis page reached from the upload page reads the selected id back
   * from its `videoId` parameter, for an id of the generated pattern.
   */
  lemma AnalysisRoute(id: string)
    ensures VideoStorage.MatchesIdPattern(id) ==>
      Navigation.Path(AnalysisPrefix + id) == AnalysisPath &&
      Navigation.RouteParam(AnalysisPrefix + id, "videoId") == Some(id)
  {
    if VideoStorage.MatchesIdPattern(id) {
      PatternIdsArePlain(id);
      Navigation.RouteWithOneParam(AnalysisPath, "videoId", id);
    }
  }

  /** Saved videos open their analysis page under their own id. */
  lemma SavedVideoRoute(now: nat, random36: string)
    requires |random36| > 2 && Text.AllBase36(random36[2..])
    ensures Navigation.RouteParam(AnalysisPrefix + VideoStorage.MakeId(now, random36), "videoId")
      == Some(VideoStorage.MakeId(now, random36))
  {
    VideoStorage.IdShape(now, random36);
    AnalysisRoute(VideoStorage.MakeId(now, random36));
  }
}
