/**
 * The upload form (components/video-upload.tsx): a picked file is checked
 * against a MIME allow-list and then a 100 MiB size limit, previewed through
 * an object URL, and saved to the video store on request.
 */
module VideoUpload {
  import opened Wrappers
  import ObjectUrls
  import VideoStorage

  const ValidTypes: set<string> := {"video/mp4", "video/quicktime", "video/x-msvideo"}
  /** 100 MiB. */
  const MaxSize: nat := 100 * 1024 * 1024

  const FormatError: string := "対応している形式は MP4, MOV, AVI です"
  const SizeError: string := "ファイルサイズは100MB以下にしてください"

  datatype Validation = Accepted | Rejected(message: string)

  /** The checks of `handleFileSelect`: the type first, then the size. */
  function Validate(f: VideoStorage.VideoFile): Validation {
    if f.mime !in ValidTypes then Rejected(FormatError)
    else if f.size > MaxSize then Rejected(SizeError)
    else Accepted
  }

  /**
   * A file is accepted exactly when its type is allowed and its size is at most
   * 100 MiB; a disallowed type gets the format message whatever its size, and an
   * allowed type over the limit gets the size message.
   */
  lemma ValidationCases(f: VideoStorage.VideoFile)
    ensures Validate(f) == Accepted <==> f.mime in ValidTypes && f.size <= MaxSize
    ensures Validate(f) == Rejected(FormatError) <==> f.mime !in ValidTypes
    ensures Validate(f) == Rejected(SizeError) <==> f.mime in ValidTypes && f.size > MaxSize
  {
    assert FormatError[0] != SizeError[0];
  }

  /** The boundary cases: exactly 100 MiB passes, one byte more fails; text/plain fails on its type. */
  lemma ValidationExamples(name: string, data: ObjectUrls.Blob)
    ensures Validate(VideoStorage.VideoFile(name, "video/mp4", 100 * 1024 * 1024, data)) == Accepted
    ensures Validate(VideoStorage.VideoFile(name, "video/mp4", 100 * 1024 * 1024 + 1, data)) == Rejected(SizeError)
    ensures Validate(VideoStorage.VideoFile(name, "video/mp4", 101 * 1024 * 1024, data)) == Rejected(SizeError)
    ensures Validate(VideoStorage.VideoFile(name, "video/mp4", 10 * 1024 * 1024, data)) == Accepted
    ensures Validate(VideoStorage.VideoFile(name, "text/plain", 101 * 1024 * 1024, data)) == Rejected(FormatError)
  {
  }

  class UploadForm {
    var selectedFile: Option<VideoStorage.VideoFile>
    var saving: bool
    var error: Option<string>
    var previewUrl: Option<string>

    /** A preview exists exactly while a file is selected, and its handle is live. */
    ghost predicate Valid(urls: ObjectUrls.Registry)
      reads this, urls
    {
      && urls.Valid()
      && (previewUrl.Some? <==> selectedFile.Some?)
      && (previewUrl.Some? ==> urls.IsLive(previewUrl.value))
    }

    constructor (urls: ObjectUrls.Registry)
      requires urls.Valid()
      ensures Valid(urls)
      ensures selectedFile == None && !saving && error == None && previewUrl == None
    {
      selectedFile := None;
      saving := false;
      error := None;
      previewUrl := None;
    }

    /**
     * `handleFileSelect`: no file does nothing; a rejected file only sets the
     * error; an accepted file clears the error, becomes the selection, and gets a
     * new preview handle after the previous one is revoked.
     */
    method HandleFileSelect(file: Option<VideoStorage.VideoFile>, urls: ObjectUrls.Registry)
      requires Valid(urls)
      modifies this, urls
      ensures Valid(urls)
      ensures saving == old(saving)
      ensures file.None? ==>
        && selectedFile == old(selectedFile) && error == old(error) && previewUrl == old(previewUrl)
        && urls.live == old(urls.live) && urls.next == old(urls.next)
      ensures file.Some? && Validate(file.value).Rejected? ==>
        && error == Some(Validate(file.value).message)
        && selectedFile == old(selectedFile) && previewUrl == old(previewUrl)
        && urls.live == old(urls.live) && urls.next == old(urls.next)
      ensures file.Some? && Validate(file.value) == Accepted ==>
        && error == None && selectedFile == file
        && previewUrl.Some? && ObjectUrls.HandleNumber(previewUrl.value) == Some(old(urls.next))
        && (old(previewUrl).Some? ==> !urls.IsLive(old(previewUrl).value))
        && urls.live == RevokedIfPresent(old(urls.live), old(previewUrl))[old(urls.next) := file.value.data]
    {
      if file.None? {
        return;
      }
      var f := file.value;
      var v := Validate(f);
      if v.Rejected? {
        error := Some(v.message);
        return;
      }
      error := None;
      selectedFile := file;
      if previewUrl.Some? {
        urls.Revoke(previewUrl.value);
      }
      var url := urls.Create(f.data);
      previewUrl := Some(url);
    }

    /** The first half of `handleSave`: with a selection, enter the saving state and clear the error. */
    method StartSave() returns (started: bool)
      modifies this`saving, this`error
      ensures started == old(selectedFile).Some?
      ensures started ==> saving && error == None
      ensures !started ==> saving == old(saving) && error == old(error)
    {
      if selectedFile.None? {
        return false;
      }
      saving := true;
      error := None;
      started := true;
    }

    /**
     * The second half of `handleSave`, once the store has answered: on success
     * report the id and clear selection and preview (revoking it); on failure
     * show the error's message and keep the selection. Saving ends either way.
     */
    method FinishSave(r: Result<string, VideoStorage.StoreError>, urls: ObjectUrls.Registry) returns (completed: Option<string>)
      requires Valid(urls)
      modifies this, urls
      ensures Valid(urls)
      ensures !saving
      ensures r.Success? ==>
        && completed == Some(r.value) && selectedFile == None && previewUrl == None
        && error == old(error)
        && urls.live == RevokedIfPresent(old(urls.live), old(previewUrl))
      ensures r.Failure? ==>
        && completed == None && error == Some(VideoStorage.ErrorMessage(r.error))
        && selectedFile == old(selectedFile) && previewUrl == old(previewUrl)
        && urls.live == old(urls.live)
    {
      saving := false;
      match r
      case Success(id) =>
        completed := Some(id);
        selectedFile := None;
        if previewUrl.Some? {
          urls.Revoke(previewUrl.value);
        }
        previewUrl := None;
      case Failure(e) =>
        completed := None;
        error := Some(VideoStorage.ErrorMessage(e));
    }

    /**
     * `handleSave`: nothing without a selection; otherwise saves the selected
     * file and returns the id passed to `onUploadComplete`. The save succeeds
     * exactly when the store opens, the generated id is fresh and the request
     * goes through; a failure shows the store's message and keeps the form.
     */
    method HandleSave(store: VideoStorage.VideoStore, env: VideoStorage.SaveEnv, backend: VideoStorage.Backend,
                      urls: ObjectUrls.Registry) returns (uploaded: Option<string>)
      requires Valid(urls) && store.Valid()
      modifies this, urls, store
      ensures Valid(urls) && store.Valid()
      ensures old(selectedFile).None? ==>
        && uploaded == None && store.records == old(store.records) && store.isOpen == old(store.isOpen)
        && selectedFile == None && saving == old(saving) && error == old(error) && previewUrl == old(previewUrl)
        && urls.live == old(urls.live)
      ensures old(selectedFile).Some? ==>
        && !saving
        && store.isOpen == (old(store.isOpen) || backend.openError.None?)
        && (uploaded.Some? <==> VideoStorage.Succeeds(old(store.isOpen), backend) &&
                                VideoStorage.MakeId(env.now, env.random36) !in old(store.records))
      ensures old(selectedFile).Some? && uploaded.Some? ==>
        && uploaded == Some(VideoStorage.MakeId(env.now, env.random36))
        && VideoStorage.Add(old(store.records),
             VideoStorage.NewRecord(uploaded.value, old(selectedFile).value, env.uploadedAt)) == Some(store.records)
        && selectedFile == None && previewUrl == None && error == None
        && urls.live == RevokedIfPresent(old(urls.live), old(previewUrl))
      ensures old(selectedFile).Some? && uploaded.None? ==>
        && store.records == old(store.records)
        && error == Some(VideoStorage.ErrorMessage(
             VideoStorage.SaveError(old(store.isOpen), old(store.records), env, backend).value))
        && selectedFile == old(selectedFile) && previewUrl == old(previewUrl)
        && urls.live == old(urls.live)
    {
      var started := StartSave();
      if !started {
        return None;
      }
      var r := store.SaveVideo(selectedFile.value, env, backend);
      uploaded := FinishSave(r, urls);
    }

    /** `handleRemoveFile`, with the effect cleanup that revokes the preview handle once it is replaced. */
    method HandleRemoveFile(urls: ObjectUrls.Registry)
      requires Valid(urls)
      modifies this, urls
      ensures Valid(urls)
      ensures selectedFile == None && previewUrl == None && error == None && saving == old(saving)
      ensures urls.live == RevokedIfPresent(old(urls.live), old(previewUrl))
    {
      if previewUrl.Some? {
        urls.Revoke(previewUrl.value);
      }
      selectedFile := None;
      previewUrl := None;
      error := None;
    }
  }

  /** The live map after revoking the given handle, if any. */
  function RevokedIfPresent(live: map<nat, ObjectUrls.Blob>, url: Option<string>): map<nat, ObjectUrls.Blob> {
    match url
    case None => live
    case Some(u) =>
      match ObjectUrls.HandleNumber(u)
      case Some(n) => live - {n}
      case None => live
  }
}
