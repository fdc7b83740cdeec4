/**
 * The two-video comparison screen (components/swing-comparison.tsx): two
 * video pickers (the second may be preset to a professional's video), a
 * simulated analysis whose progress ticks by 10 up to 100, a retry that resets
 * the pickers, and a view chosen by precedence: error, result, detailed
 * analysis, form.
 */
module SwingComparison {
  import opened Wrappers
  import ObjectUrls
  import ScoreUtils
  import VideoStorage
  import SwingAnalysis

  /** JavaScript truthiness of an optional string: present and non-empty. */
  predicate Truthy(s: Option<string>) {
    s.Some? && s.value != ""
  }

  /** The props the screen is rendered with; they do not change while it is shown. */
  datatype Props = Props(
    isLoading: bool,
    analysisResult: Option<SwingAnalysis.AnalysisResult>,
    error: Option<string>,
    presetVideo2: Option<string>,
    presetVideo2Name: Option<string>)

  const DefaultPresetName: string := "プロのスイング"

  /** `presetVideo2Name || 'プロのスイング'`. */
  function PresetDisplayName(name: Option<string>): string {
    if Truthy(name) then name.value else DefaultPresetName
  }

  /** The name shown is the given one when it is non-empty, and the default otherwise. */
  lemma PresetDisplayNameCases(name: Option<string>)
    ensures PresetDisplayName(name) != ""
    ensures Truthy(name) ==> PresetDisplayName(name) == name.value
    ensures !Truthy(name) ==> PresetDisplayName(name) == DefaultPresetName
  {
  }

  /** The mock result reported to `onAnalysisComplete` two seconds after the analysis starts. */
  function MockAnalysisResult(): SwingAnalysis.AnalysisResult {
    SwingAnalysis.AnalysisResult(
      85.0,
      SwingAnalysis.Category(90.0, "テンポが良好です", "現在のテンポを維持してください"),
      SwingAnalysis.Category(80.0, "姿勢に改善の余地があります", "背筋を伸ばしてください"),
      SwingAnalysis.Category(85.0, "バランスは良好です", "現在のバランスを維持してください"),
      SwingAnalysis.Category(75.0, "クラブパスに改善の余地があります", "インサイドアウトを意識してください"),
      ["姿勢の改善", "クラブパスの修正"],
      ["テンポが良い", "バランスが安定している"])
  }

  /** The result view badges the mock's four category scores with the shared variants. */
  lemma MockResultBadges()
    ensures ScoreUtils.GetScoreBadgeVariant(MockAnalysisResult().tempo.score) == ScoreUtils.Default
    ensures ScoreUtils.GetScoreBadgeVariant(MockAnalysisResult().posture.score) == ScoreUtils.Secondary
    ensures ScoreUtils.GetScoreBadgeVariant(MockAnalysisResult().balance.score) == ScoreUtils.Secondary
    ensures ScoreUtils.GetScoreBadgeVariant(MockAnalysisResult().clubPath.score) == ScoreUtils.Destructive
  {
  }

  // ---------------------------------------------------------------------------
  // Analysis progress

  /** One step of the interval updater: +10 below 100, and 100 from then on. */
  function ProgressTick(prev: int): int {
    if prev >= 100 then 100 else prev + 10
  }

  /** The progress after n ticks starting from p. */
  function Ticks(p: int, n: nat): int
    decreases n
  {
    if n == 0 then p else Ticks(ProgressTick(p), n - 1)
  }

  function Min(a: int, b: int): int { if a <= b then a else b }

  /** From a multiple of 10 in [0, 100], n ticks reach min(p + 10n, 100). */
  lemma {:induction false} TicksFrom(p: int, n: nat)
    requires 0 <= p <= 100 && p % 10 == 0
    ensures Ticks(p, n) == Min(p + 10 * n, 100)
    decreases n
  {
    if n > 0 {
      TicksFrom(ProgressTick(p), n - 1);
    }
  }

  /** Starting from 0, progress is 10n after n ticks until it reaches 100, never exceeds 100, and stays at 100. */
  lemma ProgressFromZero(n: nat)
    ensures Ticks(0, n) == Min(10 * n, 100)
    ensures 0 <= Ticks(0, n) <= 100
    ensures n >= 10 ==> Ticks(0, n) == 100 && ProgressTick(Ticks(0, n)) == 100
  {
    TicksFrom(0, n);
  }

  /** The cap of 100 relies on starting from a multiple of 10: from 95 one tick gives 105. */
  lemma TickOvershootsOffTheGrid()
    ensures ProgressTick(95) == 105
  {
  }

  // ---------------------------------------------------------------------------
  // Views

  datatype View = ErrorView | ResultView | DetailedView | FormView(loading: bool)

  /** The precedence of the render: error, then result, then the detailed view, then the form. */
  function CurrentView(props: Props, showDetailed: bool): View {
    if Truthy(props.error) then ErrorView
    else if props.analysisResult.Some? then ResultView
    else if showDetailed then DetailedView
    else FormView(props.isLoading)
  }

  /**
   * The "detailed analysis" button exists only in the result view, and pressing
   * it (showDetailed := true) leaves the result view in place: the detailed view
   * is reachable only when there is no result.
   */
  lemma DetailedButtonHasNoEffect(props: Props)
    requires CurrentView(props, false) == ResultView
    ensures CurrentView(props, true) == ResultView
    ensures CurrentView(props, true) == DetailedView <==> false
  {
  }

  lemma DetailedViewNeedsNoResult(props: Props, showDetailed: bool)
    ensures CurrentView(props, showDetailed) == DetailedView <==>
      !Truthy(props.error) && props.analysisResult.None? && showDetailed
  {
  }

  /** The evidently intended precedence: the detailed view, once requested, wins over the result. */
  function IntendedView(props: Props, showDetailed: bool): View {
    if Truthy(props.error) then ErrorView
    else if showDetailed then DetailedView
    else if props.analysisResult.Some? then ResultView
    else FormView(props.isLoading)
  }

  /** Under the intended precedence the button opens the detailed view, and closing it returns to the result. */
  lemma IntendedDetailedShows(props: Props)
    requires IntendedView(props, false) == ResultView
    ensures IntendedView(props, true) == DetailedView
    ensures CurrentView(props, false) == ResultView
  {
  }

  /**
   * `handleAnalysisComplete` of the comparison page: the props the screen is
   * rendered with once a result is reported.
   */
  function AfterAnalysisComplete(p: Props, result: SwingAnalysis.AnalysisResult): Props {
    p.(analysisResult := Some(result), isLoading := false, error := None)
  }

  /** The props the comparison page renders the screen with at first: no result, not loading, no error, no preset. */
  const PageProps: Props := Props(false, None, None, None, None)

  /**
   * A reported result replaces the page's result, ends loading and clears the
   * error, so the screen shows the result view whatever the detailed flag;
   * under the intended precedence the result shows until the detailed view is
   * requested.
   */
  lemma CompletionShowsResult(p: Props, result: SwingAnalysis.AnalysisResult)
    ensures AfterAnalysisComplete(p, result).analysisResult == Some(result)
    ensures forall show: bool :: CurrentView(AfterAnalysisComplete(p, result), show) == ResultView
    ensures IntendedView(AfterAnalysisComplete(p, result), false) == ResultView
    ensures IntendedView(AfterAnalysisComplete(p, result), true) == DetailedView
  {
  }

  /** The page first shows the form, and after the first report the result. */
  lemma PageFlow(result: SwingAnalysis.AnalysisResult, show: bool)
    ensures CurrentView(PageProps, false) == FormView(false)
    ensures CurrentView(AfterAnalysisComplete(PageProps, result), show) == ResultView
  {
  }

  // ---------------------------------------------------------------------------
  // The component state

  /** A picked file is stored only if its MIME type starts with "video/". */
  predicate IsVideoFile(file: Option<VideoStorage.VideoFile>) {
    file.Some? && SwingAnalysis.IsVideoMime(file.value.mime)
  }

  class ComparisonScreen {
    const props: Props
    var video1: Option<VideoStorage.VideoFile>
    var video2: Option<VideoStorage.VideoFile>
    var video1Url: string
    var video2Url: string
    var analysisProgress: int
    var presetDisplayName: string
    var showDetailedAnalysis: bool
    /** Whether the progress interval is running. */
    var ticking: bool
    /** The completion timeouts `handleAnalyze` has scheduled that have not fired yet. */
    var pendingCompletions: nat

    constructor (props: Props)
      ensures this.props == props
      ensures video1 == None && video2 == None && video1Url == "" && video2Url == ""
      ensures analysisProgress == 0 && presetDisplayName == "" && !showDetailedAnalysis && !ticking
      ensures pendingCompletions == 0
    {
      this.props := props;
      video1, video2 := None, None;
      video1Url, video2Url := "", "";
      analysisProgress := 0;
      presetDisplayName := "";
      showDetailedAnalysis := false;
      ticking := false;
      pendingCompletions := 0;
    }

    /** The second video's pane shows the preset while there is one. */
    predicate PresetShown()
      reads this
    {
      Truthy(props.presetVideo2) ==> video2Url == props.presetVideo2.value
    }

    /** The early-return guard of `handleAnalyze`. */
    function AnalyzeGuard(): bool
      reads this
    {
      video1.Some? && (video2.Some? || Truthy(props.presetVideo2))
    }

    /** `canAnalyze`, which enables the analyze button. */
    function CanAnalyze(): bool
      reads this
    {
      video1.Some? && (video2.Some? || Truthy(props.presetVideo2)) && !props.isLoading
    }

    /** The effect on `presetVideo2`: a preset fills the second video's URL and display name. */
    method ApplyPreset()
      modifies this
      ensures video1 == old(video1) && video2 == old(video2) && video1Url == old(video1Url)
      ensures analysisProgress == old(analysisProgress) && showDetailedAnalysis == old(showDetailedAnalysis)
      ensures ticking == old(ticking) && pendingCompletions == old(pendingCompletions)
      ensures PresetShown()
      ensures Truthy(props.presetVideo2) ==>
        video2Url == props.presetVideo2.value && presetDisplayName == PresetDisplayName(props.presetVideo2Name)
      ensures !Truthy(props.presetVideo2) ==>
        video2Url == old(video2Url) && presetDisplayName == old(presetDisplayName)
    {
      if Truthy(props.presetVideo2) {
        video2Url := props.presetVideo2.value;
        presetDisplayName := PresetDisplayName(props.presetVideo2Name);
      }
    }

    /** `handleVideo1Upload`: a video file becomes video 1 with a new handle; the previous handle is not revoked. */
    method HandleVideo1Upload(file: Option<VideoStorage.VideoFile>, urls: ObjectUrls.Registry)
      requires urls.Valid()
      modifies this`video1, this`video1Url, urls
      ensures urls.Valid()
      ensures IsVideoFile(file) ==>
        && video1 == file && ObjectUrls.HandleNumber(video1Url) == Some(old(urls.next))
        && urls.live == old(urls.live)[old(urls.next) := file.value.data]
      ensures !IsVideoFile(file) ==>
        video1 == old(video1) && video1Url == old(video1Url) && urls.live == old(urls.live) && urls.next == old(urls.next)
    {
      if IsVideoFile(file) {
        video1 := file;
        var url := urls.Create(file.value.data);
        video1Url := url;
      }
    }

    /** `handleVideo2Upload`: the same for video 2. */
    method HandleVideo2Upload(file: Option<VideoStorage.VideoFile>, urls: ObjectUrls.Registry)
      requires urls.Valid()
      modifies this`video2, this`video2Url, urls
      ensures urls.Valid()
      ensures IsVideoFile(file) ==>
        && video2 == file && ObjectUrls.HandleNumber(video2Url) == Some(old(urls.next))
        && urls.live == old(urls.live)[old(urls.next) := file.value.data]
      ensures !IsVideoFile(file) ==>
        video2 == old(video2) && video2Url == old(video2Url) && urls.live == old(urls.live) && urls.next == old(urls.next)
    {
      if IsVideoFile(file) {
        video2 := file;
        var url := urls.Create(file.value.data);
        video2Url := url;
      }
    }

    /**
     * `handleAnalyze`: without video 1, or without video 2 and a preset, nothing
     * happens; otherwise progress restarts at 0, the interval starts and one
     * completion timeout is scheduled. Unlike `canAnalyze`, the guard does not
     * look at `isLoading`.
     */
    method HandleAnalyze() returns (started: bool)
      modifies this`analysisProgress, this`ticking, this`pendingCompletions
      ensures started == old(AnalyzeGuard())
      ensures started ==> analysisProgress == 0 && ticking && pendingCompletions == old(pendingCompletions) + 1
      ensures !started ==>
        analysisProgress == old(analysisProgress) && ticking == old(ticking) &&
        pendingCompletions == old(pendingCompletions)
    {
      if video1.None? || (video2.None? && !Truthy(props.presetVideo2)) {
        return false;
      }
      analysisProgress := 0;
      ticking := true;
      pendingCompletions := pendingCompletions + 1;
      started := true;
    }

    /** One run of the interval callback; at 100 it stops the interval. */
    method Tick() returns (stopped: bool)
      requires ticking
      modifies this`analysisProgress, this`ticking
      ensures analysisProgress == ProgressTick(old(analysisProgress))
      ensures stopped == (old(analysisProgress) >= 100)
      ensures ticking == !stopped
    {
      stopped := analysisProgress >= 100;
      if stopped {
        ticking := false;
      }
      analysisProgress := ProgressTick(analysisProgress);
    }

    /**
     * A scheduled completion timeout fires: it reports the mock result to
     * `onAnalysisComplete`, and once the page has stored it the screen shows
     * the result, whatever the detailed flag.
     */
    method CompleteAnalysis() returns (reported: SwingAnalysis.AnalysisResult)
      requires pendingCompletions > 0
      modifies this`pendingCompletions
      ensures pendingCompletions == old(pendingCompletions) - 1
      ensures reported == MockAnalysisResult()
      ensures forall show: bool :: CurrentView(AfterAnalysisComplete(props, reported), show) == ResultView
    {
      pendingCompletions := pendingCompletions - 1;
      reported := MockAnalysisResult();
      CompletionShowsResult(props, reported);
    }

    /**
     * `handleRetry`: both files, both URLs and the progress are reset; no
     * handle is revoked, and a running interval or timeout keeps running.
     * The preset is cleared from the second pane too, and the preset effect
     * does not run again, so after a retry the pane no longer shows it.
     */
    method HandleRetry()
      modifies this
      ensures video1 == None && video2 == None && video1Url == "" && video2Url == "" && analysisProgress == 0
      ensures presetDisplayName == old(presetDisplayName) && showDetailedAnalysis == old(showDetailedAnalysis)
      ensures ticking == old(ticking) && pendingCompletions == old(pendingCompletions)
      ensures !CanAnalyze()
      ensures Truthy(props.presetVideo2) ==> !PresetShown()
    {
      video1, video2 := None, None;
      video1Url, video2Url := "", "";
      analysisProgress := 0;
    }

    /** The retry as evidently intended: the same reset, with the preset put back in the second pane. */
    method HandleRetryKeepingPreset()
      modifies this
      ensures video1 == None && video2 == None && video1Url == "" && analysisProgress == 0
      ensures video2Url == if Truthy(props.presetVideo2) then props.presetVideo2.value else ""
      ensures presetDisplayName == old(presetDisplayName) && showDetailedAnalysis == old(showDetailedAnalysis)
      ensures ticking == old(ticking) && pendingCompletions == old(pendingCompletions)
      ensures !CanAnalyze()
      ensures PresetShown()
    {
      HandleRetry();
      if Truthy(props.presetVideo2) {
        video2Url := props.presetVideo2.value;
      }
    }

    /**
     * The detailed-analysis button of the result view. Under the intended
     * precedence the detailed view is then shown unless there is an error; the
     * render as written keeps showing the result (`DetailedButtonHasNoEffect`).
     */
    method RequestDetailedAnalysis()
      modifies this`showDetailedAnalysis
      ensures showDetailedAnalysis
      ensures !Truthy(props.error) ==> IntendedView(props, showDetailedAnalysis) == DetailedView
      ensures props.analysisResult.Some? ==> CurrentView(props, showDetailedAnalysis) != DetailedView
    {
      showDetailedAnalysis := true;
    }

    /** `onClose` of the detailed view: back to the result, or to the form when there is none. */
    method CloseDetailedAnalysis()
      modifies this`showDetailedAnalysis
      ensures !showDetailedAnalysis
      ensures !Truthy(props.error) ==>
        IntendedView(props, showDetailedAnalysis) == if props.analysisResult.Some? then ResultView else FormView(props.isLoading)
    {
      showDetailedAnalysis := false;
    }
  }

  /**
   * An enabled button always passes the guard of `handleAnalyze`; the guard
   * passes without the button being enabled exactly while loading.
   */
  lemma CanAnalyzeAndGuard(s: ComparisonScreen)
    ensures s.CanAnalyze() ==> s.AnalyzeGuard()
    ensures s.AnalyzeGuard() && !s.CanAnalyze() <==> s.AnalyzeGuard() && s.props.isLoading
  {
  }
}
