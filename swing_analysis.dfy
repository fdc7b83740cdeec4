/**
 * The single-video analysis screen (components/swing-analysis.tsx): a video
 * picker, a simulated analysis that steps a progress value through
 * 20, 40, 60, 80, 100 and then stores a fixed result, and local score
 * classifiers with bands at 80 and 60 that differ from the shared ones.
 */
module SwingAnalysis {
  import opened Wrappers
  import ObjectUrls
  import ScoreUtils
  import VideoStorage

  // ---------------------------------------------------------------------------
  // Local classifiers

  function LocalScoreColor(score: real): ScoreUtils.TextColor {
    if score >= 80.0 then ScoreUtils.Green
    else if score >= 60.0 then ScoreUtils.Yellow
    else ScoreUtils.Red
  }

  function LocalBadgeVariant(score: real): ScoreUtils.BadgeVariant {
    if score >= 80.0 then ScoreUtils.Default
    else if score >= 60.0 then ScoreUtils.Secondary
    else ScoreUtils.Destructive
  }

  /** The label shown in the overall-score badge. */
  function OverallLabel(score: real): ScoreUtils.Level {
    if score >= 80.0 then ScoreUtils.Excellent
    else if score >= 60.0 then ScoreUtils.Good
    else ScoreUtils.NeedsImprovement
  }

  /** The local badge, colour and label split the scores into the same three bands: [80, ∞), [60, 80), below 60. */
  lemma LocalBandsAgree(score: real)
    ensures LocalBadgeVariant(score) == ScoreUtils.Default <==> score >= 80.0
    ensures LocalBadgeVariant(score) == ScoreUtils.Secondary <==> 60.0 <= score < 80.0
    ensures LocalBadgeVariant(score) == ScoreUtils.Destructive <==> score < 60.0
    ensures LocalScoreColor(score).Rank() == [0, 2, 3][LocalBadgeVariant(score).Rank()]
    ensures OverallLabel(score).Rank() == [0, 1, 3][LocalBadgeVariant(score).Rank()]
  {
  }

  /** The local badge and the shared one agree exactly for scores of 90 and above or below 60. */
  lemma BadgeDisagreement(score: real)
    ensures LocalBadgeVariant(score) == ScoreUtils.GetScoreBadgeVariant(score) <==> score >= 90.0 || score < 60.0
    ensures 80.0 <= score < 90.0 ==>
      LocalBadgeVariant(score) == ScoreUtils.Default && ScoreUtils.GetScoreBadgeVariant(score) == ScoreUtils.Secondary
  {
  }

  // ---------------------------------------------------------------------------
  // Progress messages

  /** The three status lines under the progress bar, each shown when its condition holds. */
  predicate ShowsDecoding(progress: int) { progress < 40 }
  predicate ShowsFormAnalysis(progress: int) { progress >= 40 && progress < 80 }
  predicate ShowsGenerating(progress: int) { progress >= 80 }

  /** For every progress value exactly one of the three lines is shown. */
  lemma ExactlyOneMessage(progress: int)
    ensures ShowsDecoding(progress) || ShowsFormAnalysis(progress) || ShowsGenerating(progress)
    ensures !(ShowsDecoding(progress) && ShowsFormAnalysis(progress))
    ensures !(ShowsDecoding(progress) && ShowsGenerating(progress))
    ensures !(ShowsFormAnalysis(progress) && ShowsGenerating(progress))
  {
  }

  // ---------------------------------------------------------------------------
  // The analysis result

  datatype Category = Category(score: real, feedback: string, recommendation: string)

  datatype AnalysisResult = AnalysisResult(
    overallScore: real,
    tempo: Category, posture: Category, balance: Category, clubPath: Category,
    improvements: seq<string>, strengths: seq<string>)

  /** The fixed result `simulateAnalysis` stores, for the matched professional's name. */
  function MockResult(matchedProName: string): AnalysisResult {
    AnalysisResult(
      78.0,
      Category(85.0, "テンポが良好です", matchedProName + "と同様のリズムを保てています"),
      Category(72.0, "アドレス時の姿勢に改善の余地があります", "背筋をもう少し伸ばし、膝の角度を調整してください"),
      Category(80.0, "バランスは安定しています", "フィニッシュでの体重移動をより意識してください"),
      Category(75.0, "クラブパスは概ね良好です", "ダウンスイング時のクラブの軌道をもう少し内側に"),
      ["アドレス時の前傾角度を5度深くする", "バックスイングのトップでの左腕の伸び",
       "インパクト後のフォロースルーの高さ", "体重移動のタイミング調整"],
      ["安定したテンポとリズム", "良好なバランス感覚", "スムーズな体の回転", "一貫したスイングプレーン"])
  }

  /** The mock overall score 78 is labelled 良好 with a secondary badge here, but would be 普通 with a destructive badge under the shared classifiers. */
  lemma MockOverallClassification(name: string)
    ensures OverallLabel(MockResult(name).overallScore) == ScoreUtils.Good
    ensures LocalBadgeVariant(MockResult(name).overallScore) == ScoreUtils.Secondary
    ensures ScoreUtils.GetScoreLevel(MockResult(name).overallScore) == ScoreUtils.Fair
    ensures ScoreUtils.GetScoreBadgeVariant(MockResult(name).overallScore) == ScoreUtils.Destructive
  {
  }

  /** The progress values `simulateAnalysis` steps through. */
  const Intervals: seq<int> := [20, 40, 60, 80, 100]

  /** A picked file is accepted when its MIME type starts with "video/". */
  predicate IsVideoMime(mime: string) {
    |mime| >= 6 && mime[..6] == "video/"
  }

  // ---------------------------------------------------------------------------
  // The component state

  class SwingAnalysisScreen {
    const matchedProName: string
    var uploadedVideo: Option<VideoStorage.VideoFile>
    var videoUrl: string
    var isAnalyzing: bool
    var analysisProgress: int
    var analysisResult: Option<AnalysisResult>
    /** Every value `analysisProgress` has been set to, in order (ghost record of the renders). */
    ghost var progressLog: seq<int>

    /** The initial state; the name defaults to "田中 太郎" when the caller gives none. */
    constructor (matchedProName: Option<string>)
      ensures this.matchedProName == matchedProName.GetOr("田中 太郎")
      ensures uploadedVideo == None && videoUrl == "" && !isAnalyzing
      ensures analysisProgress == 0 && analysisResult == None && progressLog == []
    {
      this.matchedProName := matchedProName.GetOr("田中 太郎");
      uploadedVideo := None;
      videoUrl := "";
      isAnalyzing := false;
      analysisProgress := 0;
      analysisResult := None;
      progressLog := [];
    }

    /** `handleVideoUpload`: a video file replaces the current one and clears any previous result; anything else is ignored. */
    method HandleVideoUpload(file: Option<VideoStorage.VideoFile>, urls: ObjectUrls.Registry)
      requires urls.Valid()
      modifies this, urls
      ensures urls.Valid()
      ensures isAnalyzing == old(isAnalyzing) && analysisProgress == old(analysisProgress)
      ensures progressLog == old(progressLog)
      ensures file.Some? && IsVideoMime(file.value.mime) ==>
        && uploadedVideo == file && analysisResult == None
        && ObjectUrls.HandleNumber(videoUrl) == Some(old(urls.next))
        && urls.live == old(urls.live)[old(urls.next) := file.value.data]
      ensures !(file.Some? && IsVideoMime(file.value.mime)) ==>
        && uploadedVideo == old(uploadedVideo) && videoUrl == old(videoUrl)
        && analysisResult == old(analysisResult) && urls.live == old(urls.live) && urls.next == old(urls.next)
    {
      if file.Some? && IsVideoMime(file.value.mime) {
        uploadedVideo := file;
        var url := urls.Create(file.value.data);
        videoUrl := url;
        analysisResult := None;
      }
    }

    /** `simulateAnalysis`: progress 0, then 20, 40, 60, 80, 100, then the mock result and analysing off. */
    method SimulateAnalysis()
      modifies this
      ensures uploadedVideo == old(uploadedVideo) && videoUrl == old(videoUrl)
      ensures progressLog == old(progressLog) + [0] + Intervals
      ensures analysisProgress == 100
      ensures analysisResult == Some(MockResult(matchedProName))
      ensures !isAnalyzing
    {
      isAnalyzing := true;
      analysisProgress := 0;
      progressLog := progressLog + [0];
      var i := 0;
      while i < |Intervals|
        invariant 0 <= i <= |Intervals|
        invariant isAnalyzing
        invariant uploadedVideo == old(uploadedVideo) && videoUrl == old(videoUrl)
        invariant progressLog == old(progressLog) + [0] + Intervals[..i]
        invariant analysisProgress == if i == 0 then 0 else Intervals[i - 1]
      {
        analysisProgress := Intervals[i];
        progressLog := progressLog + [Intervals[i]];
        assert Intervals[..i + 1] == Intervals[..i] + [Intervals[i]];
        i := i + 1;
      }
      assert Intervals[..i] == Intervals;
      analysisResult := Some(MockResult(matchedProName));
      isAnalyzing := false;
    }
  }
}
