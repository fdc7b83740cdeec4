/**
 * The shared score classifiers (lib/utils/score-utils.ts): four threshold
 * functions over a score, with bands at 90, 80 and 70. Each returns one of a
 * fixed set of constants; the constants are enumerations here, with the
 * string the source returns given by `ClassName` / `Label`.
 */
module ScoreUtils {

  /** The Tailwind text colour classes the functions return. */
  datatype TextColor = Green | Blue | Yellow | Red {
    function ClassName(): string {
      match this
      case Green => "text-green-600"
      case Blue => "text-blue-600"
      case Yellow => "text-yellow-600"
      case Red => "text-red-600"
    }
    /** 0 is the best band. */
    function Rank(): nat {
      match this
      case Green => 0
      case Blue => 1
      case Yellow => 2
      case Red => 3
    }
  }

  /** The badge variants a score can map to. */
  datatype BadgeVariant = Default | Secondary | Destructive {
    function Name(): string {
      match this
      case Default => "default"
      case Secondary => "secondary"
      case Destructive => "destructive"
    }
    function Rank(): nat {
      match this
      case Default => 0
      case Secondary => 1
      case Destructive => 2
    }
  }

  /** The four levels of `getScoreLevel`. */
  datatype Level = Excellent | Good | Fair | NeedsImprovement {
    function Label(): string {
      match this
      case Excellent => "優秀"
      case Good => "良好"
      case Fair => "普通"
      case NeedsImprovement => "要改善"
    }
    function Rank(): nat {
      match this
      case Excellent => 0
      case Good => 1
      case Fair => 2
      case NeedsImprovement => 3
    }
  }

  function GetScoreColor(score: real): TextColor {
    if score >= 90.0 then Green
    else if score >= 80.0 then Blue
    else if score >= 70.0 then Yellow
    else Red
  }

  function GetScoreBadgeVariant(score: real): BadgeVariant {
    if score >= 90.0 then Default
    else if score >= 80.0 then Secondary
    else Destructive
  }

  function GetScoreLevel(score: real): Level {
    if score >= 90.0 then Excellent
    else if score >= 80.0 then Good
    else if score >= 70.0 then Fair
    else NeedsImprovement
  }

  function GetScoreLevelColor(score: real): TextColor {
    if score >= 90.0 then Green
    else if score >= 80.0 then Blue
    else if score >= 70.0 then Yellow
    else Red
  }

  /** 優秀 for 90 and above, 良好 for [80, 90), 普通 for [70, 80), 要改善 below 70, in both directions. */
  lemma LevelBands(score: real)
    ensures GetScoreLevel(score) == Excellent <==> score >= 90.0
    ensures GetScoreLevel(score) == Good <==> 80.0 <= score < 90.0
    ensures GetScoreLevel(score) == Fair <==> 70.0 <= score < 80.0
    ensures GetScoreLevel(score) == NeedsImprovement <==> score < 70.0
    ensures GetScoreLevel(score).Label() in {"優秀", "良好", "普通", "要改善"}
  {
  }

  /** For every score, both colour functions give the same class, and it is the colour of the score's level. */
  lemma ColorsAgree(score: real)
    ensures GetScoreColor(score) == GetScoreLevelColor(score)
    ensures GetScoreColor(score).Rank() == GetScoreLevel(score).Rank()
  {
  }

  /** `default` for 優秀, `secondary` for 良好, and `destructive` for both 普通 and 要改善. */
  lemma BadgeOfLevel(score: real)
    ensures GetScoreBadgeVariant(score) == match GetScoreLevel(score)
      case Excellent => Default
      case Good => Secondary
      case Fair => Destructive
      case NeedsImprovement => Destructive
  {
  }

  /** The 普通 band gets the destructive badge although its level is not the lowest. */
  lemma FairScoresGetDestructiveBadge(score: real)
    requires 70.0 <= score < 80.0
    ensures GetScoreLevel(score) == Fair && GetScoreBadgeVariant(score) == Destructive
  {
  }

  /** Raising a score never moves any of the four functions to a worse band. */
  lemma Monotone(s1: real, s2: real)
    requires s1 <= s2
    ensures GetScoreColor(s2).Rank() <= GetScoreColor(s1).Rank()
    ensures GetScoreBadgeVariant(s2).Rank() <= GetScoreBadgeVariant(s1).Rank()
    ensures GetScoreLevel(s2).Rank() <= GetScoreLevel(s1).Rank()
    ensures GetScoreLevelColor(s2).Rank() <= GetScoreLevelColor(s1).Rank()
  {
  }
}
