/**
 * The mobile video player (components/mobile-video-player.tsx): play/pause
 * and restart controls, a clickable progress bar, and a "m:ss" time display.
 * The `<video>` element is modelled by its own fields (paused flag, playback
 * position); the component's state follows it through the element's events.
 */
module MobileVideoPlayer {
  import opened Wrappers
  import Text

  // ---------------------------------------------------------------------------
  // Time display

  /** `Math.floor(time / 60)`. */
  function Minutes(time: real): nat
    requires time >= 0.0
  {
    (time / 60.0).Floor
  }

  /** `Math.floor(time % 60)`: the whole seconds left after the whole minutes. */
  function Seconds(time: real): (seconds: nat)
    requires time >= 0.0
    ensures seconds < 60 && 60 * Minutes(time) + seconds == time.Floor
  {
    (time - 60.0 * Minutes(time) as real).Floor
  }

  /** The text `${minutes}:${seconds.toString().padStart(2, '0')}`. */
  function Clock(minutes: nat, seconds: nat): string {
    Text.NatToDecimal(minutes) + ":" + Text.PadStart2(Text.NatToDecimal(seconds))
  }

  /** `formatTime(time)` for a non-negative time in seconds. */
  function FormatTime(time: real): string
    requires time >= 0.0
  {
    Clock(Minutes(time), Seconds(time))
  }

  /** The total seconds a "m:ss" display stands for; None when it has no colon or a field is not decimal. */
  function ParseClock(s: string): Option<int> {
    match Text.FirstIndex(s, ':')
    case None => None
    case Some(k) =>
      match (Text.ParseNat(s[..k]), Text.ParseNat(s[k + 1..]))
      case (Some(m), Some(sec)) => Some(60 * m + sec)
      case _ => None
  }

  /** Decimal minutes, a colon, and a two-digit seconds field below 60. */
  predicate ClockShape(s: string) {
    var k := |s| - 3;
    k >= 1 && s[k] == ':' && Text.AllDigits(s[..k]) && Text.AllDigits(s[k + 1..]) &&
    Text.DecimalValue(s[k + 1..]) < 60
  }

  lemma LeadingZero(s: string)
    requires |s| == 1 && Text.AllDigits(s)
    ensures Text.AllDigits(['0'] + s) && Text.DecimalValue(['0'] + s) == Text.DecimalValue(s)
  {
    var t := ['0'] + s;
    assert t[..1] == "0";
    assert "0"[..0] == [];
  }

  /** The seconds field: two decimal digits that read back as the seconds. */
  lemma PaddedSeconds(seconds: nat)
    requires seconds < 60
    ensures var ss := Text.PadStart2(Text.NatToDecimal(seconds));
      |ss| == 2 && Text.AllDigits(ss) && Text.DecimalValue(ss) == seconds
  {
    var sd := Text.NatToDecimal(seconds);
    Text.DecimalValueOfRendering(seconds);
    if |sd| == 1 {
      LeadingZero(sd);
    }
  }

  /** The first colon of digits, a colon and a tail is the one after the digits. */
  lemma FirstColon(m: string, tail: string)
    requires Text.AllDigits(m)
    ensures Text.FirstIndex(m + ":" + tail, ':') == Some(|m|)
  {
    var s := m + ":" + tail;
    assert s[|m|] == ':';
    assert forall i :: 0 <= i < |m| ==> s[i] == m[i];
  }

  /** The two fields of a joined clock. */
  lemma JoinedFields(m: string, ss: string)
    requires |ss| == 2
    ensures var s := m + ":" + ss;
      |s| - 3 == |m| && s[|m|] == ':' && s[..|m|] == m && s[|m| + 1..] == ss
  {
  }

  /** Joining a decimal field and a two-digit field below 60 with a colon gives the clock shape. */
  lemma JoinedClockShape(m: string, ss: string)
    requires |m| >= 1 && Text.AllDigits(m)
    requires |ss| == 2 && Text.AllDigits(ss) && Text.DecimalValue(ss) < 60
    ensures ClockShape(m + ":" + ss)
  {
    JoinedFields(m, ss);
  }

  /** Such a clock reads back as 60 times the minutes plus the seconds. */
  lemma JoinedClockValue(m: string, ss: string, minutes: nat, seconds: nat)
    requires Text.ParseNat(m) == Some(minutes) && Text.ParseNat(ss) == Some(seconds) && |ss| == 2
    ensures ParseClock(m + ":" + ss) == Some(60 * minutes + seconds)
  {
    JoinedFields(m, ss);
    FirstColon(m, ss);
  }

  /** A display built from whole minutes and seconds below 60 has the clock shape and reads back as their total. */
  lemma ClockOfParts(minutes: nat, seconds: nat)
    requires seconds < 60
    ensures ClockShape(Clock(minutes, seconds))
    ensures ParseClock(Clock(minutes, seconds)) == Some(60 * minutes + seconds)
  {
    var m := Text.NatToDecimal(minutes);
    var ss := Text.PadStart2(Text.NatToDecimal(seconds));
    PaddedSeconds(seconds);
    Text.ParseRenderRoundTrip(minutes);
    JoinedClockShape(m, ss);
    JoinedClockValue(m, ss, minutes, seconds);
  }

  /**
   * Every display is minutes, a colon and a two-digit seconds field between 00
   * and 59, and reading it back gives the whole seconds of the time.
   */
  lemma FormatTimeShape(time: real)
    requires time >= 0.0
    ensures ClockShape(FormatTime(time))
    ensures ParseClock(FormatTime(time)) == Some(time.Floor)
  {
    ClockOfParts(Minutes(time), Seconds(time));
  }

  /** At time 0 the display reads "0:00", as in the player's initial "0:00 / 0:00". */
  lemma FormatTimeZero()
    ensures FormatTime(0.0) == "0:00"
  {
  }

  lemma FormatTimeExamples()
    ensures FormatTime(65.5) == "1:05"
    ensures FormatTime(59.99) == "0:59"
  {
  }

  // ---------------------------------------------------------------------------
  // Seeking

  /** `handleProgressClick`: a click x pixels into a bar of the given width seeks to that fraction of the duration. */
  function SeekTarget(x: real, width: real, duration: real): real
    requires width > 0.0
  {
    (x / width) * duration
  }

  /** A click inside the bar seeks inside [0, duration]; with the duration still 0 it seeks to 0. */
  lemma SeekTargetBounds(x: real, width: real, duration: real)
    requires width > 0.0 && duration >= 0.0
    ensures 0.0 <= x <= width ==> 0.0 <= SeekTarget(x, width, duration) <= duration
    ensures duration == 0.0 ==> SeekTarget(x, width, duration) == 0.0
    ensures x == width ==> SeekTarget(x, width, duration) == duration
    ensures x == 0.0 ==> SeekTarget(x, width, duration) == 0.0
  {
    if 0.0 <= x <= width {
      assert x / width <= 1.0;
      assert (x / width) * duration <= 1.0 * duration;
    }
  }

  // ---------------------------------------------------------------------------
  // The player

  class Player {
    /** Component state. */
    var isPlaying: bool
    var currentTime: real
    var duration: real
    /** The `<video>` element. */
    var mediaPaused: bool
    var mediaTime: real

    /** The component's `isPlaying` mirrors the element's paused flag (the events keep it). */
    ghost predicate Valid()
      reads this
    {
      isPlaying == !mediaPaused && duration >= 0.0
    }

    /** The initial state: not playing, time 0, duration 0, over a paused element at 0. */
    constructor ()
      ensures Valid()
      ensures !isPlaying && currentTime == 0.0 && duration == 0.0 && mediaPaused && mediaTime == 0.0
    {
      isPlaying := false;
      currentTime := 0.0;
      duration := 0.0;
      mediaPaused := true;
      mediaTime := 0.0;
    }

    /** The 'play' listener. */
    method OnPlay()
      modifies this`isPlaying
      ensures isPlaying
    {
      isPlaying := true;
    }

    /** The 'pause' listener. */
    method OnPause()
      modifies this`isPlaying
      ensures !isPlaying
    {
      isPlaying := false;
    }

    /** The 'timeupdate' listener. */
    method OnTimeUpdate()
      modifies this`currentTime
      ensures currentTime == mediaTime
    {
      currentTime := mediaTime;
    }

    /** The 'loadedmetadata' listener, for a known duration. */
    method OnLoadedMetadata(mediaDuration: real)
      requires mediaDuration >= 0.0
      modifies this`duration
      ensures duration == mediaDuration
    {
      duration := mediaDuration;
    }

    /** `video.play()`: a paused element starts and fires 'play'. */
    method MediaPlay()
      requires Valid()
      modifies this
      ensures Valid() && !mediaPaused && isPlaying
      ensures mediaTime == old(mediaTime) && currentTime == old(currentTime) && duration == old(duration)
    {
      if mediaPaused {
        mediaPaused := false;
        OnPlay();
      }
    }

    /** `video.pause()`: a playing element stops and fires 'pause'. */
    method MediaPause()
      requires Valid()
      modifies this
      ensures Valid() && mediaPaused && !isPlaying
      ensures mediaTime == old(mediaTime) && currentTime == old(currentTime) && duration == old(duration)
    {
      if !mediaPaused {
        mediaPaused := true;
        OnPause();
      }
    }

    /** `togglePlayPause`: pauses when playing, plays otherwise. */
    method TogglePlayPause()
      requires Valid()
      modifies this
      ensures Valid()
      ensures isPlaying == !old(isPlaying)
      ensures mediaTime == old(mediaTime) && currentTime == old(currentTime) && duration == old(duration)
    {
      if isPlaying {
        MediaPause();
      } else {
        MediaPlay();
      }
    }

    /** `restart`: back to 0 and playing. */
    method Restart()
      requires Valid()
      modifies this
      ensures Valid()
      ensures mediaTime == 0.0 && !mediaPaused && isPlaying
      ensures currentTime == old(currentTime) && duration == old(duration)
    {
      mediaTime := 0.0;
      MediaPlay();
    }

    /** `handleProgressClick`: seeks the element to the clicked fraction of the known duration. */
    method HandleProgressClick(x: real, width: real)
      requires Valid() && width > 0.0
      modifies this`mediaTime
      ensures Valid()
      ensures mediaTime == SeekTarget(x, width, duration)
      ensures 0.0 <= x <= width ==> 0.0 <= mediaTime <= duration
    {
      SeekTargetBounds(x, width, duration);
      mediaTime := SeekTarget(x, width, duration);
    }
  }
}
