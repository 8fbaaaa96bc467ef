/** The bhajan playlist player: a track cursor, a playing flag and the position and length of the
    current track, updated by the control buttons and by the audio element's events. Times are whole
    seconds. */
module PlaylistPlayback {
  import opened Wrappers
  import opened Text
  import opened Schema

  // ---------------------------------------------------------------------------------------------
  // Displays

  /** `formatTime`: whole minutes, a colon, and the remaining seconds padded to two digits. */
  function FormatTime(t: nat): (s: string)
    ensures |s| >= 4 && s[|s| - 3] == ':'
    ensures AllDigits(s[..|s| - 3]) && AllDigits(s[|s| - 2..])
  {
    SecondsField(t);
    NatToString(t / 60) + ":" + PadStart(NatToString(t % 60), 2, '0')
  }

  /** Reads an `m:ss` display back as seconds. */
  function ParseTime(s: string): Option<nat>
  {
    var parts := Split(s, ':');
    if |parts| == 2 && AllDigits(parts[0]) && AllDigits(parts[1]) then Some(ParseNat(parts[0]) * 60 + ParseNat(parts[1]))
    else None
  }

  /** The seconds field always has exactly two digits. */
  lemma SecondsField(t: nat)
    ensures var ss := PadStart(NatToString(t % 60), 2, '0');
      |ss| == 2 && AllDigits(ss) && ParseNat(ss) == t % 60
  {
    var d := NatToString(t % 60);
    ParseNatToString(t % 60);
    if t % 60 < 10 {
      assert PadStart(d, 2, '0') == "0" + d;
      ParseNatLeadingZero(d);
    }
  }

  /** The display names the time: reading it back gives the seconds again. */
  lemma ParseFormatTime(t: nat)
    ensures ParseTime(FormatTime(t)) == Some(t)
  {
    var m := NatToString(t / 60);
    var ss := PadStart(NatToString(t % 60), 2, '0');
    SecondsField(t);
    assert ':' !in m && ':' !in ss by {
      assert forall i :: 0 <= i < |m| ==> IsDigit(m[i]);
      assert forall i :: 0 <= i < |ss| ==> IsDigit(ss[i]);
    }
    assert FormatTime(t) == NatToString(t / 60) + ":" + PadStart(NatToString(t % 60), 2, '0') == m + [':'] + ss;
    SplitAroundSeparator(m, ss, ':');
    ParseNatToString(t / 60);
  }

  /** The volume icon of a volume between 0 and 100. */
  function VolumeIcon(volume: int): (icon: string)
    ensures icon == "volume_off" <==> volume == 0
    ensures icon == "volume_down" <==> volume != 0 && volume < 50
    ensures icon == "volume_up" <==> volume != 0 && volume >= 50
  {
    if volume == 0 then "volume_off" else if volume < 50 then "volume_down" else "volume_up"
  }

  /** The icon beside a playlist entry: a pause sign on the track that is playing. */
  function EntryIcon(index: int, currentTrackIndex: int, isPlaying: bool): (icon: string)
    ensures icon == "pause_circle" <==> index == currentTrackIndex && isPlaying
  {
    if index == currentTrackIndex && isPlaying then "pause_circle" else "play_circle"
  }

  /** The title line: the current track's title, or a placeholder when there is none (or it is empty). */
  function TitleLine(bhajans: seq<Bhajan>, currentTrackIndex: int): (title: string)
    ensures 0 <= currentTrackIndex < |bhajans| && bhajans[currentTrackIndex].title != "" ==>
      title == bhajans[currentTrackIndex].title
    ensures !(0 <= currentTrackIndex < |bhajans| && bhajans[currentTrackIndex].title != "") ==> title == "No track selected"
  {
    if 0 <= currentTrackIndex < |bhajans| && bhajans[currentTrackIndex].title != "" then bhajans[currentTrackIndex].title
    else "No track selected"
  }

  // ---------------------------------------------------------------------------------------------
  // The player

  class PlaylistPlayer {
    const bhajans: seq<Bhajan>
    /** Whether the audio element is mounted (the handlers do nothing without it). */
    const hasAudio: bool
    var currentTrackIndex: int
    var isPlaying: bool
    var duration: nat
    var currentTime: nat
    var volume: int
    /** The audio element's own playback position. */
    var audioTime: nat

    /** The cursor is on a track, or at 0 when the playlist is empty. */
    predicate Valid()
      reads this
    {
      0 <= currentTrackIndex && (if bhajans == [] then currentTrackIndex == 0 else currentTrackIndex < |bhajans|)
    }

    constructor(bhajans: seq<Bhajan>, hasAudio: bool)
      ensures this.bhajans == bhajans && this.hasAudio == hasAudio && Valid()
      ensures currentTrackIndex == 0 && !isPlaying && duration == 0 && currentTime == 0 && volume == 80
      ensures audioTime == 0
    {
      this.bhajans := bhajans;
      this.hasAudio := hasAudio;
      currentTrackIndex := 0;
      isPlaying := false;
      duration := 0;
      currentTime := 0;
      volume := 80;
      audioTime := 0;
    }

    /** The effect that runs after the track changes: the element is rewound, and if the player was
        playing it starts the new track, which stops the player when starting fails. */
    method TrackChanged(playFails: bool)
      modifies this`audioTime, this`isPlaying
      ensures hasAudio ==> audioTime == 0 && isPlaying == (old(isPlaying) && !playFails)
      ensures !hasAudio ==> audioTime == old(audioTime) && isPlaying == old(isPlaying)
    {
      if hasAudio {
        audioTime := 0;
        if isPlaying && playFails {
          isPlaying := false;
        }
      }
    }

    /** Moves the cursor, running the track-change effect when the index actually changes. */
    method MoveTo(index: int, playFails: bool)
      requires bhajans == [] ==> index == 0
      requires bhajans != [] ==> 0 <= index < |bhajans|
      modifies this`currentTrackIndex, this`audioTime, this`isPlaying
      ensures Valid() && currentTrackIndex == index
      ensures index != old(currentTrackIndex) && hasAudio ==> audioTime == 0 && isPlaying == (old(isPlaying) && !playFails)
      ensures index == old(currentTrackIndex) || !hasAudio ==> audioTime == old(audioTime) && isPlaying == old(isPlaying)
    {
      var changed := index != currentTrackIndex;
      currentTrackIndex := index;
      if changed {
        TrackChanged(playFails);
      }
    }

    /** The play button: toggles the playing flag when the element is there. */
    method HandlePlay()
      modifies this`isPlaying
      ensures hasAudio ==> isPlaying == !old(isPlaying)
      ensures !hasAudio ==> isPlaying == old(isPlaying)
    {
      if hasAudio {
        isPlaying := !isPlaying;
      }
    }

    /** The element reports its position. */
    method HandleTimeUpdate()
      modifies this`currentTime
      ensures hasAudio ==> currentTime == audioTime
      ensures !hasAudio ==> currentTime == old(currentTime)
    {
      if hasAudio {
        currentTime := audioTime;
      }
    }

    /** The element reports the track's length. */
    method HandleLoadedMetadata(mediaDuration: nat)
      modifies this`duration
      ensures hasAudio ==> duration == mediaDuration
      ensures !hasAudio ==> duration == old(duration)
    {
      if hasAudio {
        duration := mediaDuration;
      }
    }

    /** The position slider moves both the element and the display. */
    method HandleSeek(value: nat)
      modifies this`audioTime, this`currentTime
      ensures hasAudio ==> audioTime == value && currentTime == value
      ensures !hasAudio ==> audioTime == old(audioTime) && currentTime == old(currentTime)
    {
      if hasAudio {
        audioTime := value;
        currentTime := value;
      }
    }

    /** The end of a track: the next one follows; after the last the player stops and rewinds. */
    method HandleEnded(playFails: bool)
      requires Valid()
      modifies this`currentTrackIndex, this`audioTime, this`isPlaying
      ensures Valid()
      ensures old(currentTrackIndex) < |bhajans| - 1 ==> currentTrackIndex == old(currentTrackIndex) + 1
      ensures old(currentTrackIndex) < |bhajans| - 1 && hasAudio ==> audioTime == 0 && isPlaying == (old(isPlaying) && !playFails)
      ensures old(currentTrackIndex) >= |bhajans| - 1 ==> currentTrackIndex == old(currentTrackIndex) && !isPlaying
      ensures old(currentTrackIndex) >= |bhajans| - 1 && hasAudio ==> audioTime == 0
    {
      if currentTrackIndex < |bhajans| - 1 {
        MoveTo(currentTrackIndex + 1, playFails);
      } else {
        isPlaying := false;
        if hasAudio {
          audioTime := 0;
        }
      }
    }

    /** The previous button: a no-op on the first track. */
    method HandlePrevious(playFails: bool)
      requires Valid()
      modifies this`currentTrackIndex, this`audioTime, this`isPlaying
      ensures Valid()
      ensures old(currentTrackIndex) > 0 ==> currentTrackIndex == old(currentTrackIndex) - 1
      ensures old(currentTrackIndex) > 0 && hasAudio ==> audioTime == 0 && isPlaying == (old(isPlaying) && !playFails)
      ensures old(currentTrackIndex) == 0 ==> currentTrackIndex == 0 && isPlaying == old(isPlaying) && audioTime == old(audioTime)
    {
      if currentTrackIndex > 0 {
        MoveTo(currentTrackIndex - 1, playFails);
      }
    }

    /** The next button: a no-op on the last track. */
    method HandleNext(playFails: bool)
      requires Valid()
      modifies this`currentTrackIndex, this`audioTime, this`isPlaying
      ensures Valid()
      ensures old(currentTrackIndex) < |bhajans| - 1 ==> currentTrackIndex == old(currentTrackIndex) + 1
      ensures old(currentTrackIndex) < |bhajans| - 1 && hasAudio ==> audioTime == 0 && isPlaying == (old(isPlaying) && !playFails)
      ensures old(currentTrackIndex) >= |bhajans| - 1 ==>
        currentTrackIndex == old(currentTrackIndex) && isPlaying == old(isPlaying) && audioTime == old(audioTime)
    {
      if currentTrackIndex < |bhajans| - 1 {
        MoveTo(currentTrackIndex + 1, playFails);
      }
    }

    /** A click on playlist entry `index`. */
    method SelectTrack(index: int, playFails: bool)
      requires 0 <= index < |bhajans|
      modifies this`currentTrackIndex, this`audioTime, this`isPlaying
      ensures Valid() && currentTrackIndex == index
      ensures index != old(currentTrackIndex) && hasAudio ==> audioTime == 0 && isPlaying == (old(isPlaying) && !playFails)
      ensures index == old(currentTrackIndex) || !hasAudio ==> audioTime == old(audioTime) && isPlaying == old(isPlaying)
    {
      MoveTo(index, playFails);
    }

    /** The volume slider. */
    method SetVolume(value: int)
      requires 0 <= value <= 100
      modifies this`volume
      ensures volume == value
    {
      volume := value;
    }
  }
}
