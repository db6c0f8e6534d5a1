/** The player hook: the last reported widget state, clock reading and duration,
    the readiness guard around every widget command, and the loop-back decision
    taken on each clock reading. Commands sent to the widget are kept in a log;
    times are integer milliseconds on both sides of the widget. */
module PlayerHook {
  import opened Types

  /** A command sent to the video widget. */
  datatype Command = Play | Pause | Seek(ms: int)

  /** The seek a clock reading `time` triggers: the loop start, when looping is on,
      both bounds are set, they form a non-empty range, the reading is at or past
      its end and a ready widget is attached. */
  function LoopSeek(time: int, loopStart: Option<int>, loopEnd: Option<int>, isLooping: bool, canCommand: bool): (r: Option<int>)
    ensures r.Some? ==> r == loopStart && r.value < time
  {
    if isLooping && loopStart.Some? && loopEnd.Some? && loopStart.value < loopEnd.value then
      if time >= loopEnd.value then
        if canCommand then loopStart else None
      else None
    else None
  }

  /** A missing bound or an empty or inverted range never loops back, whatever the reading. */
  lemma InvalidRangeNeverSeeks(time: int, loopStart: Option<int>, loopEnd: Option<int>, isLooping: bool, canCommand: bool)
    requires loopStart.None? || loopEnd.None? || loopStart.value >= loopEnd.value
    ensures LoopSeek(time, loopStart, loopEnd, isLooping, canCommand) == None
  {
  }

  /** Exactly the readings at or past the end of a valid range loop back, and only to its start. */
  lemma SeekIff(time: int, s: int, e: int, canCommand: bool)
    requires s < e && canCommand
    ensures LoopSeek(time, Some(s), Some(e), true, canCommand) == (if time >= e then Some(s) else None)
  {
  }

  /** The seek lands inside the range, so the reading that follows it does not loop again. */
  lemma SeekSettles(time: int, loopStart: Option<int>, loopEnd: Option<int>, isLooping: bool, canCommand: bool)
    requires LoopSeek(time, loopStart, loopEnd, isLooping, canCommand).Some?
    ensures LoopSeek(loopStart.value, loopStart, loopEnd, isLooping, canCommand) == None
  {
  }

  /** Looping over 2000..5000 ms: a reading of 5000 seeks to 2000, a reading of 4999 does not seek. */
  lemma LoopScenario()
    ensures LoopSeek(5000, Some(2000), Some(5000), true, true) == Some(2000)
    ensures LoopSeek(4999, Some(2000), Some(5000), true, true) == None
  {
  }

  /** The command `togglePlayPause` sends for the last reported state. */
  function ToggleCommand(state: int): (c: Command)
    ensures c == Pause <==> state == PLAYING
    ensures c == Play <==> state != PLAYING
  {
    if state == PLAYING then Pause else Play
  }

  /** The state of one player hook. `attached` stands for a non-null `player`. */
  class PlayerController {
    var attached: bool
    var playerState: int
    var currentTime: int
    var duration: int
    var isReady: bool
    var issued: seq<Command>

    /** No command is ever sent before a widget is attached and ready. */
    predicate Valid()
      reads this
    {
      issued != [] ==> CanCommand()
    }

    predicate CanCommand()
      reads this
    {
      attached && isReady
    }

    constructor ()
      ensures Valid()
      ensures !attached && !isReady
      ensures playerState == UNSTARTED && currentTime == 0 && duration == 0
      ensures issued == []
    {
      attached := false;
      playerState := UNSTARTED;
      currentTime := 0;
      duration := 0;
      isReady := false;
      issued := [];
    }

    /** The widget is attached and ready; `reportedDuration` is None when asking
        the widget for its duration failed, which leaves the duration as it was. */
    method HandlePlayerReady(reportedDuration: Option<int>)
      requires Valid()
      modifies this
      ensures Valid() && CanCommand()
      ensures duration == reportedDuration.GetOr(old(duration))
      ensures playerState == old(playerState) && currentTime == old(currentTime)
      ensures issued == old(issued)
    {
      attached := true;
      isReady := true;
      if reportedDuration.Some? {
        duration := reportedDuration.value;
      }
    }

    /** Stores the reported widget state as it is. */
    method HandleStateChange(state: int)
      requires Valid()
      modifies this
      ensures Valid()
      ensures playerState == state
      ensures attached == old(attached) && isReady == old(isReady)
      ensures currentTime == old(currentTime) && duration == old(duration) && issued == old(issued)
    {
      playerState := state;
    }

    /** Stores the clock reading and, when it has reached the end of a valid loop
        range, seeks back to the loop start: at most one command per reading. */
    method HandleTimeUpdate(time: int, loopStart: Option<int>, loopEnd: Option<int>, isLooping: bool)
      requires Valid()
      modifies this
      ensures Valid()
      ensures currentTime == time
      ensures var seek := LoopSeek(time, loopStart, loopEnd, isLooping, old(CanCommand()));
        issued == old(issued) + (if seek.Some? then [Seek(seek.value)] else [])
      ensures |old(issued)| <= |issued| <= |old(issued)| + 1
      ensures attached == old(attached) && isReady == old(isReady)
      ensures playerState == old(playerState) && duration == old(duration)
    {
      currentTime := time;
      if isLooping && loopStart.Some? && loopEnd.Some? && loopStart.value < loopEnd.value {
        if time >= loopEnd.value {
          if attached && isReady {
            issued := issued + [Seek(loopStart.value)];
          }
        }
      }
    }

    /** Starts playback, if a ready widget is attached. */
    method PlayVideo()
      requires Valid()
      modifies this
      ensures Valid()
      ensures issued == old(issued) + (if old(CanCommand()) then [Play] else [])
      ensures attached == old(attached) && isReady == old(isReady)
      ensures playerState == old(playerState) && currentTime == old(currentTime) && duration == old(duration)
    {
      if attached && isReady {
        issued := issued + [Play];
      }
    }

    /** Pauses playback, if a ready widget is attached. */
    method PauseVideo()
      requires Valid()
      modifies this
      ensures Valid()
      ensures issued == old(issued) + (if old(CanCommand()) then [Pause] else [])
      ensures attached == old(attached) && isReady == old(isReady)
      ensures playerState == old(playerState) && currentTime == old(currentTime) && duration == old(duration)
    {
      if attached && isReady {
        issued := issued + [Pause];
      }
    }

    /** Seeks to `ms`, if a ready widget is attached. */
    method SeekTo(ms: int)
      requires Valid()
      modifies this
      ensures Valid()
      ensures issued == old(issued) + (if old(CanCommand()) then [Seek(ms)] else [])
      ensures attached == old(attached) && isReady == old(isReady)
      ensures playerState == old(playerState) && currentTime == old(currentTime) && duration == old(duration)
    {
      if attached && isReady {
        issued := issued + [Seek(ms)];
      }
    }

    /** Pauses when the last reported state is PLAYING, and plays otherwise. */
    method TogglePlayPause()
      requires Valid()
      modifies this
      ensures Valid()
      ensures issued == old(issued) + (if old(CanCommand()) then [ToggleCommand(old(playerState))] else [])
      ensures attached == old(attached) && isReady == old(isReady)
      ensures playerState == old(playerState) && currentTime == old(currentTime) && duration == old(duration)
    {
      if playerState == PLAYING {
        PauseVideo();
      } else {
        PlayVideo();
      }
    }
  }
}
