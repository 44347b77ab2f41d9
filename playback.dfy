/**
 * The playback engine the window drives (WPF's `MediaElement`), reduced to
 * the state the window reads and writes: the source, the position in whole
 * seconds, the natural duration once known, and a ghost log of the commands
 * it has been given. Decoding and rendering are not modelled.
 */
module Playback {
  import opened Wrappers

  datatype Command = Play | Pause | Stop | SetPosition(seconds: int)

  /**
   * Where the engine lands when asked to move to `target`: never before the
   * start, and never past the end once the duration is known.
   */
  function Clamp(target: int, duration: Option<nat>): (p: nat)
    ensures 0 <= target && (duration.None? || target <= duration.value) ==> p == target
    ensures duration.Some? ==> p <= duration.value
    ensures target <= 0 ==> p == 0
  {
    if target < 0 then 0
    else if duration.Some? && target > duration.value then duration.value
    else target
  }

  class MediaElement {
    var source: Option<string>
    var position: nat
    /** `NaturalDuration`: `Some` exactly when `HasTimeSpan` holds. */
    var duration: Option<nat>
    ghost var commands: seq<Command>

    constructor ()
      ensures source == None && position == 0 && duration == None && commands == []
    {
      source, position, duration := None, 0, None;
      commands := [];
    }

    method Play()
      modifies this`commands
      ensures commands == old(commands) + [Command.Play]
    {
      commands := commands + [Command.Play];
    }

    method Pause()
      modifies this`commands
      ensures commands == old(commands) + [Command.Pause]
    {
      commands := commands + [Command.Pause];
    }

    /** Stops playback and rewinds to the start. */
    method Stop()
      modifies this`commands, this`position
      ensures commands == old(commands) + [Command.Stop]
      ensures position == 0
    {
      commands := commands + [Command.Stop];
      position := 0;
    }

    /** Assigning `Position`. */
    method SetPosition(target: int)
      modifies this`commands, this`position
      ensures commands == old(commands) + [Command.SetPosition(target)]
      ensures position == Clamp(target, duration)
    {
      commands := commands + [Command.SetPosition(target)];
      position := Clamp(target, duration);
    }

    /** Assigning `Source`: the old media is closed and the new one is not yet opened. */
    method SetSource(uri: Option<string>)
      modifies this`source, this`duration, this`position
      ensures source == uri && duration == None && position == 0
    {
      source, duration, position := uri, None, 0;
    }

    /** The engine's own step: it has opened the media and knows its duration, or knows it has none. */
    method Open(naturalDuration: Option<nat>)
      modifies this`duration
      ensures duration == naturalDuration
    {
      duration := naturalDuration;
    }

    /** The engine's own step: playback has moved on to `seconds`. */
    method Advance(seconds: nat)
      requires duration.Some? ==> seconds <= duration.value
      modifies this`position
      ensures position == seconds
    {
      position := seconds;
    }
  }
}
