/**
 * Sequences of events delivered to one window, with what they add up to.
 * Each method is a caller of the handlers and relies on their contracts only.
 */
module Scenarios {
  import opened Wrappers
  import opened Numbers
  import opened Playback
  import opened Shell
  import Paths

  /**
   * Entering and leaving fullscreen puts back the window state, size and
   * place, but the window is left borderless and resizable.
   */
  method ToggleTwice(w: MainWindow)
    requires w.Valid() && !w.isFullscreen
    modifies w
    ensures w.Valid() && !w.isFullscreen
    ensures w.CurrentGeometry() == old(w.CurrentGeometry())
    ensures w.windowStyle == StyleNone && w.resizeMode == CanResize
    ensures w.topBar == Visible && w.controlBar == Visible
  {
    w.ToggleFullscreen();
    w.ToggleFullscreen();
  }

  /** Two double clicks on the top bar: fullscreen and back, with the geometry put back as before. */
  method DoubleClickTopBarTwice(w: MainWindow)
    requires w.Valid() && !w.isFullscreen
    modifies w
    ensures w.Valid() && !w.isFullscreen
    ensures w.CurrentGeometry() == old(w.CurrentGeometry())
    ensures w.windowStyle == StyleNone && w.resizeMode == CanResize
  {
    w.TopBarMouseLeftButtonDown(2);
    assert w.windowState == Maximized;
    w.TopBarMouseLeftButtonDown(2);
  }

  /** Play/pause twice with a file loaded comes back to the same state, through one Pause and one Play. */
  method PlayPauseTwice(w: MainWindow)
    requires w.Valid() && w.media.source.Some?
    modifies w, w.media
    ensures w.Valid() && w.isPlaying == old(w.isPlaying)
    ensures w.media.commands == old(w.media.commands) +
      (if old(w.isPlaying) then [Command.Pause, Command.Play] else [Command.Play, Command.Pause])
  {
    w.PlayPauseClick();
    w.PlayPauseClick();
  }

  /** Skipping forward and back again returns to the same position, unless the end got in the way. */
  method SkipThenBack(w: MainWindow)
    requires w.Valid() && w.media.source.Some? && !w.isDraggingSlider
    requires w.media.duration.Some? ==> w.media.position + w.skipInterval <= w.media.duration.value
    modifies w, w.media
    ensures w.Valid()
    ensures w.media.position == old(w.media.position) && w.sliderValue == w.media.position
    ensures w.media.commands == old(w.media.commands) +
      [Command.SetPosition(old(w.media.position) + w.skipInterval), Command.SetPosition(old(w.media.position))]
  {
    w.SkipClick();
    w.BackClick();
  }

  /**
   * A drag: press, move the thumb to `value`, a timer tick, release. The tick
   * does not move the thumb back, and the engine is sent the new position on
   * the move and once more on the release.
   */
  method DragTo(w: MainWindow, value: int)
    requires w.Valid() && w.media.duration.Some? && value != w.sliderValue
    modifies w, w.media
    ensures w.Valid() && !w.isDraggingSlider
    ensures w.sliderValue == value && w.media.position == Clamp(value, w.media.duration)
    ensures w.media.commands == old(w.media.commands) + [Command.SetPosition(value), Command.SetPosition(value)]
  {
    w.SliderMouseDown();
    w.SetSliderValue(value);
    w.TimerTick();
    w.SliderMouseUp();
  }

  /**
   * Opening an existing file and the engine reporting it open: the engine is
   * told to play twice, once by the open and once by the opened event, and the
   * timer runs.
   */
  method OpenAndPlay(w: MainWindow, host: Host, path: string, naturalDuration: Option<nat>)
    requires w.Valid() && path != []
    requires ResolvePath(host, path).Some? && host.fileExists(ResolvePath(host, path).value)
    requires host.absoluteUri(ResolvePath(host, path).value).Some?
    modifies w, w.media
    ensures w.Valid() && w.isPlaying && w.timerRunning
    ensures w.media.source == host.absoluteUri(ResolvePath(host, path).value)
    ensures w.media.duration == naturalDuration
    ensures w.media.commands == old(w.media.commands) + [Command.Stop, Command.Play, Command.Play]
  {
    w.PlayFile(host, path);
    w.media.Open(naturalDuration);
    w.MediaOpened();
  }

  /** A file that does not exist changes neither the engine nor the playing state; only the error is shown. */
  method OpenMissingFile(w: MainWindow, host: Host, path: string)
    requires w.Valid() && path != [] && Paths.IsPathRooted(path) && !host.fileExists(path)
    modifies w, w.media
    ensures w.Valid() && unchanged(w.media)
    ensures w.isPlaying == old(w.isPlaying) && w.Track() == old(w.Track())
    ensures w.dialogs == old(w.dialogs) + [FileNotFound(path)]
  {
    w.PlayFile(host, path);
  }

  /** Opening the settings and applying them untouched keeps the skip interval. */
  method ApplyUntouchedSettings(w: MainWindow)
    requires w.Valid()
    modifies w
    ensures w.Valid() && w.skipInterval == old(w.skipInterval)
    ensures w.dialogs == old(w.dialogs) + [SkipIntervalSet(old(w.skipInterval))]
  {
    ghost var n := w.skipInterval;
    w.SettingsClick();
    assert w.skipIntervalBoxText == Int32ToString(n) && w.skipInterval == n;
    ParseToString(n);
    w.UpdateSkipIntervalClick();
  }

  /** After a failure mid-playback, a new file still opens and plays. */
  method FailThenReopen(w: MainWindow, host: Host, path: string, message: string)
    requires w.Valid() && path != []
    requires ResolvePath(host, path).Some? && host.fileExists(ResolvePath(host, path).value)
    requires host.absoluteUri(ResolvePath(host, path).value).Some?
    modifies w, w.media
    ensures w.Valid() && w.isPlaying
    ensures w.media.source == host.absoluteUri(ResolvePath(host, path).value)
    ensures w.dialogs == old(w.dialogs) + [PlaybackFailed(message)]
  {
    w.MediaFailed(message);
    w.PlayFile(host, path);
  }

  /**
   * A file that exists but whose path is not an absolute URI: the failure comes
   * after the window already counts as playing, so it is left playing with no
   * source, and play/pause then does nothing.
   */
  method OpenUnaddressableFile(w: MainWindow, host: Host, path: string)
    requires w.Valid() && path != []
    requires ResolvePath(host, path).Some? && host.fileExists(ResolvePath(host, path).value)
    requires host.absoluteUri(ResolvePath(host, path).value).None?
    modifies w, w.media
    ensures w.Valid() && w.isPlaying && w.PlayPauseToolTip() == "Pause"
    ensures w.media.source.None?
    ensures w.media.commands == old(w.media.commands) + [Command.Stop]
    ensures w.dialogs == old(w.dialogs) + [PlaybackInitError]
  {
    w.PlayFile(host, path);
    w.PlayPauseClick();
  }
}
