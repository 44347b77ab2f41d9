/**
 * The player window's shell: the fields of `MainWindow` and its event
 * handlers, one method per handler. The WPF widgets are reduced to the values
 * the handlers read and write; the playback engine is a `MediaElement`; the
 * file system and the tag reader are the `Host` each file-opening handler is
 * given. Message boxes are recorded in the ghost log `dialogs`.
 */
module Shell {
  import opened Wrappers
  import opened Numbers
  import opened Paths
  import opened TimeFormat
  import opened Metadata
  import opened Playback

  datatype WindowState = Normal | Minimized | Maximized
  /** `StyleNone` is WPF's `WindowStyle.None`. */
  datatype WindowStyle = StyleNone | SingleBorderWindow | ThreeDBorderWindow | ToolWindow
  datatype ResizeMode = NoResize | CanMinimize | CanResize | CanResizeWithGrip
  datatype Visibility = Visible | Hidden | Collapsed

  /** What the window saves before going fullscreen and puts back after. */
  datatype Geometry = Geometry(state: WindowState, width: real, height: real, top: real, left: real)

  datatype Key = Escape | OtherKey(code: nat)

  /** The message boxes the window shows. */
  datatype Dialog =
    | FileNotFound(path: string)
    | PlaybackInitError
    | SkipIntervalSet(seconds: int)
    | InvalidSkipInterval
    | PlaybackFailed(message: string)

  /**
   * The outside world of `PlayFile`: `Path.GetFullPath` (`None` when it throws),
   * `File.Exists`, `new Uri(path, UriKind.Absolute)` (`None` when it throws) and
   * the tag reader.
   */
  datatype Host = Host(
    fullPath: string -> Option<string>,
    fileExists: string -> bool,
    absoluteUri: string -> Option<string>,
    readTags: string -> TagRead)

  /** The path `PlayFile` goes on with: a rooted path as it is, any other one made absolute. */
  function ResolvePath(host: Host, path: string): Option<string>
  {
    if IsPathRooted(path) then Some(path) else host.fullPath(path)
  }

  const DefaultSkipInterval: int := 10
  const PauseGlyph: char := '\U{E769}'
  const PlayGlyph: char := '\U{E768}'
  const UnknownDurationText: string := "--:--"

  class MainWindow {
    const media: MediaElement

    var initialFile: Option<string>
    var skipInterval: int
    var isPlaying: bool
    var isFullscreen: bool
    var isDraggingSlider: bool
    /** Whether the 100 ms position timer is running. */
    var timerRunning: bool

    var windowState: WindowState
    var width: real
    var height: real
    var top: real
    var left: real
    var windowStyle: WindowStyle
    var resizeMode: ResizeMode

    var previousState: WindowState
    var previousWidth: real
    var previousHeight: real
    var previousTop: real
    var previousLeft: real

    var topBar: Visibility
    var controlBar: Visibility
    var audioInfoPanel: Visibility
    var emptyStateText: Visibility
    var settingsOverlay: Visibility

    var songTitleText: string
    var artistNameText: string
    var albumArt: Option<seq<Byte>>
    var currentTimeText: string
    var totalTimeText: string
    var sliderValue: int
    var sliderMaximum: nat
    var skipIntervalBoxText: string

    ghost var dialogs: seq<Dialog>

    /**
     * The skip interval is a positive `int`, and the two bars are collapsed
     * exactly in fullscreen.
     */
    ghost predicate Valid()
      reads this`skipInterval, this`isFullscreen, this`topBar, this`controlBar
    {
      0 < skipInterval <= MaxInt32 &&
      topBar == (if isFullscreen then Collapsed else Visible) &&
      controlBar == topBar
    }

    function CurrentGeometry(): Geometry
      reads this
    {
      Geometry(windowState, width, height, top, left)
    }

    function SavedGeometry(): Geometry
      reads this
    {
      Geometry(previousState, previousWidth, previousHeight, previousTop, previousLeft)
    }

    function Track(): TrackInfo
      reads this
    {
      TrackInfo(songTitleText, artistNameText, albumArt)
    }

    /**
     * The window as constructed; its layout comes from markup, which is not
     * part of this model, and is taken as the given geometry, visible bars, the
     * empty-state text shown and the settings and audio panels collapsed.
     */
    constructor (initialFile: Option<string>, geometry: Geometry, style: WindowStyle, resize: ResizeMode)
      ensures Valid() && fresh(media)
      ensures media.source == None && media.duration == None && media.position == 0 && media.commands == []
      ensures this.initialFile == initialFile && skipInterval == DefaultSkipInterval
      ensures !isPlaying && !isFullscreen && !isDraggingSlider && !timerRunning
      ensures CurrentGeometry() == geometry && windowStyle == style && resizeMode == resize
      ensures SavedGeometry() == Geometry(Normal, 0.0, 0.0, 0.0, 0.0)
      ensures emptyStateText == Visible && audioInfoPanel == Collapsed && settingsOverlay == Collapsed
      ensures sliderValue == 0 && dialogs == []
    {
      media := new MediaElement();
      this.initialFile := initialFile;
      skipInterval := DefaultSkipInterval;
      isPlaying, isFullscreen, isDraggingSlider, timerRunning := false, false, false, false;
      windowState, width, height, top, left := geometry.state, geometry.width, geometry.height, geometry.top, geometry.left;
      windowStyle, resizeMode := style, resize;
      previousState, previousWidth, previousHeight, previousTop, previousLeft := Normal, 0.0, 0.0, 0.0, 0.0;
      topBar, controlBar, audioInfoPanel, emptyStateText, settingsOverlay := Visible, Visible, Collapsed, Visible, Collapsed;
      songTitleText, artistNameText, albumArt := "", "", None;
      currentTimeText, totalTimeText := "00:00", "00:00";
      sliderValue, sliderMaximum := 0, 0;
      skipIntervalBoxText := "";
      dialogs := [];
    }

    /**
     * The play/pause button's glyph and tool tip. Every handler that changes
     * `isPlaying` refreshes the button straight after, so it always shows this.
     */
    function PlayPauseGlyph(): char
      reads this
    {
      if isPlaying then PauseGlyph else PlayGlyph
    }

    function PlayPauseToolTip(): string
      reads this
    {
      if isPlaying then "Pause" else "Play"
    }

    // ---------------------------------------------------------------- window and keys

    method SaveGeometry()
      modifies this`previousState, this`previousWidth, this`previousHeight, this`previousTop, this`previousLeft
      ensures SavedGeometry() == CurrentGeometry()
    {
      previousState := windowState;
      previousWidth := width;
      previousHeight := height;
      previousTop := top;
      previousLeft := left;
    }

    method RestoreGeometry()
      modifies this`windowState, this`width, this`height, this`top, this`left
      ensures CurrentGeometry() == SavedGeometry()
    {
      windowState := previousState;
      width := previousWidth;
      height := previousHeight;
      top := previousTop;
      left := previousLeft;
    }

    /**
     * What one toggle does: entering saves the geometry and makes the window
     * borderless, maximized and fixed-size; leaving puts the saved geometry
     * back and makes it resizable, but keeps the window style.
     */
    twostate predicate FullscreenToggled()
      reads this
    {
      isFullscreen == !old(isFullscreen) &&
      (isFullscreen ==>
        SavedGeometry() == old(CurrentGeometry()) &&
        windowState == Maximized && width == old(width) && height == old(height) && top == old(top) && left == old(left) &&
        windowStyle == StyleNone && resizeMode == NoResize) &&
      (!isFullscreen ==>
        CurrentGeometry() == old(SavedGeometry()) && SavedGeometry() == old(SavedGeometry()) &&
        windowStyle == old(windowStyle) && resizeMode == CanResize)
    }

    method ToggleFullscreen()
      requires Valid()
      modifies this`isFullscreen, this`windowState, this`width, this`height, this`top, this`left,
        this`windowStyle, this`resizeMode, this`previousState, this`previousWidth, this`previousHeight,
        this`previousTop, this`previousLeft, this`topBar, this`controlBar
      ensures Valid()
      ensures FullscreenToggled()
    {
      isFullscreen := !isFullscreen;
      if isFullscreen {
        SaveGeometry();
        windowStyle := StyleNone;
        windowState := Maximized;
        resizeMode := NoResize;
        topBar := Collapsed;
        controlBar := Collapsed;
      } else {
        RestoreGeometry();
        resizeMode := CanResize;
        topBar := Visible;
        controlBar := Visible;
      }
    }

    /** Escape leaves fullscreen; no key enters it. */
    method KeyDown(key: Key)
      requires Valid()
      modifies this`isFullscreen, this`windowState, this`width, this`height, this`top, this`left,
        this`windowStyle, this`resizeMode, this`previousState, this`previousWidth, this`previousHeight,
        this`previousTop, this`previousLeft, this`topBar, this`controlBar
      ensures Valid()
      ensures !isFullscreen || old(isFullscreen)
      ensures key == Escape && old(isFullscreen) ==>
        !isFullscreen && CurrentGeometry() == old(SavedGeometry()) && resizeMode == CanResize &&
        windowStyle == old(windowStyle)
      ensures !(key == Escape && old(isFullscreen)) ==> unchanged(this)
    {
      if key == Escape && isFullscreen {
        ToggleFullscreen();
      }
    }

    /** A double click on the top bar toggles fullscreen; a single click drags the window, which is not modelled. */
    method TopBarMouseLeftButtonDown(clickCount: nat)
      requires Valid()
      modifies this`isFullscreen, this`windowState, this`width, this`height, this`top, this`left,
        this`windowStyle, this`resizeMode, this`previousState, this`previousWidth, this`previousHeight,
        this`previousTop, this`previousLeft, this`topBar, this`controlBar
      ensures Valid()
      ensures clickCount == 2 ==> FullscreenToggled()
      ensures clickCount != 2 ==> unchanged(this)
    {
      if clickCount == 2 {
        ToggleFullscreen();
        return;
      }
    }

    /** A double click on the video toggles fullscreen. */
    method MediaMouseLeftButtonDown(clickCount: nat)
      requires Valid()
      modifies this`isFullscreen, this`windowState, this`width, this`height, this`top, this`left,
        this`windowStyle, this`resizeMode, this`previousState, this`previousWidth, this`previousHeight,
        this`previousTop, this`previousLeft, this`topBar, this`controlBar
      ensures Valid()
      ensures clickCount == 2 ==> FullscreenToggled()
      ensures clickCount != 2 ==> unchanged(this)
    {
      if clickCount == 2 {
        ToggleFullscreen();
      }
    }

    // ---------------------------------------------------------------- file opening and metadata

    method UpdateMetadata(host: Host, path: string)
      modifies this`audioInfoPanel, this`songTitleText, this`artistNameText, this`albumArt
      ensures IsAudio(path) ==> audioInfoPanel == Visible && Track() == TrackInfoFor(path, host.readTags(path))
      ensures !IsAudio(path) ==> audioInfoPanel == Collapsed && Track() == old(Track())
    {
      if IsAudio(path) {
        audioInfoPanel := Visible;
        var info := TrackInfoFor(path, host.readTags(path));
        songTitleText, artistNameText, albumArt := info.title, info.artist, info.albumArt;
      } else {
        audioInfoPanel := Collapsed;
      }
    }

    /** The effect `PlayFile(host, filePath)` has on the window and on the engine. */
    twostate predicate PlayedFile(host: Host, filePath: string)
      reads this, media
    {
      var resolved := ResolvePath(host, filePath);
      if filePath == [] then
        unchanged(this) && unchanged(media)
      else if resolved.None? || !host.fileExists(resolved.value) then
        dialogs == old(dialogs) + [if resolved.None? then PlaybackInitError else FileNotFound(resolved.value)] &&
        unchanged(media) &&
        isPlaying == old(isPlaying) && emptyStateText == old(emptyStateText) &&
        audioInfoPanel == old(audioInfoPanel) && Track() == old(Track())
      else
        var path := resolved.value;
        var uri := host.absoluteUri(path);
        isPlaying && emptyStateText == Collapsed &&
        (IsAudio(path) ==> audioInfoPanel == Visible && Track() == TrackInfoFor(path, host.readTags(path))) &&
        (!IsAudio(path) ==> audioInfoPanel == Collapsed && Track() == old(Track())) &&
        media.source == uri && media.duration == None && media.position == 0 &&
        media.commands == old(media.commands) + (if uri.Some? then [Command.Stop, Command.Play] else [Command.Stop]) &&
        dialogs == old(dialogs) + (if uri.Some? then [] else [PlaybackInitError])
    }

    method PlayFile(host: Host, filePath: string)
      requires Valid()
      modifies this`isPlaying, this`emptyStateText,
        this`audioInfoPanel, this`songTitleText, this`artistNameText, this`albumArt, this`dialogs,
        media`source, media`duration, media`position, media`commands
      ensures Valid()
      ensures PlayedFile(host, filePath)
    {
      if filePath == [] {
        return;
      }
      var resolved := ResolvePath(host, filePath);
      if resolved.None? {
        dialogs := dialogs + [PlaybackInitError];
        return;
      }
      var path := resolved.value;
      if !host.fileExists(path) {
        dialogs := dialogs + [FileNotFound(path)];
        return;
      }
      StartPlayback(host, path);
    }

    /** The part of `PlayFile` after the path has been checked. */
    method StartPlayback(host: Host, path: string)
      modifies this`isPlaying, this`emptyStateText, this`audioInfoPanel, this`songTitleText,
        this`artistNameText, this`albumArt, this`dialogs, media`source, media`duration, media`position, media`commands
      ensures isPlaying && emptyStateText == Collapsed
      ensures IsAudio(path) ==> audioInfoPanel == Visible && Track() == TrackInfoFor(path, host.readTags(path))
      ensures !IsAudio(path) ==> audioInfoPanel == Collapsed && Track() == old(Track())
      ensures var uri := host.absoluteUri(path);
        media.source == uri && media.duration == None && media.position == 0 &&
        media.commands == old(media.commands) + (if uri.Some? then [Command.Stop, Command.Play] else [Command.Stop]) &&
        dialogs == old(dialogs) + (if uri.Some? then [] else [PlaybackInitError])
    {
      UpdateMetadata(host, path);
      emptyStateText := Collapsed;
      isPlaying := true;
      LoadSource(host, path);
    }

    /** Stops the engine, replaces its source with the file's URI and plays it; reports a path that is no URI. */
    method LoadSource(host: Host, path: string)
      modifies this`dialogs, media`source, media`duration, media`position, media`commands
      ensures var uri := host.absoluteUri(path);
        media.source == uri && media.duration == None && media.position == 0 &&
        media.commands == old(media.commands) + (if uri.Some? then [Command.Stop, Command.Play] else [Command.Stop]) &&
        dialogs == old(dialogs) + (if uri.Some? then [] else [PlaybackInitError])
    {
      media.Stop();
      media.SetSource(None);
      var uri := host.absoluteUri(path);
      if uri.None? {
        dialogs := dialogs + [PlaybackInitError];
        return;
      }
      media.SetSource(uri);
      media.Play();
    }

    /** On load, the file named on the command line, if any, is opened. */
    method Loaded(host: Host)
      requires Valid()
      modifies this`isPlaying, this`emptyStateText,
        this`audioInfoPanel, this`songTitleText, this`artistNameText, this`albumArt, this`dialogs,
        media`source, media`duration, media`position, media`commands
      ensures Valid()
      ensures initialFile.Some? && initialFile.value != [] ==> PlayedFile(host, initialFile.value)
      ensures initialFile.None? || initialFile.value == [] ==> unchanged(this) && unchanged(media)
    {
      if initialFile.Some? && initialFile.value != [] {
        PlayFile(host, initialFile.value);
      }
    }

    /** The open-file dialog: `chosen` is the file picked, `None` when it is cancelled. */
    method OpenMediaClick(host: Host, chosen: Option<string>)
      requires Valid()
      modifies this`isPlaying, this`emptyStateText,
        this`audioInfoPanel, this`songTitleText, this`artistNameText, this`albumArt, this`dialogs,
        media`source, media`duration, media`position, media`commands
      ensures Valid()
      ensures chosen.Some? ==> PlayedFile(host, chosen.value)
      ensures chosen.None? ==> unchanged(this) && unchanged(media)
    {
      if chosen.Some? {
        PlayFile(host, chosen.value);
      }
    }

    // ---------------------------------------------------------------- skip settings

    /** Opening the settings shows the current interval in the box. */
    method SettingsClick()
      requires Valid()
      modifies this`settingsOverlay, this`skipIntervalBoxText
      ensures settingsOverlay == Visible && skipIntervalBoxText == Int32ToString(skipInterval)
    {
      settingsOverlay := Visible;
      skipIntervalBoxText := Int32ToString(skipInterval);
    }

    method CloseSettingsClick()
      modifies this`settingsOverlay
      ensures settingsOverlay == Collapsed
    {
      settingsOverlay := Collapsed;
    }

    /** The user's own step: typing into the skip-interval box. */
    method EditSkipIntervalBox(text: string)
      modifies this`skipIntervalBoxText
      ensures skipIntervalBoxText == text
    {
      skipIntervalBoxText := text;
    }

    /** The interval changes exactly when the box holds an `int` greater than zero. */
    method UpdateSkipIntervalClick()
      requires Valid()
      modifies this`skipInterval, this`dialogs
      ensures Valid()
      ensures var parsed := TryParseInt32(skipIntervalBoxText);
        if parsed.Some? && parsed.value > 0 then
          skipInterval == parsed.value && dialogs == old(dialogs) + [SkipIntervalSet(parsed.value)]
        else
          skipInterval == old(skipInterval) && dialogs == old(dialogs) + [InvalidSkipInterval]
    {
      var parsed := TryParseInt32(skipIntervalBoxText);
      if parsed.Some? && parsed.value > 0 {
        skipInterval := parsed.value;
        dialogs := dialogs + [SkipIntervalSet(parsed.value)];
      } else {
        dialogs := dialogs + [InvalidSkipInterval];
      }
    }

    // ---------------------------------------------------------------- transport

    method PlayPauseClick()
      requires Valid()
      modifies this`isPlaying, media`commands
      ensures Valid()
      ensures media.source.None? ==> unchanged(this) && unchanged(media)
      ensures media.source.Some? ==>
        isPlaying == !old(isPlaying) &&
        media.commands == old(media.commands) + [if old(isPlaying) then Command.Pause else Command.Play]
    {
      if media.source.None? {
        return;
      }
      if isPlaying {
        media.Pause();
        isPlaying := false;
      } else {
        media.Play();
        isPlaying := true;
      }
    }

    /** The seek a slider value change issues, if any. */
    function SliderSeeks(oldValue: int, value: int): seq<Command>
      reads this, media
    {
      if value != oldValue && isDraggingSlider && media.duration.Some? then [Command.SetPosition(value)] else []
    }

    /**
     * Assigning `timelineSlider.Value`, by the user or by code. When the value
     * changes WPF raises `ValueChanged`, whose handler seeks while the slider is
     * being dragged and the duration is known.
     */
    method SetSliderValue(value: int)
      modifies this`sliderValue, media`position, media`commands
      ensures sliderValue == value
      ensures media.commands == old(media.commands) + old(SliderSeeks(sliderValue, value))
      ensures old(SliderSeeks(sliderValue, value)) == [] ==> unchanged(media)
      ensures old(SliderSeeks(sliderValue, value)) != [] ==> media.position == Clamp(value, media.duration)
    {
      var changed := value != sliderValue;
      sliderValue := value;
      if changed && isDraggingSlider && media.duration.Some? {
        media.SetPosition(value);
      }
    }

    /** Moves back by the skip interval; the slider follows the position the engine lands on. */
    method BackClick()
      requires Valid()
      modifies this`sliderValue, media`position, media`commands
      ensures Valid()
      ensures old(media.source).None? ==> unchanged(this) && unchanged(media)
      ensures old(media.source).Some? ==>
        media.position == Clamp(old(media.position) - skipInterval, media.duration) &&
        sliderValue == media.position &&
        media.commands == old(media.commands) + [Command.SetPosition(old(media.position) - skipInterval)]
          + old(SliderSeeks(sliderValue, Clamp(media.position - skipInterval, media.duration)))
    {
      if media.source.None? {
        return;
      }
      media.SetPosition(media.position - skipInterval);
      SetSliderValue(media.position);
    }

    /** Moves forward by the skip interval; the slider follows the position the engine lands on. */
    method SkipClick()
      requires Valid()
      modifies this`sliderValue, media`position, media`commands
      ensures Valid()
      ensures old(media.source).None? ==> unchanged(this) && unchanged(media)
      ensures old(media.source).Some? ==>
        media.position == Clamp(old(media.position) + skipInterval, media.duration) &&
        sliderValue == media.position &&
        media.commands == old(media.commands) + [Command.SetPosition(old(media.position) + skipInterval)]
          + old(SliderSeeks(sliderValue, Clamp(media.position + skipInterval, media.duration)))
    {
      if media.source.None? {
        return;
      }
      media.SetPosition(media.position + skipInterval);
      SetSliderValue(media.position);
    }

    /** Stops whether or not a file is loaded, and leaves the timer running. */
    method StopClick()
      requires Valid()
      modifies this`isPlaying, media`commands, media`position
      ensures Valid()
      ensures !isPlaying && timerRunning == old(timerRunning)
      ensures media.commands == old(media.commands) + [Command.Stop] && media.position == 0
    {
      media.Stop();
      isPlaying := false;
    }

    // ---------------------------------------------------------------- timer and slider

    /** A tick copies the position to the slider and the time text, unless a drag is on or the duration is unknown. */
    method TimerTick()
      modifies this`sliderValue, this`currentTimeText, media`position, media`commands
      ensures unchanged(media)
      ensures !isDraggingSlider && media.duration.Some? ==>
        sliderValue == media.position && currentTimeText == FormatTime(media.position)
      ensures isDraggingSlider || media.duration.None? ==> unchanged(this)
    {
      if !isDraggingSlider && media.duration.Some? {
        SetSliderValue(media.position);
        currentTimeText := FormatTime(media.position);
      }
    }

    method SliderMouseDown()
      modifies this`isDraggingSlider
      ensures isDraggingSlider
    {
      isDraggingSlider := true;
    }

    /** Releasing the slider ends the drag and, once the duration is known, seeks to the slider's value. */
    method SliderMouseUp()
      modifies this`isDraggingSlider, media`position, media`commands
      ensures !isDraggingSlider
      ensures media.duration.None? ==> unchanged(media)
      ensures media.duration.Some? ==>
        media.commands == old(media.commands) + [Command.SetPosition(sliderValue)] &&
        media.position == Clamp(sliderValue, media.duration)
    {
      isDraggingSlider := false;
      if media.duration.Some? {
        media.SetPosition(sliderValue);
      }
    }

    // ---------------------------------------------------------------- engine events

    /** The media has opened: show its length, play again if playing, and start the timer. */
    method MediaOpened()
      requires Valid()
      modifies this`sliderMaximum, this`totalTimeText, this`timerRunning, media`commands
      ensures Valid()
      ensures timerRunning
      ensures media.duration.Some? ==>
        sliderMaximum == media.duration.value && totalTimeText == FormatTime(media.duration.value)
      ensures media.duration.None? ==> totalTimeText == UnknownDurationText && sliderMaximum == old(sliderMaximum)
      ensures media.commands == old(media.commands) + (if isPlaying then [Command.Play] else [])
    {
      if media.duration.Some? {
        sliderMaximum := media.duration.value;
        totalTimeText := FormatTime(media.duration.value);
      } else {
        totalTimeText := UnknownDurationText;
      }
      if isPlaying {
        media.Play();
      }
      timerRunning := true;
    }

    /** The media has played to its end: stop, rewind the slider, and stop the timer. */
    method MediaEnded()
      requires Valid()
      modifies this`isPlaying, this`sliderValue,
        this`timerRunning, media`commands, media`position
      ensures Valid()
      ensures !isPlaying && !timerRunning && sliderValue == 0 && media.position == 0
      ensures media.commands == old(media.commands) + [Command.Stop]
        + (if old(sliderValue) != 0 && isDraggingSlider && media.duration.Some? then [Command.SetPosition(0)] else [])
    {
      media.Stop();
      isPlaying := false;
      SetSliderValue(0);
      timerRunning := false;
    }

    /** Playback failed: report it and stop counting as playing; the timer and the source stay. */
    method MediaFailed(message: string)
      requires Valid()
      modifies this`isPlaying, this`dialogs
      ensures Valid()
      ensures !isPlaying && timerRunning == old(timerRunning)
      ensures dialogs == old(dialogs) + [PlaybackFailed(message)]
    {
      dialogs := dialogs + [PlaybackFailed(message)];
      isPlaying := false;
    }
  }
}
