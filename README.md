# Paperwatch player shell in Dafny

Paperwatch is a desktop media player. Its main window, `MainWindow` in
`PaperwatchWPF/MainWindow.xaml.cs`, opens an audio or video file and hands it
to WPF's `MediaElement`. It shows the title, artist and cover art of audio
files, and offers play/pause, stop, back and skip by a configurable interval,
a seek slider fed by a 100 ms timer, and a fullscreen mode that saves and
restores the window's geometry.

This project models that window as a state machine:

- `Shell.MainWindow` (main_window.dfy) is a class with the window's own
  fields (`isPlaying`, `isFullscreen`, `isDraggingSlider`, `skipInterval`, the
  saved `previous*` geometry, the timer's running flag) and the widget values
  the handlers read and write (bars and panels, texts, the slider value). Each
  event handler is a method whose `modifies` clause names exactly the fields it
  may change, and whose `ensures` clauses give the new values. `Valid()` is the
  invariant every handler keeps: the skip interval is a positive `int`, and the
  top and control bars are collapsed exactly in fullscreen.
- `Playback.MediaElement` (playback.dfy) is the engine, kept abstract. It holds
  the source, the position in whole seconds and the natural duration once
  known. A ghost log `commands` records every Play, Pause, Stop and position
  set, so contracts can say which commands a handler issued. Message boxes
  are recorded the same way, in the window's ghost log `dialogs`.
- `Shell.Host` stands for the outside world of file opening:
  `Path.GetFullPath`, `File.Exists`, `new Uri(path, UriKind.Absolute)` and the
  tag reader. Each is a function the caller supplies. An operation that throws
  is a `None` result, or `TagRead.Unreadable` for the tag reader.
- The pure helpers are functions:
  - `TimeFormat.FormatTime` is the time display.
  - `Metadata.IsAudio` and `Metadata.TrackInfoFor` are the audio test and the title/artist/cover fallback.
  - `Numbers` holds `int.TryParse` and `Int32.ToString`, which the skip-interval settings use.
  - `Paths` holds the parts of `System.IO.Path` that the handlers call.
- `Scenarios` (scenarios.dfy) holds client methods that chain handlers. Each
  one proves what the combined sequence does, using only the handlers'
  contracts.

Engine assumptions the model makes:

- Assigning `Position` never lands before 0, and never past the end once the duration is known (`Playback.Clamp`).
- `Stop` rewinds to 0.
- Assigning `Source` closes the old media, so the duration is unknown until the engine opens the new one.
- The engine's own steps are `MediaElement.Open` (which raises `MediaOpened` afterwards) and `MediaElement.Advance` (playback moving on).

Assigning `timelineSlider.Value` raises WPF's `ValueChanged` event when the
value changes. The model captures this with `MainWindow.SetSliderValue`, which
runs the `timelineSlider_ValueChanged` handler. That method is used both for the
user dragging the thumb and for the handlers that assign the slider (`Back`,
`Skip`, the timer tick, `MediaEnded`).

Some behaviour is kept as the code has it, although a cleaner player would differ:

- Opening a file issues Play, and `MediaOpened` issues it again while `isPlaying` holds (`Scenarios.OpenAndPlay`).
- Every value change during a drag seeks, and so does the release: a drag sends at least two position sets (`Scenarios.DragTo`).
- `MediaFailed` stops neither the timer nor the source.
- `MediaOpened` starts the timer whether or not the window is playing.
- Leaving fullscreen does not restore the window style, and it forces `CanResize` (`Scenarios.ToggleTwice`).
- `Stop` neither checks for a source nor stops the timer.
- A file that exists but whose path is not an absolute URI leaves the window counting as playing with no source (`Scenarios.OpenUnaddressableFile`).
- Times of a day or more lose their days in the display (`TimeFormat.FormatTimeDropsDays`).

## Model

| member | source | states |
|---|---|---|
| `Numbers.TryParseInt32` | PaperwatchWPF/MainWindow.xaml.cs:177 | `int.TryParse` succeeds only with a value inside the 32-bit range |
| `Numbers.Int32ToString` | PaperwatchWPF/MainWindow.xaml.cs:167 | the text shown for the interval is non-empty and has no white space at either end |
| `Numbers.ParseToStringRoundTrip` | PaperwatchWPF/MainWindow.xaml.cs:177 | the box text written by `ToString` parses back to the same number, with any white space around it |
| `Numbers.ParseToString` | PaperwatchWPF/MainWindow.xaml.cs:167 | the settings box as filled by `Settings_Click` parses back to the current interval |
| `Numbers.NoDigitsNoNumber` | PaperwatchWPF/MainWindow.xaml.cs:177 | text with no decimal digit is rejected, e.g. the empty box |
| `Numbers.NatToStringValue` | PaperwatchWPF/MainWindow.xaml.cs:167 | the decimal digits written for a number denote that number |
| `Paths.GetExtension` | PaperwatchWPF/MainWindow.xaml.cs:83 | the extension is empty, or a dot with at least one more character and no further dot or separator, and the path ends with it |
| `Paths.ExtensionIffSuffix` | PaperwatchWPF/MainWindow.xaml.cs:83 | `GetExtension` returns an extension exactly when the path ends with it |
| `Paths.ExtensionOfLower` | PaperwatchWPF/MainWindow.xaml.cs:83 | lower-casing before or after taking the extension gives the same text |
| `Paths.GetFileName` | PaperwatchWPF/MainWindow.xaml.cs:93 | the file name ends the path and holds no separator |
| `Paths.GetFileNameWithoutExtension` | PaperwatchWPF/MainWindow.xaml.cs:113 | the fallback title holds no separator |
| `Paths.StemThenExtension` | PaperwatchWPF/MainWindow.xaml.cs:93 | the name without extension followed by the extension is the file name, for a path not ending in a dot |
| `TimeFormat.FormatTimeReadsBack` | PaperwatchWPF/MainWindow.xaml.cs:369-374 | the contract of `FormatTime`: "mm:ss" (5 characters) below one hour and "hh:mm:ss" (8) from one hour on, each component two digits within its clock range (hours below 24, minutes and seconds below 60); reading the text back gives the time below an hour and the time of day from an hour on |
| `TimeFormat.OutOfRangeIsNoTime` | PaperwatchWPF/MainWindow.xaml.cs:372-373 | a component out of its clock range ("00:90", "24:00:00") is no reading, so the read-back pins the text down |
| `TimeFormat.FormatTimeDropsDays` | PaperwatchWPF/MainWindow.xaml.cs:372 | "hh" is the hours-of-day component: a time and the same time a day later show the same text |
| `TimeFormat.Pad2` | PaperwatchWPF/MainWindow.xaml.cs:372 | each component is two digits, zero-padded, that read back as its value |
| `Metadata.IsAudioIffSuffix` | PaperwatchWPF/MainWindow.xaml.cs:83-84 | the contract of `IsAudio`: a file is audio exactly when its lower-cased path ends with .mp3, .wav, .flac or .m4a |
| `Metadata.TrackInfoFor` | PaperwatchWPF/MainWindow.xaml.cs:86-116 | unreadable tags, or a cover that fails to decode, give the defaults. The artist is never empty. A title other than the file name, an artist other than "Unknown Artist", and any cover art all come from the tags |
| `Metadata.TagsWin` | PaperwatchWPF/MainWindow.xaml.cs:93-94 | with readable tags, a non-empty title or performer is shown; an empty or missing one falls back to the file name or "Unknown Artist" |
| `Metadata.UnreadableSongFallsBack` | PaperwatchWPF/MainWindow.xaml.cs:111-116 | `C:\Music\song.mp3` with unreadable tags is audio and shows "song" by "Unknown Artist" |
| `Metadata.SongPathParts` | PaperwatchWPF/MainWindow.xaml.cs:83 | the extension of `C:\Music\song.mp3` is ".mp3" and its name without extension is "song" |
| `Shell.MainWindow.constructor` | PaperwatchWPF/MainWindow.xaml.cs:17-33 | a new window is not playing, not fullscreen, not dragging, has its timer stopped and a skip interval of 10, and its engine has no source |
| `Shell.MainWindow.ToggleFullscreen` | PaperwatchWPF/MainWindow.xaml.cs:223-257 | flips fullscreen. Entering saves the geometry and makes the window borderless, maximized and fixed-size. Leaving restores the saved geometry, forces `CanResize` and keeps the window style. The bars are collapsed exactly in fullscreen |
| `Shell.MainWindow.SaveGeometry` | PaperwatchWPF/MainWindow.xaml.cs:229-233 | the saved geometry becomes the current one |
| `Shell.MainWindow.RestoreGeometry` | PaperwatchWPF/MainWindow.xaml.cs:244-248 | the current geometry becomes the saved one |
| `Shell.MainWindow.KeyDown` | PaperwatchWPF/MainWindow.xaml.cs:35-41 | Escape in fullscreen leaves it and restores the geometry; any other key, or Escape outside fullscreen, changes nothing; no key enters fullscreen |
| `Shell.MainWindow.TopBarMouseLeftButtonDown` | PaperwatchWPF/MainWindow.xaml.cs:140-152 | a double click toggles fullscreen with all of `ToggleFullscreen`'s effects (`FullscreenToggled`: geometry saved or restored, style, resize mode, bars); any other click leaves the window's state alone |
| `Shell.MainWindow.MediaMouseLeftButtonDown` | PaperwatchWPF/MainWindow.xaml.cs:215-221 | a double click on the video toggles fullscreen with all of `ToggleFullscreen`'s effects (`FullscreenToggled`); any other click changes nothing |
| `Shell.MainWindow.UpdateMetadata` | PaperwatchWPF/MainWindow.xaml.cs:81-122 | for audio, shows the panel with `TrackInfoFor`'s title, artist and cover; otherwise collapses the panel and leaves its texts as they were |
| `Shell.MainWindow.PlayFile` | PaperwatchWPF/MainWindow.xaml.cs:51-79 | stated by `PlayedFile`, through `ResolvePath` (a rooted path is kept, any other goes through `GetFullPath`, line 56): an empty path changes nothing; an unresolvable or missing file only shows an error; otherwise the metadata is updated, the window counts as playing, and the engine gets Stop, the new absolute source and Play (only Stop and an error if the URI cannot be formed) |
| `Shell.MainWindow.StartPlayback` | PaperwatchWPF/MainWindow.xaml.cs:63-73 | after the checks: metadata, empty-state text hidden, playing, source loaded |
| `Shell.MainWindow.LoadSource` | PaperwatchWPF/MainWindow.xaml.cs:68-73 | Stop, then the source becomes the file's URI with its duration unknown, then Play; a path with no URI leaves no source and reports an error |
| `Shell.MainWindow.Loaded` | PaperwatchWPF/MainWindow.xaml.cs:43-49 | a non-empty initial file is opened as by `PlayFile`; otherwise nothing changes |
| `Shell.MainWindow.OpenMediaClick` | PaperwatchWPF/MainWindow.xaml.cs:154-162 | a chosen file is opened as by `PlayFile`; a cancelled dialog changes nothing |
| `Shell.MainWindow.SettingsClick` | PaperwatchWPF/MainWindow.xaml.cs:164-168 | shows the settings with the current interval in the box |
| `Shell.MainWindow.CloseSettingsClick` | PaperwatchWPF/MainWindow.xaml.cs:170-173 | hides the settings |
| `Shell.MainWindow.UpdateSkipIntervalClick` | PaperwatchWPF/MainWindow.xaml.cs:175-186 | the interval becomes the box's value exactly when it parses as an `int` greater than 0, with a confirmation; otherwise it is unchanged and a warning is shown |
| `Shell.MainWindow.PlayPauseClick` | PaperwatchWPF/MainWindow.xaml.cs:259-274 | with no source nothing changes; otherwise playing flips, with Pause sent if it was playing and Play if not |
| `Shell.MainWindow.SetSliderValue` | PaperwatchWPF/MainWindow.xaml.cs:311-317 | the slider takes the value; when the value changed while dragging with a known duration, exactly one position set to it is sent, and otherwise the engine is untouched |
| `Shell.MainWindow.BackClick` | PaperwatchWPF/MainWindow.xaml.cs:276-281 | with no source nothing changes; otherwise the engine is set to the position minus the interval, and the slider shows where it landed |
| `Shell.MainWindow.SkipClick` | PaperwatchWPF/MainWindow.xaml.cs:283-288 | with no source nothing changes; otherwise the engine is set to the position plus the interval, and the slider shows where it landed |
| `Shell.MainWindow.StopClick` | PaperwatchWPF/MainWindow.xaml.cs:296-301 | Stop is sent whether or not there is a source; playing ends; the timer keeps its state |
| `Shell.MainWindow.TimerTick` | PaperwatchWPF/MainWindow.xaml.cs:131-138 | when not dragging and the duration is known, slider and time text show the engine position; otherwise nothing changes; the engine is never touched |
| `Shell.MainWindow.SliderMouseDown` | PaperwatchWPF/MainWindow.xaml.cs:319-322 | a drag begins |
| `Shell.MainWindow.SliderMouseUp` | PaperwatchWPF/MainWindow.xaml.cs:324-331 | the drag ends; with a known duration the slider's value is sent as the position, otherwise the engine is untouched |
| `Shell.MainWindow.MediaOpened` | PaperwatchWPF/MainWindow.xaml.cs:333-351 | a known duration sets the slider maximum and total time, an unknown one shows "--:--"; Play is sent again only while playing; the timer always starts |
| `Shell.MainWindow.MediaEnded` | PaperwatchWPF/MainWindow.xaml.cs:353-360 | Stop is sent, playing ends, the slider goes to 0 and the timer stops; a drag in progress makes the slider's change send one more position set to 0 |
| `Shell.MainWindow.MediaFailed` | PaperwatchWPF/MainWindow.xaml.cs:362-367 | the failure is shown and playing ends; the timer and the source stay as they were |
| `Scenarios.DoubleClickTopBarTwice` | PaperwatchWPF/MainWindow.xaml.cs:140-146 | two double clicks on the top bar maximize the window and then put its state, size and place back, leaving it borderless and resizable |
| `Scenarios.ToggleTwice` | PaperwatchWPF/MainWindow.xaml.cs:223-257 | two toggles from the normal window restore state, size and place, and leave it borderless and resizable with both bars visible |
| `Scenarios.PlayPauseTwice` | PaperwatchWPF/MainWindow.xaml.cs:259-274 | two play/pause clicks with a source restore the playing flag through one Pause and one Play |
| `Scenarios.SkipThenBack` | PaperwatchWPF/MainWindow.xaml.cs:276-288 | skip then back returns to the same position if the end was not in the way |
| `Scenarios.DragTo` | PaperwatchWPF/MainWindow.xaml.cs:311-331 | press, move, tick, release: the tick does not move the thumb, and the new position is sent twice |
| `Scenarios.OpenAndPlay` | PaperwatchWPF/MainWindow.xaml.cs:345-348 | opening an existing file and the engine opening it send Stop, Play and Play (the first Play at line 73), and start the timer |
| `Scenarios.OpenMissingFile` | PaperwatchWPF/MainWindow.xaml.cs:57-61 | a missing file leaves engine, playing flag and metadata as they were, and shows "File not found" with the path |
| `Scenarios.ApplyUntouchedSettings` | PaperwatchWPF/MainWindow.xaml.cs:164-186 | opening the settings and applying them unchanged keeps the interval and confirms it |
| `Scenarios.FailThenReopen` | PaperwatchWPF/MainWindow.xaml.cs:362-367 | after a playback failure a new file still opens and plays |
| `Scenarios.OpenUnaddressableFile` | PaperwatchWPF/MainWindow.xaml.cs:75-78 | an existing file without an absolute URI leaves the window playing with no source, and play/pause then does nothing |

## Left out

- `FileAssociationHelper` and `SetDefault_Click` (lines 188-193) are not part of this model: they write Windows registry keys and notify the shell, so they have no state to reason about.
- `App.OnStartup` is not part of this model: it only passes the first command-line argument on, which is the constructor's `initialFile`.
- Volume (lines 71 and 303-309) is left out, because it is a floating-point value the code only copies.
- `DragMove` (line 150) and `Minimize_Click` (lines 200-203) are left out. They change the window's position or state (`top`, `left`, `windowState`) through the operating system, like moving or minimizing the window by hand, which the model does not cover.
- `Exit_Click` and `Close_Click` (lines 195-198 and 205-208) are left out: they shut the application down.
- Moving or resizing the window by hand is not modelled either.
- The fullscreen buttons' brush colours (lines 255-256) are left out: they are presentation only.
- `UpdatePlayPauseButton` (lines 290-294) is not a method. The button's glyph and tool tip are the functions `PlayPauseGlyph` and `PlayPauseToolTip` of `isPlaying`, because every handler that changes `isPlaying` refreshes the button straight after.
- The engine's decoding and rendering are left out, and so is its exact clamping. The assumptions the model makes instead are listed above.
- Positions, durations and slider values are whole seconds, so fractional positions and the slider's `double` values are not modelled.
- The slider coerces its value into its minimum and maximum, and raises `ValueChanged` again when its maximum changes. Neither is modelled, because the markup that sets the range is not part of this model.
- `TimeFormat.FormatTime` covers non-negative whole seconds only, as the engine reports them.
- The timer is a running flag; its 100 ms cadence is not modelled.
- Tag parsing and cover-bitmap decoding are reduced to their outcome (`Metadata.TagRead`): the tags, or failure, and whether the first picture decodes.
- `Paths.ToLower` folds ASCII letters only, because culture-specific case mappings are not modelled.
- `Numbers.TryParseInt32` uses '+' and '-' as signs and does not accept the trailing NUL characters .NET also skips. Culture-specific signs are not modelled.
- `Paths.GetFileName` treats only a drive prefix "X:" as a path root. For a longer root followed by a separator (`\\server\share\x.mp3`), it gives the same name as .NET. For a bare UNC root (`\\server\share`), .NET gives "" and the model gives "share". Such a path never reaches `UpdateMetadata`, because `File.Exists` is false for it.
- The `Paths` functions follow .NET Core's rules, which accept any character. `GetFullPath` failing is the only exception from path handling in the model, besides the URI.
- The window's initial layout comes from markup that is not part of this model. The constructor takes the geometry, style and resize mode as parameters, and assumes both bars visible, the empty-state text shown, and the settings and audio panels collapsed.
- Message boxes are recorded as `Dialog` values rather than their texts.
