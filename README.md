# Music player: playback controller and time labels

A Dafny model of the logic inside the `MusicPlayer` React component. The model has two parts:

- The **playback controller**. The component keeps React state (`currentTrack`, `isPlaying`, `currentTime`, `duration`) and drives one `<audio>` element. It reacts to the play/pause, stop, next and previous buttons, the playlist entries and the seek slider. It also reacts to the element's `ended`, `timeupdate`, `loadedmetadata` and `loadeddata` events.
- The **time labels**: elapsed and total time written `M:SS`, with the minutes unpadded and the seconds padded to two digits.

## Files

- `time_label.dfy` (module `TimeLabel`): the label as the component computes it from a time in seconds, `Math.floor(t / 60)`, a colon, and `String(Math.floor(t % 60)).padStart(2, "0")`. Alongside it:
  - decimal notation with its value and its canonical form;
  - `padStart`;
  - a reader for labels;
  - the proof that the label depends only on the whole seconds `floor(t)`.
- `transport.dfy` (module `Transport`): the wrap-around index arithmetic of next and previous, and the seek position `(v / 100) * duration` for a slider value `v`.
- `player.dfy` (module `Player`):
  - The component's playlist.
  - A class `AudioElement` for the parts of the `<audio>` element the component touches: source, paused flag, position, duration, and whether a resume callback is assigned to `onloadeddata`.
  - A class `MusicPlayer` with one method per handler. Every method keeps the invariant `Valid()`: the selected index lies in the playlist, the element plays the selected track's source, and no time is negative. Every method except the `ended` handler keeps `SilentUnlessPlaying()`: while the button shows "play", the element is paused. The `ended` handler keeps it too once the browser has paused the element, which is the order in which the browser works.
  - A method may touch only what its `modifies` clause names, field by field. So "nothing else changes" is part of each contract. For example, play/pause cannot change the track, the displayed time or the durations, and the `ended` handler changes only the flag.
- `scenarios.dfy` (module `Scenarios`): client methods that run short sequences of actions on the three-track playlist and state the outcome.

The browser's own behaviour is an assumption of the model, not part of it. `play()` clears the paused flag, and on a track that has played to its end it first moves the position back to 0, as the HTML standard's `play()` does. `pause()` sets the paused flag. `load()` pauses the element and moves its position back to 0, as the media load algorithm of the HTML standard does. The element's position and duration change only where a scenario sets them, standing in for the browser.

Notes on what the code does:

- A track change does not reset the displayed time or duration. They follow the element only through the `timeupdate` and `loadedmetadata` handlers.
- `stop` resets the element's position, not the displayed time.
- The ended handler clears the flag and changes nothing else; there is no auto-advance.
- `n` presses of next from index `i` return to `i`, and `n − i` presses from `i` reach index 0 (`Transport.FullCycle`).

## Model

| member | source | states |
|---|---|---|
| TimeLabel.NatToString | src/MusicPlayer.jsx:224-225 | `String(n)` for a whole number is canonical decimal (digits only, no superfluous leading zero) and denotes exactly `n`; one digit below 10, two below 100 |
| TimeLabel.CanonicalRoundTrip | src/MusicPlayer.jsx:224-225 | every canonical decimal string is the one `String` writes for its value, so the minutes field has a single spelling |
| TimeLabel.PadStart | src/MusicPlayer.jsx:225 | `padStart(width, fill)` has length `max(|s|, width)`, ends with `s`, and holds only `fill` before it |
| TimeLabel.TwoDigits | src/MusicPlayer.jsx:225 | the padded seconds field of a value below 100 is exactly two digits and denotes that value |
| TimeLabel.TwoDigitsRoundTrip | src/MusicPlayer.jsx:225 | every two-digit field below 60 is the padded spelling of its own value |
| TimeLabel.FormatSeconds | src/MusicPlayer.jsx:224-229 | the label of whole seconds `s` is canonical minutes, a colon and a two-digit seconds field below 60, with minutes × 60 + seconds = `s` |
| TimeLabel.Remainder60 | src/MusicPlayer.jsx:225 | JavaScript `t % 60` on a non-negative time lies in `[0, 60)` |
| TimeLabel.ComponentLabel | src/MusicPlayer.jsx:224-229 | the label the component builds from a time `t ≥ 0` (`Math.floor(t / 60)`, a colon, `String(Math.floor(t % 60)).padStart(2, "0")`) has at least four characters, with the colon third from the end |
| TimeLabel.WholeSecondsLabel | src/MusicPlayer.jsx:224-229 | the label the component computes from a time `t ≥ 0` is the label of the whole seconds `floor(t)` |
| TimeLabel.FormatThenParse | src/MusicPlayer.jsx:224-229 | reading a label back gives the seconds it was made from |
| TimeLabel.ParseThenFormat | src/MusicPlayer.jsx:224-229 | a string that reads as `s` seconds is exactly the label written for `s`, so distinct labels mean distinct seconds |
| TimeLabel.LabelExamples | src/MusicPlayer.jsx:224-229 | 125 seconds are labelled "2:05" (also from the time 125.0) and 200 seconds "3:20" |
| Transport.NextIndex | src/MusicPlayer.jsx:152 | `(i + 1) % n` stays in `[0, n)` and is `i + 1`, except that the last index goes to 0 |
| Transport.PreviousIndex | src/MusicPlayer.jsx:157 | `(i - 1 + n) % n` stays in `[0, n)` and is `i - 1`, except that index 0 goes to `n - 1` |
| Transport.PreviousUndoesNext | src/MusicPlayer.jsx:152-157 | previous after next restores the index |
| Transport.NextUndoesPrevious | src/MusicPlayer.jsx:152-157 | next after previous restores the index |
| Transport.Advance | src/MusicPlayer.jsx:151-154 | any number of presses of next keeps the index in the playlist |
| Transport.AdvanceWithinPlaylist | src/MusicPlayer.jsx:151-154 | below the end of the playlist, `k` presses of next move exactly `k` places |
| Transport.AdvanceSplits | src/MusicPlayer.jsx:151-154 | `j + k` presses of next are `j` presses followed by `k` |
| Transport.FullCycle | src/MusicPlayer.jsx:151-154 | `n - i` presses from `i` reach index 0, and `n` presses from `i` return to `i` |
| Transport.SeekPosition | src/MusicPlayer.jsx:146 | the seek target for a slider value in `[0, 100]` lies in `[0, duration]`; it is 0 when the duration is 0 or the value is 0, and the full duration at 100 |
| Transport.SeekMonotone | src/MusicPlayer.jsx:146 | a larger slider value never seeks to an earlier position |
| Transport.SliderValueInRange | src/MusicPlayer.jsx:218 | for a known positive duration, a position in `[0, duration]` is displayed as a slider value in `[0, 100]` |
| Transport.SeekThenDisplay | src/MusicPlayer.jsx:146-148 | after seeking to slider value `v`, the slider displays `v` again (positive duration) |
| Player.MusicPlayer.constructor | src/MusicPlayer.jsx:14-23 | the first track is selected and loaded, nothing plays, and both times are 0 |
| Player.MusicPlayer.HandlePlayPause | src/MusicPlayer.jsx:95-104 | the flag is inverted; the element is paused and the analysis context suspended exactly when the old flag was set; otherwise both run, and `play()` restarts a track that had reached its end; track, displayed time and durations are untouched |
| Player.MusicPlayer.HandleStop | src/MusicPlayer.jsx:106-110 | from any state: element paused at position 0 and flag cleared; track and displayed time untouched |
| Player.MusicPlayer.HandleAudioEnd | src/MusicPlayer.jsx:79-81 | the flag is cleared and nothing else changes: same track, position left at the end, no auto-advance |
| Player.MusicPlayer.HandleTimeUpdate | src/MusicPlayer.jsx:112-114 | the displayed time becomes the element's position; nothing else changes |
| Player.MusicPlayer.HandleLoadedMetadata | src/MusicPlayer.jsx:116-118 | the displayed duration becomes the element's duration; nothing else changes |
| Player.MusicPlayer.HandleTrackChange | src/MusicPlayer.jsx:120-143 | index selected and its source loaded, element paused at 0; when the element was playing, the flag is untouched and the resume callback is assigned; otherwise the flag is cleared; a callback assigned earlier is never removed |
| Player.MusicPlayer.HandleTrackChangeIntended | src/MusicPlayer.jsx:120-143 | the same switch, with the resume callback assigned exactly when the element was playing |
| Player.MusicPlayer.HandleLoadedData | src/MusicPlayer.jsx:136-139 | when a resume callback is assigned, the element plays (from 0 if it had reached the end) and the flag is set, and the callback stays assigned; otherwise nothing changes |
| Player.MusicPlayer.HandleSeek | src/MusicPlayer.jsx:145-149 | element position and displayed time both become the seek target, which lies in `[0, duration]` |
| Player.MusicPlayer.HandleNextTrack | src/MusicPlayer.jsx:151-154 | the track change to `NextIndex` of the selected track |
| Player.MusicPlayer.HandlePreviousTrack | src/MusicPlayer.jsx:156-159 | the track change to `PreviousIndex` of the selected track |
| Player.MusicPlayer.Labels | src/MusicPlayer.jsx:223-230 | the elapsed and total labels are the whole-second labels of the displayed time and duration |
| Scenarios.NextWrapsAround | src/MusicPlayer.jsx:151-154 | on the three-track playlist, next twice from the first track selects the third, and once more selects the first |
| Scenarios.PreviousFromFirst | src/MusicPlayer.jsx:156-159 | previous from the first track selects the last |
| Scenarios.ResumeAcrossTrackChange | src/MusicPlayer.jsx:120-143 | switching while playing keeps the flag set throughout; once the new data has loaded the element plays and the analysis context is running |
| Scenarios.NaturalEndKeepsTrack | src/MusicPlayer.jsx:79-81 | a track played to its end stays selected and positioned at its end, with the flag cleared |
| Scenarios.PlayAfterEndRestarts | src/MusicPlayer.jsx:95-104 | pressing play after a track has ended restarts the same track from position 0 |
| Scenarios.LabelsAtPosition | src/MusicPlayer.jsx:223-230 | seeking to 62.5 % of a 200-second track shows "2:05" and "3:20" |
| Scenarios.StaleResumeAfterPause | src/MusicPlayer.jsx:135-142 | play, next, data loads, pause, next, data loads: the element resumes by itself and the flag is set, while the analysis context the pause suspended stays suspended |
| Scenarios.IntendedStaysPaused | src/MusicPlayer.jsx:135-142 | the same actions with the intended track change leave the flag clear and the element paused |

## Findings

| source | as written | input that shows it | evidently intended | confidence | as-written member | corrected member |
|---|---|---|---|---|---|---|
| src/MusicPlayer.jsx:135-142 | the resume callback is assigned to `onloadeddata` when the element was playing, and it is never cleared when the element was paused | play; next; the new track's data loads; pause; next; the data loads: the element resumes and the button shows "pause", while the analysis context stays suspended | a switch made while paused leaves the new track paused, as the comment at line 134 says | not executed; derived from the model | Scenarios.StaleResumeAfterPause | Player.MusicPlayer.HandleTrackChangeIntended (Scenarios.IntendedStaysPaused) |

The controller's next and previous buttons keep the as-written `HandleTrackChange`. That is the behaviour the component has, and the stale-callback scenario relies on it. `HandleTrackChangeIntended` is the corrected handler, and its own contract and scenario prove the intended property.

## Left out

- Rendering: the JSX markup, CSS classes, icons and asset imports. The assets are opaque locator strings in `SourcePlaylist`.
- The Web Audio graph: creating the `AudioContext`, the analyser with FFT size 256, and the wiring from source to analyser to destination. These are browser APIs. `suspend()`/`resume()` appear only as the boolean `contextRunning`.
- The spectrum visualizer and its `requestAnimationFrame` draw loop. It is an unbounded rendering loop over floating-point bar geometry drawn through canvas calls.
- Event-listener registration and cleanup, and React's asynchronous batching and re-rendering. Each handler is one atomic step. A re-render also rewrites the `src` attribute, which this model does not capture.
- Floating point: times and slider values are exact reals, so rounding, NaN and Infinity are not modelled.
- Transport.SliderValue: modelled only for a positive duration. The source's `|| 0` coercion of NaN for a zero or unknown duration is not modelled, because it relies on NaN and Infinity.
- The element's duration becoming NaN during a load, and the promise `play()` returns (and its rejection under autoplay policies). Both are browser behaviour. The model treats the element's duration as a non-negative value that the browser sets before `loadedmetadata`.
- The playlist has any length `n > 0` in the controller. The component's own three entries appear only in the scenarios.
