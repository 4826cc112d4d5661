# Anki audio lab: waveform engine and card polling, in Dafny

The audio lab is a small browser page that sits beside the Anki flashcard
program. Every 200 ms it asks the AnkiConnect server for the card on screen.
When the card id is new, it lists the card's field names in a select box and
runs the user's regular expression on the chosen field. If the first capture
group names a file, it asks the server for that media file and loads it into
a wavesurfer.js waveform player.

This project models both halves and proves properties about them:

- **The waveform engine**, one module per component of the bundled library:
  - `JsNumber`: the JavaScript number arithmetic the engine relies on (NaN and the infinities, `Math.floor/ceil/round`).
  - `EventEmitter`: listener sets, `on`/`once`/`un`/`unAll`, and `emit` walking a `Set` that shrinks while it is walked.
  - `Timers`: the animation ticker.
  - `MediaPlayer`: the `Player` bookkeeping around an HTML media element.
  - `WebAudio`: the Web Audio player that emulates a media element.
  - `Decoder`: `normalize` and `createBuffer`.
  - `Engine`: the `WaveSurfer` facade, including `getDuration` and `exportPeaks`.
  - `RenderGeometry` and `Render`: the renderer's layout arithmetic, its delayed tile chains, the scroll behaviour and pointer fractions.
  - `Draggable`: the pointer-gesture recogniser `makeDraggable`.
- **The app** (`src/index.js`, `src/util.js`):
  - `AnkiConnect`: the request/reply validation of `acInvoke` and `fetchCurrentCard`.
  - `CardView`: the page logic of polling, field names, the display decision and retrieval.
  - `AudioRegex`: the exported `audioFileRegex` as a matcher, with its lazy prefix and ordered alternatives.

Where the source mutates objects, the model is a class with `modifies` clauses:

- the emitter, timer, players, renderer, gesture recogniser and page;
- `normalize`, which divides the channel arrays in place.

Pure computations are functions, with lemmas proved about them. Loops in the source are `while` loops proved against specification functions:

- `exportPeaks`;
- clearing the render timeouts;
- `emit`;
- `normalize`;
- registering plugins;
- rebuilding the select options.

Browser services become parameters or fields:

- the audio clock (`now`);
- element measurements;
- bounding rectangles;
- the parsed server reply;
- the regular expression's outcome.

`setTimeout`/`clearTimeout` are a set of pending ids. `requestAnimationFrame` is a counter of requested frames.

`src/util.js:20-48` (`ankiConnectInvoke`) is a verbatim copy of `acInvoke` in `src/index.js:14-42`. The rows below cite the latter; `AnkiConnect.Invoke` models both.

The bundle also contains an older build of the page logic (`index.f301a80a.js:590-693`). In that build `displayCardInfo` calls `populateFieldNames` itself and `pollForNewCard` does not. The model follows `src/index.js`.

## Model

| member | source | states |
|---|---|---|
| JsNumber.Floor | index.f301a80a.js:1721-1722 | `Math.floor` gives the greatest integer not above its argument |
| JsNumber.Ceil | index.f301a80a.js:1758 | `Math.ceil` gives the least integer not below its argument |
| JsNumber.Round | index.f301a80a.js:949 | `Math.round` gives the integer within half a unit, with halves rounded up |
| JsNumber.Div | index.f301a80a.js:1828-1829 | IEEE division: a nonzero divisor gives the real quotient; 0/0 is NaN; a nonzero numerator over 0 is an infinity of its sign |
| JsNumber.Mul | index.f301a80a.js:973 | IEEE product with a finite factor: NaN propagates, infinity times 0 is NaN, and +infinity times a positive factor stays +infinity |
| JsNumber.Add | index.f301a80a.js:986 | IEEE sum with a finite addend: a non-finite value is unchanged |
| EventEmitter.Added | index.f301a80a.js:1311 | `Set.add`: membership becomes old membership plus `x`; the set is unchanged when `x` is present, else `x` is appended; distinctness is preserved |
| EventEmitter.Without | index.f301a80a.js:1325 | `Set.delete`: exactly `x` is removed, nothing changes when it is absent, the set does not grow, and distinctness is preserved |
| EventEmitter.Fire | index.f301a80a.js:1335-1337 | the specification of emit's walk over the snapshot: at most one invocation per snapshot entry, and the set left behind is no larger than the live one (its full meaning is the lemmas below) |
| EventEmitter.FireSurvivors | index.f301a80a.js:1335-1337 | after an emit, a listener survives if and only if it was live and no visited live once-wrapper deleted it (as itself or as its target) |
| EventEmitter.FireCallsRegistered | index.f301a80a.js:1335-1337 | an emit only invokes handlers registered with `on` that are still live |
| EventEmitter.FireCallCount | index.f301a80a.js:1335-1337 | an emit invokes each handler at most as often as it occurs in the snapshot |
| EventEmitter.FireCallsReached | index.f301a80a.js:1335-1337 | a live callback is invoked if no once-wrapper for it is visited before it |
| EventEmitter.OnceThenEmit | index.f301a80a.js:1310-1331 | after `once(h)`, the next emit invokes `h` exactly once and removes both `h` and its wrapper, so a second emit does not invoke `h` |
| EventEmitter.FireWithoutWrappersKeepsSet | index.f301a80a.js:1335-1337 | an emit over plain callbacks leaves the listener set unchanged |
| EventEmitter.Emitter.constructor | index.f301a80a.js:1307-1309 | starts with no listeners |
| EventEmitter.Emitter.On | index.f301a80a.js:1310-1322 | adds the handler to the event's set (creating it); the unsubscriber deletes that handler |
| EventEmitter.Emitter.Once | index.f301a80a.js:1327-1331 | adds the handler, then a fresh wrapper that deletes both; returns the wrapper |
| EventEmitter.Emitter.Un | index.f301a80a.js:1323-1326 | deletes the listener from the event's set; an unknown event or listener changes nothing |
| EventEmitter.Emitter.Unsubscribe | index.f301a80a.js:1314-1321 | calling a returned unsubscriber deletes the callback, and for a wrapper both the wrapper and its target |
| EventEmitter.Emitter.UnAll | index.f301a80a.js:1332-1334 | every event is forgotten |
| EventEmitter.Emitter.Deliver | index.f301a80a.js:1336 | visiting one listener: a live callback is invoked and a live wrapper deletes itself and its target |
| EventEmitter.Emitter.Emit | index.f301a80a.js:1335-1337 | the in-place loop invokes exactly the handlers, and leaves exactly the set, that the specification `Fire` gives for the snapshot |
| Timers.Timer.constructor | index.f301a80a.js:1947-1950 | a new ticker with nothing subscribed, nothing to unsubscribe and no frame requested |
| Timers.Timer.Subscribe | index.f301a80a.js:793-798 | the engine's "tick" subscriber is added to the ticker's listener set |
| Timers.Timer.Tick | index.f301a80a.js:1954-1956 | a "tick" emit notifies exactly the subscribers `Fire` invokes and requests one frame per rescheduler invoked; the set is unchanged |
| Timers.Timer.Start | index.f301a80a.js:1951-1958 | subscribes a new rescheduler, keeps its unsubscriber, and ticks at once; the ticker is running and at least one frame is requested |
| Timers.Timer.OnFrame | index.f301a80a.js:1953-1955 | a delivered frame emits "tick" again, consuming one request and adding one per rescheduler |
| Timers.Timer.Stop | index.f301a80a.js:1959-1961 | deletes only the rescheduler kept by the last `start` |
| Timers.Timer.Destroy | index.f301a80a.js:1962-1964 | does what `stop` does |
| Timers.StartTwiceStopOnce | index.f301a80a.js:1951-1961 | two `start`s and one `stop` leave the first rescheduler subscribed: the ticker keeps running |
| Timers.StartThenStop | index.f301a80a.js:1951-1961 | one `start` and one `stop` leave no rescheduler subscribed, with one frame still pending |
| MediaPlayer.Player.constructor | index.f301a80a.js:1203-1218 | adopts the given element (external) or creates a paused one without source; sets controls and autoplay when asked; the playback rate waits for "canplay" |
| MediaPlayer.Player.GetSrc | index.f301a80a.js:1228-1230 | the element's current source when non-empty, else its `src` |
| MediaPlayer.Player.IsPlaying | index.f301a80a.js:1260-1262 | playing exactly when neither paused nor ended |
| MediaPlayer.MediaElement.Load | index.f301a80a.js:1249 | the load algorithm: paused, not ended, position 0, duration unknown, default rate, one more load |
| MediaPlayer.MediaElement.AssignSrc | index.f301a80a.js:1240 | assigning `src` stores it and runs the load algorithm |
| MediaPlayer.MediaElement.Seek | index.f301a80a.js:1264 | a finite assignment of `currentTime` lands on `SeekPosition`; ended exactly at the end |
| MediaPlayer.SeekPosition | index.f301a80a.js:1264 | before metadata the time is kept as given; afterwards it is clamped to [0, duration] and unchanged inside that range |
| MediaPlayer.Player.RevokeSrc | index.f301a80a.js:1231-1234 | revokes the source exactly when it starts with `blob:`; only `blob:` URLs are ever revoked |
| MediaPlayer.Player.SetSrc | index.f301a80a.js:1235-1241 | no change when the source is already `url`; otherwise revokes a `blob:` source and assigns the blob's URL, else `url`, and the load algorithm leaves the element paused at 0 with an unknown duration and the default rate; the current source, volume and muted flag are kept |
| MediaPlayer.Player.Destroy | index.f301a80a.js:1242-1250 | pauses; an external element keeps its source and position; an own element is removed, its `blob:` source revoked, its `src` cleared and reloaded, so the load algorithm runs twice and leaves it at 0 with an unknown duration |
| MediaPlayer.Player.Play | index.f301a80a.js:1254-1256 | the element plays; an ended element restarts from 0 |
| MediaPlayer.Player.Pause | index.f301a80a.js:1257-1259 | the element is paused and `isPlaying` is false |
| MediaPlayer.Player.SetTime | index.f301a80a.js:1263-1265 | a non-finite time throws the `TypeError` and changes nothing; a finite one moves the element to `SeekPosition`, and the element is ended exactly when that is its end |
| MediaPlayer.Player.SetPlaybackRate | index.f301a80a.js:1287-1291 | sets the rate; the pitch flag is written only when given |
| MediaPlayer.Player.SetVolume | index.f301a80a.js:1275-1277 | sets the element's volume |
| MediaPlayer.Player.SetMuted | index.f301a80a.js:1281-1283 | sets the element's muted flag |
| MediaPlayer.Player.CanPlay | index.f301a80a.js:1215-1217 | the first "canplay" applies the rate from the options once; later ones change nothing |
| MediaPlayer.SetSrcTwice | index.f301a80a.js:1235-1241 | from any state: with no current source or one equal to `url`, the source ends at `url` with at most one revoke and one reload; with another current source, `getSrc()` keeps returning it, so both calls revoke it (when `blob:`) and both reload |
| WebAudio.WebAudioPlayer.constructor | index.f301a80a.js:2003-2019 | paused at 0, unmuted, with the gain connected, no buffer, no node created and no current node |
| WebAudio.WebAudioPlayer.Duration | index.f301a80a.js:2109-2112 | the buffer's duration, or 0 without a buffer |
| WebAudio.WebAudioPlayer.CurrentTime | index.f301a80a.js:2096-2098 | frozen at the played duration while paused; otherwise it advances with the clock from the play start |
| WebAudio.WebAudioPlayer.PlaybackRate | index.f301a80a.js:2089-2092 | the current node's rate, or 1 without a current node |
| WebAudio.WebAudioPlayer.PlayInternal | index.f301a80a.js:2037-2054 | no-op unless paused; otherwise the current node is disconnected (it stays in `nodes`, its "ended" still pending) and a new connected node at rate 1, unstopped and without listeners, becomes current, starting at the played duration (from 0 at the end); the position is continuous, and every node still sounding is the current one (`Quiet`) if it was before |
| WebAudio.WebAudioPlayer.PauseInternal | index.f301a80a.js:2055-2061 | no-op when paused; otherwise the current node alone is given a stop at `now`, and the elapsed time is folded in, so the position stays frozen at the pause time; `Quiet` is kept |
| WebAudio.WebAudioPlayer.Play | index.f301a80a.js:2062-2067 | `_play`, then "play" is emitted; from paused, a new current node at the resumed offset is appended; `Quiet` is kept |
| WebAudio.WebAudioPlayer.Pause | index.f301a80a.js:2068-2071 | `_pause`, then "pause" is emitted (even when already paused); the position is frozen |
| WebAudio.WebAudioPlayer.SetCurrentTime | index.f301a80a.js:2099-2108 | emits "seeking" and "timeupdate"; the position becomes `v`, or 0 when playing from at or past the end; while playing the old node is stopped and disconnected and a new one at that offset becomes current; `Quiet` is kept |
| WebAudio.WebAudioPlayer.SetVolume | index.f301a80a.js:2116-2119 | sets the gain, unclamped, and emits "volumechange" |
| WebAudio.WebAudioPlayer.SetMuted | index.f301a80a.js:2123-2128 | the gain node is connected exactly while unmuted; setting the current value changes nothing |
| WebAudio.WebAudioPlayer.SetPlaybackRate | index.f301a80a.js:2093-2095 | changes only the current node's rate; without a current node nothing changes and the rate reads 1 |
| WebAudio.WebAudioPlayer.SetSrc | index.f301a80a.js:2028-2029 | records the URL as the current source |
| WebAudio.WebAudioPlayer.SetAutoplay | index.f301a80a.js:2006 | the autoplay flag is set |
| WebAudio.WebAudioPlayer.BufferDecoded | index.f301a80a.js:2030-2035 | keeps the buffer, emits "loadedmetadata" and "canplay", and plays when autoplay is on |
| WebAudio.WebAudioPlayer.StopAt | index.f301a80a.js:2072-2082 | sets the current node's stop to the clock time at which the position reaches `t` (stop time minus play start equals `t` minus played duration) and adds one "ended" listener to that node only; without a current node nothing changes |
| WebAudio.WebAudioPlayer.OnEnded | index.f301a80a.js:2048-2053 | at or past the end: paused, "pause" and "ended" emitted, the current node stopped; otherwise nothing changes; `Quiet` is kept |
| WebAudio.WebAudioPlayer.NodeEnded | index.f301a80a.js:2072-2082 | node `k`'s "ended", as written: `onended`, then each of its `n` listeners clears `bufferNode` and pauses whichever node is current; paused iff it was, or at the end, or `n > 0`; `n` more "pause" events; the node's listeners are spent |
| WebAudio.WebAudioPlayer.NodeEndedGuarded | index.f301a80a.js:2072-2082 | as `NodeEnded`, but a listener acts only while its node is still current, so the "ended" of a replaced node leaves playback alone; `Quiet` is kept |
| WebAudio.StaleStopAtListener | index.f301a80a.js:2072-2082 | play a 10 s buffer, `stopAt(5)`, seek to 2, then the first node ends: the player is paused with no current node while the second node plays on unstopped (`Quiet` fails) |
| WebAudio.GuardedStopAtListener | index.f301a80a.js:2072-2082 | the same steps with the guarded listener: still playing the second node, and `Quiet` holds |
| WebAudio.WebAudioPlayer.GetChannelData | index.f301a80a.js:2132-2138 | every channel of the buffer in order, or none without a buffer |
| WebAudio.PlayPauseKeepsPosition | index.f301a80a.js:2037-2061 | `_play` then `_pause` at one clock reading keeps the position when it is before the end |
| Decoder.PeakMagnitudeBounds | index.f301a80a.js:1060-1064 | the running maximum bounds every sample's magnitude and is attained by a sample when positive |
| Decoder.PeakMagnitude | index.f301a80a.js:1060-1064 | the running maximum is non-negative and at least the magnitude of the last sample |
| Decoder.Scaled | index.f301a80a.js:1065 | the first `length` samples, multiplied back by the peak, give the old samples; the rest are unchanged |
| Decoder.PeakAboveOne | index.f301a80a.js:1058-1065 | when some first-channel sample is outside [-1, 1], the peak exceeds 1 and every divided sample is within [-1, 1] |
| Decoder.Normalize | index.f301a80a.js:1056-1068 | fails exactly with no channel; otherwise the first channel ends within [-1, 1]; when it was out of range, every channel's first `length` samples are divided by its peak, else nothing changes |
| Decoder.ScaleChannel | index.f301a80a.js:1065 | the in-place loop leaves the array equal to `Scaled` of its old contents |
| Decoder.CreateBuffer | index.f301a80a.js:1069-1085 | a flat array becomes one channel; the buffer exists exactly when there is a first channel; it keeps the duration, has the first channel's length, sample rate length/duration, and a normalized first channel; when the first channel was out of range every channel's first `length` samples are divided by its peak (above 1), otherwise no sample changes |
| Decoder.CreateBufferExamples | index.f301a80a.js:1058-1075 | `createBuffer([2, 1])` gives the samples `[1, 0.5]`, and `createBuffer([0.5, 0.2])` leaves them as they are |
| Decoder.GetChannelData | index.f301a80a.js:1081 | the i-th channel, or `undefined` outside the channel range |
| Engine.DurationFallback | index.f301a80a.js:963-968 | never NaN; a finite nonzero or negative-infinite media duration is kept; 0, NaN or +infinity fall back to the decoded duration when there is one |
| Engine.PeakOfIsEarliestLargest | index.f301a80a.js:952-956 | the kept sample has the largest magnitude, and a nonzero one is the earliest sample of that magnitude |
| Engine.PeakOf | index.f301a80a.js:952-956 | the kept peak is 0 or one of the window's samples |
| Engine.Quantize | index.f301a80a.js:957 | finite exactly when the precision is nonzero, and then the result times the precision is the rounded scaled peak |
| Engine.QuantizeWithinHalfStep | index.f301a80a.js:957 | rounding to `precision` moves a peak by at most half a step |
| Engine.SampleSize | index.f301a80a.js:949 | the window size is length/maxLength rounded to the nearest integer |
| Engine.Window | index.f301a80a.js:951 | `slice` with both ends clamped: the i-th window of the channel, or empty past its end |
| Engine.PeaksUpTo | index.f301a80a.js:950-958 | entry `j` is the quantized peak of window `j` |
| Engine.ChannelPeaks | index.f301a80a.js:947-959 | a channel yields `maxLength` peaks (none for a non-positive `maxLength`) |
| Engine.ChannelPeaksEntries | index.f301a80a.js:950-958 | entry `j` of a channel's peaks is the rounded peak of its `j`-th window |
| Engine.WindowsAdjacent | index.f301a80a.js:951 | consecutive windows are adjacent slices of the channel |
| Engine.Removed | index.f301a80a.js:881 | `filter(p => p !== plugin)` keeps exactly the other plugins |
| Engine.WaveSurfer.constructor | index.f301a80a.js:766-804 | no decoded data; `minPxPerSec` from the options, else the default; the plugins of the options are registered in order; a media element already playing emits "play" and starts the timer |
| Engine.WaveSurfer.GetDuration | index.f301a80a.js:963-968 | the media duration with the decoded-data fallback |
| Engine.WaveSurfer.RegisterPlugin | index.f301a80a.js:876-884 | appends the plugin |
| Engine.WaveSurfer.PluginDestroyed | index.f301a80a.js:880-882 | the plugin's "destroy" removes every occurrence of it |
| Engine.WaveSurfer.BeginLoad | index.f301a80a.js:896-905 | emits "load", pauses an own element, drops the decoded data and sets the source; for a new source the element is not playing, at 0, with duration 0 and the new `src`; an external element given its own source keeps playing where it was |
| Engine.WaveSurfer.FinishLoad | index.f301a80a.js:912-921 | the decoded buffer, if any, is kept and announced with "decode"; "ready" follows, each with the duration at that moment |
| Engine.WaveSurfer.LoadAudio | index.f301a80a.js:894-923 | for a new source the events are exactly "load", "decode" (with a buffer) and "ready", carrying the element's duration (the metadata when it was waited for) with the buffer's as fallback; the new `src` is set and nothing plays |
| Engine.WaveSurfer.Zoom | index.f301a80a.js:934-938 | fails with "No audio loaded" before decoding; otherwise stores the zoom and emits "zoom" |
| Engine.WaveSurfer.SeekTo | index.f301a80a.js:972-975 | a non-finite duration throws and changes nothing; otherwise the element seeks to `SeekPosition` of duration times progress, which is exactly that product for a progress in [0, 1] |
| Engine.SeekInsideDuration | index.f301a80a.js:972-975 | a progress in [0, 1] of a positive duration is a position the element seeks to exactly |
| Engine.WaveSurfer.Stop | index.f301a80a.js:981-984 | paused at position 0, not playing |
| Engine.WaveSurfer.Skip | index.f301a80a.js:985-987 | a finite position moves by `seconds` and is clamped as `SeekPosition` says; a non-finite one makes the setter throw and changes nothing |
| Engine.WaveSurfer.OnMediaPlay | index.f301a80a.js:809-811 | the media's "play" emits "play" and starts the timer |
| Engine.WaveSurfer.OnMediaPause | index.f301a80a.js:812-814 | the media's "pause" emits "pause" and stops the timer |
| Engine.WaveSurfer.ExportPeaks | index.f301a80a.js:942-962 | fails before decoding; otherwise yields min(channels, numberOfChannels) channels, each the `ChannelPeaks` of that channel |
| Engine.WaveSurfer.PeaksOf | index.f301a80a.js:946-960 | the outer loop: channel `c`'s entry is `ChannelPeaks` of channel `c` |
| Engine.WaveSurfer.ChannelPeaksOf | index.f301a80a.js:947-959 | the two inner loops compute exactly `ChannelPeaks` |
| Engine.WaveSurfer.Destroy | index.f301a80a.js:1005-1013 | emits "destroy"; every plugin's own destroy empties the plugin list; the player ends paused |
| RenderGeometry.GetHeight | index.f301a80a.js:1449-1455 | never NaN: 128 when absent; the value when it reads as a number; "auto" gives the parent's height (128 when 0); else 128 |
| RenderGeometry.AutoHeightPositive | index.f301a80a.js:1453 | "auto" never gives a zero height |
| RenderGeometry.ComputeLayout | index.f301a80a.js:1756-1763 | the scroll width is the ceiling of duration times zoom; scrollable exactly when wider than the parent; the canvas fills the parent exactly when `fillParent` is set and nothing scrolls |
| RenderGeometry.DefaultZoomFillsParent | index.f301a80a.js:1758-1763 | with zoom 0, nothing scrolls and a filling waveform is exactly the parent's width |
| RenderGeometry.FilledWidthAtLeastScrollWidth | index.f301a80a.js:1760-1763 | a filled waveform is never narrower than its scroll width |
| RenderGeometry.ViewportWidth | index.f301a80a.js:1713-1720 | without bars, min(4000, clientWidth); never negative when finite |
| RenderGeometry.ViewportHoldsWholeBars | index.f301a80a.js:1714-1720 | with bars, the viewport holds a whole number of bar widths and does not exceed min(4000, clientWidth) |
| RenderGeometry.VisibleSlice | index.f301a80a.js:1710-1723 | the slice indices are numbers exactly when the scroll width is positive and the viewport finite, and then 0 <= start <= end |
| RenderGeometry.Clamped | index.f301a80a.js:1725-1727 | `draw` clamps a range into [0, len] and loses no index of the channel |
| RenderGeometry.HeadTiles | index.f301a80a.js:1731-1736 | the head chain starts with the visible slice |
| RenderGeometry.TailTiles | index.f301a80a.js:1737-1742 | the tail chain starts with its first range |
| RenderGeometry.HeadTilesShape | index.f301a80a.js:1731-1736 | the head chain steps back one viewport at a time, each range ending where the previous one starts, and stops at the first start <= 0 |
| RenderGeometry.TailTilesShape | index.f301a80a.js:1737-1742 | the tail chain steps forward one viewport at a time and stops at the first end >= len |
| RenderGeometry.TilesCoverChannel | index.f301a80a.js:1729-1744 | with a non-empty visible slice, the drawn ranges cover every sample of the channel |
| RenderGeometry.TilesDisjoint | index.f301a80a.js:1729-1744 | no two drawn ranges overlap |
| RenderGeometry.HeadStep | index.f301a80a.js:1733-1735 | one `renderHead` reschedule keeps the range's length, and with a step of that length the next range ends where this one starts |
| RenderGeometry.TailStep | index.f301a80a.js:1740-1742 | one `renderTail` reschedule keeps the range's length, and with a step of that length the next range starts where this one ends |
| RenderGeometry.EmptyViewportHeadNeverStops | index.f301a80a.js:1731-1736 | with an empty visible slice and a positive start, the head chain reschedules the same range forever |
| RenderGeometry.EmptyViewportTailNeverStops | index.f301a80a.js:1737-1742 | with an empty visible slice and a range ending before `len`, the tail chain reschedules the same range forever |
| RenderGeometry.HeadChainStops | index.f301a80a.js:1731-1736 | with a positive viewport length the head chain reaches, after finitely many steps, the last range of `HeadTiles`, which starts at or before 0 |
| RenderGeometry.TailChainStops | index.f301a80a.js:1737-1742 | with a positive viewport length the tail chain reaches, after finitely many steps, the last range of `TailTiles`, which ends at or after `len` |
| RenderGeometry.ClampScroll | index.f301a80a.js:1801 | an assigned scroll position is clamped to [0, scrollWidth - clientWidth], unchanged inside it |
| RenderGeometry.ScrollTarget | index.f301a80a.js:1808-1824 | a valid scroll position stays valid |
| RenderGeometry.DragScrollStep | index.f301a80a.js:1814-1818 | while dragging the view moves by at most 30 pixels |
| RenderGeometry.JumpBringsCursorIntoView | index.f301a80a.js:1820 | a cursor outside the view ends up inside it (in the middle with `autoCenter`) |
| RenderGeometry.ClickPosition | index.f301a80a.js:1404-1414 | relativeX is x over the width, within [0, 1] for a click inside the wrapper |
| RenderGeometry.ClickRelativeYIgnoresClientY | index.f301a80a.js:1407-1409 | as written, relativeY does not depend on the pointer's vertical position |
| RenderGeometry.ClickInsideReportsYAboveOne | index.f301a80a.js:1407-1409 | as written, a click at the centre of a 100x10 wrapper reports relativeY = 5 |
| RenderGeometry.ClickFractions | index.f301a80a.js:1404-1414 | corrected: same relativeX, and relativeY within [0, 1] for a click inside the wrapper |
| RenderGeometry.ClickFractionsFollowPointer | index.f301a80a.js:1407-1409 | corrected: a lower click reports a larger relativeY, and the centre click reports (0.5, 0.5) |
| RenderGeometry.DragFraction | index.f301a80a.js:1444 | the "drag" fraction is within [0, 1]; NaN only for 0/0; x/width for a point inside |
| RenderGeometry.ScrollFractions | index.f301a80a.js:1428-1433 | the "scroll" fractions differ by clientWidth/scrollWidth |
| RenderGeometry.CursorAtEnd | index.f301a80a.js:1839 | the cursor is pulled back exactly when the progress is in [99.5%, 100.5%) |
| Render.DelayContext.constructor | index.f301a80a.js:1562 | a new context holds no timeout |
| Render.Opening | index.f301a80a.js:1721-1744 | one `renderChannel` draws nothing when the indices are not numbers; otherwise it draws one or two ranges within [0, len] |
| Render.OpeningStartsHeadChain | index.f301a80a.js:1729-1744 | the first range drawn is the head chain's first, and the continuation scheduled next is the chain's second |
| Render.CompensatedScroll | index.f301a80a.js:1799-1802 | the corrected scroll stays valid and, unless clamped, keeps the cursor's offset in the view |
| Render.Renderer.constructor | index.f301a80a.js:1375-1395 | the resize context made by `initEvents` (1435) is the only listed timeout and holds none; nothing drawn, no audio, not scrollable, not dragging |
| Render.Renderer.CreateDelay | index.f301a80a.js:1561-1563 | a fresh context is appended to `timeouts` |
| Render.Renderer.Delay | index.f301a80a.js:1564-1567 | clears the context's previous timeout and sets a new, never-used id: at most one pending timeout per context |
| Render.Renderer.Fire | index.f301a80a.js:1730-1742 | a fired tile draws its clamped range and reschedules the next range exactly while the head start is > 0 or the tail end is < len |
| Render.Renderer.RenderChannel | index.f301a80a.js:1699-1745 | two new delay contexts; draws exactly `Opening`; timeouts set earlier are untouched |
| Render.Renderer.StartChains | index.f301a80a.js:1729-1744 | draws the slice, plus the first tail range when the slice ends before len |
| Render.Renderer.ClearTimeouts | index.f301a80a.js:1748-1749 | every listed context's timeout is cleared and the list emptied |
| Render.Renderer.ApplyLayout | index.f301a80a.js:1756-1767 | the stored layout is `ComputeLayout`'s, and the scroll position is clamped to the new width |
| Render.Renderer.RenderChannels | index.f301a80a.js:1772-1786 | one `renderChannel` per channel: the drawn ranges are the `Openings` of all channels, with two fresh contexts each |
| Render.Renderer.Render | index.f301a80a.js:1746-1789 | listed timeouts cleared, canvases cleared, layout applied, every channel's opening drawn, audio stored, "render" emitted |
| Render.Renderer.Prepare | index.f301a80a.js:1747-1767 | the steps before drawing: timeouts cleared, canvases emptied, layout applied |
| Render.Renderer.ReRender | index.f301a80a.js:1790-1803 | nothing before the first render; otherwise re-renders and, when scrollable with a changed scroll width, shifts the scroll position by the cursor's move |
| Render.Renderer.Resize | index.f301a80a.js:1435-1438 | a resize replaces the resize context's pending timeout by a fresh id whose callback is the re-render |
| Render.Renderer.FireResize | index.f301a80a.js:1435-1438 | the resize timeout fires once: its id is no longer pending; without audio nothing is drawn, with audio the audio is kept and re-rendered with one "render" event |
| Render.Renderer.Compensate | index.f301a80a.js:1799-1802 | the shift is applied exactly when the container scrolls and its width changed |
| Render.Renderer.Zoom | index.f301a80a.js:1804-1807 | stores the zoom and re-renders at the new scroll width |
| Render.Renderer.ScrollIntoView | index.f301a80a.js:1808-1832 | moves to `ScrollTarget` and emits "scroll" with the new visible fractions |
| Render.Renderer.RenderProgress | index.f301a80a.js:1833-1841 | NaN is ignored; otherwise the cursor moves and the view follows exactly when scrollable with `autoScroll` |
| Render.Renderer.SetDragging | index.f301a80a.js:1446-1447 | drag start and end set `isDragging` |
| Render.RenderCancelsListed | index.f301a80a.js:1747-1749 | after a render, no timeout set earlier through a listed context is pending, so no stale tile is drawn |
| Render.ResizeThenRender | index.f301a80a.js:1747-1749 | a render after a resize clears the resize timeout and drops the resize context from the list, so the delayed re-render never fires |
| Render.Openings | index.f301a80a.js:1772-1786 | the channels' openings draw at most two ranges per channel, none starting below 0 |
| Draggable.Step | index.f301a80a.js:1872-1933 | only the chosen button starts a gesture; a move calls back exactly when dragging or past the threshold, ending with `onDrag` and preceded by `onStart` on the first; release calls `onEnd` only after a drag |
| Draggable.Run | index.f301a80a.js:1872-1933 | no events change nothing; each event makes at most two callbacks |
| Draggable.RunFollowsProtocol | index.f301a80a.js:1872-1900 | for any events, `onStart` is always followed by `onDrag`, `onDrag` comes only inside a drag, and `onEnd` only closes one |
| Draggable.StepFollowsProtocol | index.f301a80a.js:1872-1900 | one more event keeps the callback protocol |
| Draggable.DeltasTelescope | index.f301a80a.js:1879-1897 | within a gesture, the drags' horizontal deltas sum to the distance from the press to the last reported point |
| Draggable.StartOnceThenDrags | index.f301a80a.js:1886-1895 | within a gesture, `onStart` fires at most once and first, only `onDrag` follows, and nothing is called until the gesture is dragging |
| Draggable.OtherButtonIgnored | index.f301a80a.js:1873 | a press with another button changes nothing |
| Draggable.SmallMovesAreAClick | index.f301a80a.js:1886-1906 | moves within the threshold call nothing, and the following click is not swallowed |
| Draggable.SmallMovesStayStill | index.f301a80a.js:1879-1897 | moves within the threshold leave the gesture at its press point, not dragging |
| Draggable.Draggable.constructor | index.f301a80a.js:1869-1871 | no gesture and no callbacks |
| Draggable.Draggable.PointerDown | index.f301a80a.js:1872-1878 | the closure state changes as `Step` says for a press |
| Draggable.Draggable.PointerMove | index.f301a80a.js:1879-1897 | state and callbacks change as `Step` says for a move |
| Draggable.Draggable.PointerUp | index.f301a80a.js:1898-1901 | state and callbacks change as `Step` says for a release |
| Draggable.Draggable.ExpireGuard | index.f301a80a.js:1927-1931 | the oldest gesture's click listener is removed |
| Draggable.Draggable.Click | index.f301a80a.js:1902-1907 | a click is swallowed exactly when a registered click listener belongs to a dragging gesture |
| AnkiConnect.Lookup | src/index.js:20 | a parsed object has a property exactly when some member has that name, and its value is that of the last member written with the name |
| AnkiConnect.Truthy | src/index.js:30 | arrays and objects are truthy, null is falsy, a string is truthy exactly when non-empty |
| AnkiConnect.HasOwn | src/index.js:24-29 | `hasOwnProperty` holds exactly for an object with a member of that name |
| AnkiConnect.Utf16Length | src/index.js:21 | a string's UTF-16 length is between its length and twice it, and equals it without characters outside the Basic Multilingual Plane |
| AnkiConnect.Get | src/index.js:78 | `v[name]` is defined exactly when `v` has that own property |
| AnkiConnect.OwnPropertyCount | src/index.js:21 | `getOwnPropertyNames` throws exactly on `null`; on an object it counts distinct names; a string has one name per UTF-16 code unit plus "length" |
| AnkiConnect.CheckResponse | src/index.js:18-37 | the reply resolves exactly when it is an object with names {error, result} and a falsy error, with `result`; each failed check rejects with its own message, in order; an own member "hasOwnProperty" makes the first `hasOwnProperty` call throw |
| AnkiConnect.WellFormedReplyResolves | src/index.js:21-33 | `{error: null, result: r}` resolves with `r` |
| AnkiConnect.ErrorReplyRejects | src/index.js:30-32 | a reply with a non-empty error message rejects with that message, whatever the result |
| AnkiConnect.ShadowedHasOwnPropertyThrows | src/index.js:24 | `{error: null, hasOwnProperty: r}` rejects with the `TypeError`, not with a missing-field message |
| AnkiConnect.Invoke | src/index.js:14-42 | a network error rejects with "failed to issue request", an unparsable body with the `SyntaxError`, and a parsed reply as `CheckResponse` says |
| AnkiConnect.FetchCurrentCard | src/index.js:95-103 | the result on success; `null` and an "Error: " status on rejection, so a truthy card means the request succeeded |
| CardView.Keys | src/index.js:124 | `Object.keys`: each property name once, nothing else |
| CardView.Decide | src/index.js:78-92 | "field not found" exactly when the field name, the field or the pattern is falsy; else a bad pattern throws, a non-empty first group is retrieved, otherwise "no match" |
| CardView.DecisionStatus | src/index.js:85-91 | the status line shown for each decision |
| CardView.FirstGroup | src/index.js:84 | the first group is returned exactly when the match succeeded with a non-empty first group, and it is that group |
| CardView.SameValue | src/index.js:144 | `===`: equal primitives and `undefined` compare equal, arrays and objects never do, and a true result means equal values |
| CardView.Fields | src/index.js:78 | `cardData.fields` when it is an object |
| CardView.CardPage.constructor | src/index.js:140 | an empty select and `lastCardId` null |
| CardView.CardPage.PopulateFieldNames | src/index.js:120-135 | the options are the field names in key order; a field named "hasOwnProperty" makes the call throw with the first option selected; otherwise the previous selection is kept when still a field, else the first option is selected |
| CardView.CardPage.DisplayCardInfo | src/index.js:69-93 | the status is `DecisionStatus` of `Decide`, and exactly a captured file name is appended to the requested files |
| CardView.CardPage.Poll | src/index.js:141-151 | the whole new state: a falsy card or an already seen id changes nothing but a failure status; a new card records its id, rebuilds the options and selection, and shows and requests what `Decide` gives (nothing after the "hasOwnProperty" throw) |
| CardView.CardPage.QueryAudio | src/index.js:44-49 | a falsy card requests nothing |
| CardView.CardPage.Select | src/index.js:112 | the user picks one of the options |
| CardView.CardPage.SetPattern | src/index.js:113 | the user edits the pattern |
| CardView.CardPage.RetrieveAndPlay | src/index.js:51-67 | a truthy result is loaded with "Audio file loaded"; a falsy one gives "Audio file not found"; a rejection gives "Error: <reason>" |
| CardView.PollTwice | src/index.js:141-151 | polling the same card twice, whose `cardId` is absent or a primitive, displays it at most once and leaves that id as the last one seen |
| AudioRegex.FirstFit | src/util.js:3 | the alternation takes the first alternative in written order that fits, ignoring ASCII case |
| AudioRegex.LazyFindsShortest | src/util.js:3 | the lazy prefix stops at the shortest allowed run followed by a dot and an alternative |
| AudioRegex.MatchShape | src/util.js:3 | every match is a non-empty run without `:"'[]`, a dot, and the first fitting alternative |
| AudioRegex.MatchAt | src/util.js:3 | a match at a position ends after it, within the input, and starts with an allowed character |
| AudioRegex.MatchWith | src/util.js:3 | a match with a given extension list ends after its start, within the input, and starts with an allowed character |
| AudioRegex.Lazy | src/util.js:3 | the lazy scan ends after the run start, within the input, and ends right after the first extension when one follows the current dot |
| AudioRegex.PrefixEnd | src/util.js:3 | the lazy prefix ends at a dot followed by an alternative, with only allowed characters before it |
| AudioRegex.MatchComplete | src/util.js:3 | an allowed run followed by a dot and an extension always gives a match |
| AudioRegex.FirstFitFinds | src/util.js:3 | some alternative, no later than a fitting one, is found |
| AudioRegex.LazyReaches | src/util.js:3 | the lazy scan finds a match whenever one exists further on |
| AudioRegex.FirstMatch | src/util.js:3 | `exec` finds the leftmost match at or after `lastIndex`, and none exists before it |
| AudioRegex.AllMatches | src/util.js:3 | the global matches, left to right, each a match and none overlapping; empty exactly when `exec` finds nothing |
| AudioRegex.AllMatchesChain | src/util.js:3 | each match is `exec` from the end of the previous one (the first from the start), and `exec` after the last finds nothing |
| AudioRegex.Mismatch | src/util.js:3 | an alternative that differs at some position does not fit |
| AudioRegex.FirstFitIs | src/util.js:3 | the first fit is `x` when `x` fits and no earlier alternative does |
| AudioRegex.OneCharName | src/util.js:3 | a one-character name followed by a dot matches up to the first fitting alternative |
| AudioRegex.AacMatchesAsAa | src/util.js:3 | "x.aac" matches only "x.aa": alternatives are tried in written order, not by length |
| AudioRegex.NoEarlierR | src/util.js:3 | no alternative before "ra" starts with "r" |
| AudioRegex.RaFits | src/util.js:3 | wherever "ra" is written, in any case, it is the alternative taken |
| AudioRegex.RawMatchesAsRa | src/util.js:3 | "x.raw" matches only "x.ra" |
| AudioRegex.NoEarlierMp | src/util.js:3 | no alternative before "mp3" starts with "mp" |
| AudioRegex.Mp3Fits | src/util.js:3 | wherever "mp3" is written, in any case, it is the alternative taken |
| AudioRegex.UpperCaseMatches | src/util.js:3 | the `i` flag: "a.MP3" matches as a whole |
| AudioRegex.QuoteSkipped | src/util.js:3 | a quote cannot be part of the name: in "'x.mp3" the match starts after the quote |

## Left out

- Network and files: fetching audio (`Fetcher`), `decodeAudioData`, the XHR transport and base64 decoding of the retrieved file are outside the model. The reply to a request is a parameter, and so are the decoded buffers.
- Drawing: canvas drawing (`renderSingleCanvas`, bar and line waveforms, colour gradients), `initHtml`, `exportImage`, style strings and clip paths are left out. A drawn tile is recorded as its clamped index range.
- Async control flow: `loadAudio` is `LoadAudio`: the "load" emit (896), the pause (897), `setSrc` (905), the wait for metadata (908-910) and the "decode" and "ready" emits (917, 921) are modelled. The outcomes of the host's work are parameters: the blob's object URL, the duration "loadedmetadata" reports and the buffer that decoding or `createBuffer` gives. Not modelled: the fetch and its "loading" events (900-903), `blob.arrayBuffer()` and decoding (912-916), the `renderer.render` call (919, modelled on its own as `Render.Renderer.Render`), and interleaving with other calls while `loadAudio` awaits. `load`, `loadBlob`, `empty`, `playPause`, `setOptions`, `setMediaElement` and `setSinkId` are not modelled, because they only forward to modelled operations or to the browser.
- Engine wiring: `initRendererEvents`, the engine's "timeupdate" and "tick" handlers (which only forward progress to `renderProgress`), and the "emptied", "ended" and "seeking" media handlers are not modelled as handlers. The resize observer's delayed re-render is modelled as `Render.Renderer.Resize` and `FireResize`; when the browser calls the observer is up to their caller. `renderProgress` and `reRender` themselves are modelled.
- Engine.WaveSurfer.constructor: the options `mediaControls`, `autoplay` and `audioRate` are not passed on (the `Player` constructor models them). The load of an initial `url` or pre-decoded `peaks` at construction is left out.
- Engine.WaveSurfer.ExportPeaks: the option defaults (2 channels, 8000 peaks, precision 10000) are not applied, because the caller passes all three.
- Decoder.Normalize / Decoder.ScaleChannel: channels are typed arrays of a fixed length. On a plain `number[]` channel shorter than the first one, `channel[i] /= max` past its end appends `NaN` (for `[[2, 0], [1]]` the second channel becomes `[0.5, NaN]`); the model only writes within each array.
- Decoder.Normalize: requires the channel arrays to be distinct. The same array passed twice would be divided twice; aliasing is not modelled.
- MediaPlayer.MediaElement.Load: the load algorithm always resets the element. The browser skips the pause and position reset for an element whose network state is still empty (one that never had a resource); the model does not track network state. Resource selection (`currentSrc`) and metadata arrive later, through `SelectResource` and `LoadMetadata`, when the caller says so.
- MediaPlayer.SeekPosition: before metadata the element reports the assigned time and seeks to it when metadata arrives; the model reports it and does not re-clamp it at `LoadMetadata`.
- MediaPlayer.Player.SetVolume: the browser's range check of volume (a value outside [0, 1] throws) and its handling of unsupported playback rates are not modelled.
- MediaPlayer.Player.Play: actual playback is not modelled. Elapsed media time is not tracked, and `play()`'s returned promise is ignored.
- WebAudio.WebAudioPlayer.NodeEnded: the order in which the browser delivers `onended` and the "ended" listeners is taken as the property first, then the listeners. When a node's "ended" fires is up to the caller; a node told to stop is not forced to end at its stop time.
- Engine.WaveSurfer.BeginLoad: the engine is modelled over the media-element backend (src/util.js:10), where `!this.options.media` (index.f301a80a.js:897) is "the element is the engine's own". With the "WebAudio" backend the constructor passes its own `WebAudioPlayer` as media (index.f301a80a.js:767), which the player treats as external, so the two readings differ there.
- MediaPlayer.Player.GetSrc: `src` is kept as assigned. The browser's `src` getter resolves it against the document URL, so after `Destroy` sets `src = ""` it reads the document URL, not "".
- Render.Renderer.Render: `splitChannels` per-channel options and the `width` option are not modelled. Each `renderChannel` call is given its channel length.
- Render.Renderer.ReRender: the progress wrapper's width is taken as progress times wrapper width. The rounding of `clientWidth` to whole pixels is not modelled.
- Render.Opening: when the slice indices are not numbers (zero scroll width or a NaN viewport), nothing is drawn. The source then calls `draw` with NaN indices, and the model records nothing for that call. Render.Renderer.StartChains schedules nothing then either. But with bar options whose total is 0 (`barGap == -barWidth`), `viewportWidth % 0` is NaN, so `viewportWidth` and `end` are NaN (index.f301a80a.js:1716-1722). With a positive `start`, `renderHead(start, NaN)` still schedules one head timeout at 1733; that timeout draws NaN indices and stops. The model does not schedule it.
- RenderGeometry.ScrollTarget: its contract states only that a valid scroll position stays valid. Its branches are stated by the two lemmas `DragScrollStep` and `JumpBringsCursorIntoView`. Right-to-left scrolling (negative `scrollLeft`) is not modelled.
- RenderGeometry.DragScrollStep: states that the step is bounded by 30, not which direction it takes.
- CardView.CardPage.QueryAudio: states only that a falsy card requests nothing. The displayed outcome is `DisplayCardInfo`'s contract.
- CardView.Fields: a card whose `fields` is not an object is read as having no fields. The source throws in `Object.keys` only when `fields` is `null` or missing; for a string or an array it lists the indices as keys, and for a number or boolean it finds no keys. Those non-object cases are not modelled.
- AnkiConnect.Json: objects are lists of members; property order follows insertion, not JavaScript's integer-key-first order of `Object.keys`. Only own properties are read. `hasOwnProperty` and `getOwnPropertyNames` ignore the prototype in the source too, but `fields[fieldName]` (src/index.js:78) reads an inherited member: for the field name "constructor" or "toString" the source finds a function and fails at `.value.match`, while `Get` gives `undefined` and the model reports "field not found". An own member named "hasOwnProperty", which hides the method, is modelled.
- AnkiConnect.Get: reads own members only; a name found only on the prototype reads as `undefined` (see `AnkiConnect.Json`).
- CardView.Decide: through `Get`, an inherited field name such as "constructor" reads as absent and gives "field not found", where the source finds a function and throws at `.value.match` (src/index.js:79-81).
- AnkiConnect.Status: the string conversion of a value in a status line (`'Error: ' + e`) is kept as the value itself, not rendered as text.
- AudioRegex: match positions count characters, not UTF-16 code units, so for text with characters outside the Basic Multilingual Plane the source's indices are larger. Case folding covers ASCII letters only; the `i` flag of a non-Unicode regular expression folds nothing else onto them. The user's own pattern in the page is run by the host and enters as its outcome (`MatchOutcome`).
- Draggable.Step: a second press while a gesture is under way (a second pointer) is simplified. In the source, the earlier gesture's document listeners stay registered for good. The model keeps only its click listener, as a guard that a later expiry removes. `touchmove` prevention and `preventDefault`/`stopPropagation` are not modelled.
- EventEmitter.Emitter.Emit: handlers that call `on`, `once` or `un` while an emit is running are not modelled. `Set.prototype.forEach` visits a listener added during the walk and skips one deleted before it is reached; in the model a handler only runs, and only once-wrappers delete (themselves and their target).
- AudioRegex.AllMatches: its contract gives bounds, order and emptiness; that each match is `exec` restarted at the previous match's end is stated separately by `AllMatchesChain`, which keeps the unfolding of `FirstMatch` out of the function's own proof.
- Render.Renderer.Fire: fires tile continuations; the resize context's timeout fires through `FireResize`.
- Timers: `requestAnimationFrame` timing is a counter of requested frames; which frame arrives when is up to the caller of `OnFrame`.
- JsNumber: doubles are modelled as exact reals plus NaN and the two infinities. Rounding error of floating-point arithmetic is not modelled.

## Findings

| source | as written | input that shows it | evidently intended | confidence | as-written member | corrected member |
|---|---|---|---|---|---|---|
| index.f301a80a.js:1407-1409 | `getClickPosition` computes `y` from `e.clientX - rect.left`, so relativeY is the horizontal offset over the height | a click at (50, 5) on a wrapper at (0, 0), 100 wide and 10 high, reports relativeY = 5 | `y = e.clientY - rect.top`, so relativeY is within [0, 1] for a click inside the wrapper | not executed | RenderGeometry.ClickInsideReportsYAboveOne | RenderGeometry.ClickFractions |
| index.f301a80a.js:2072-2082 | each `stopAt` call adds a once "ended" listener to the node that clears `bufferNode` and pauses, whatever node is current when it fires | a 10 s buffer: `play()` at clock 0, `stopAt(5)` and `currentTime = 2` at clock 1; the first node's "ended" clears the second node and pauses while the second node plays on | the listener acts only while its node is still `bufferNode` | not executed | WebAudio.StaleStopAtListener | WebAudio.WebAudioPlayer.NodeEndedGuarded |
| index.f301a80a.js:1731-1744 | `renderHead` reschedules while `fromIndex > 0` and `renderTail` while `toIndex < len`, stepping by `viewportLen` | a visible slice with `start == end` (zero client width), `start > 0` or `end < len`: each step keeps the same range, so a timeout is scheduled forever | chunked drawing only for a positive viewport length | not executed | RenderGeometry.EmptyViewportTailNeverStops | RenderGeometry.TailChainStops |
