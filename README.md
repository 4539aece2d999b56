# Editing kernels of a browser short-form video editor

This project models five small sequential kernels of a browser video editor. It
proves in Dafny what each kernel guarantees. Seconds are `real` numbers.

- **Trim-handle drag engine** (`TrimSlider`, `trim_slider.dfy`). On pointer-down the
  slider freezes the clip's window `(trimStart, trimDuration)` and the pointer X.
  Each pointer-move turns the pixel displacement into seconds and then computes a
  new window from that frozen snapshot alone. The left handle keeps the right edge
  fixed, the right handle keeps the left edge fixed, and the body keeps the
  duration. Every mode clamps against a 0.5 s minimum and the clip's length. The
  slider is a class holding its props, its drag mode and the three refs. Each mode
  is also a pure clamp function, and `Slider.PointerMove` is proved equal to it.
- **Bounded undo/redo store** (`History`, `history.dfy`). A generic class with
  `present`, `past` and `future`, using the source's push, pop, shift and slice
  steps. Pure functions on a `HistoryState` value specify `set`, `undo` and `redo`;
  the lemmas about them are the round trips and the 20-entry bound.
- **Vibe timeline generator** (`VibeLogic`, `vibe_logic.dfy`). The four-entry
  preset table, lookup by id with fallback to the second entry, and a centred cut
  window of length `min(duration, target)` for every clip.
- **Dual-buffer playback sequencer** (`VideoPlayerHook`, `video_player_hook.dfy`, and
  `VideoPlayerView`, `video_player_view.dfy`). Each `<video>` element is a record
  `{src, currentTime, muted, paused, readyState}`. The parity of the active index
  picks the active element. The hook's effect is a method that configures the
  active element and preloads the next clip into the idle one. The view's
  time-update guards, stacking order and overlay conditions are pure functions,
  proved to pick the same element as the hook.
- **Render timeline layout** (`RenderRoute`, `render_route.dfy`). The route rejects
  a missing or empty URL list with status 400. Otherwise it lays out one
  two-second clip per URL, back to back, with a running accumulator. The payload
  has one track, a black background and `mp4`/`sd` output.

`Wrappers` (`wrappers.dfy`) holds `Option`. It models an optional JavaScript
field, and `GetOr` models the source's `x || default`.

Some behaviours of the code that a reader might not expect:
- An unknown vibe falls back to `VIBES[1]` (`travel`), not to the first entry.
- Cut lengths are not drawn at random. The start is the centre of the clip, not a
  random offset. There is no second window for long clips.
- A generated window is only as long as its clip. So a clip shorter than 0.5 s
  gets a window below the trim editor's minimum. `GeneratedWindowsAreEditable`
  states when the editor's invariant holds for generated windows.
- The render route gives every clip length 2.0 and trim 0. It uses one track,
  whatever the clip's orientation.

One property of the sequencer's code is worth knowing (`PreloadedSlotPlaysNext`).
The idle element preloads the next clip, and normally that same element plays it
next. The exception is the wrap from the last clip to the first clip of a
timeline with an odd number of clips, three or more. Both indices are then even, so the element
that was active must load clip 0 unless it already holds that url, and the preloaded copy goes unused.

## Model

| member | source | states |
|---|---|---|
| `TrimSlider.DeltaSeconds` | app/components/editor/TrimSlider.tsx:53-56 | deltaSeconds × width = deltaPixels × totalDuration; a drag across the full track width is the whole clip; no movement is zero seconds |
| `TrimSlider.DragStartHandle` | app/components/editor/TrimSlider.tsx:61-77 | left handle: the right edge equals the snapshot's; duration ≥ 0.5; start ≤ end − 0.5; when the snapshot end ≥ 0.5 the start is ≥ 0 and is the requested start clamped to [0, end − 0.5] |
| `TrimSlider.DragEndHandle` | app/components/editor/TrimSlider.tsx:81-96 | right handle: the start is unchanged; start + duration ≤ totalDuration always; when start + 0.5 ≤ totalDuration the duration is ≥ 0.5 and is the requested duration clamped to [0.5, total − start] |
| `TrimSlider.DragBody` | app/components/editor/TrimSlider.tsx:100-112 | move: the duration is exactly the snapshot's; the end is ≤ totalDuration; when the duration fits, 0 ≤ start ≤ total − duration and the start is the requested one clamped to that range |
| `TrimSlider.Drag` | app/components/editor/TrimSlider.tsx:58-113 | if the snapshot satisfies start ≥ 0, duration ≥ 0.5 and end ≤ totalDuration, so does the emitted window, for every mode |
| `TrimSlider.ClampMove` | app/components/editor/TrimSlider.tsx:58-113 | the successive clamps of one pointer-move produce exactly the window Drag specifies for the handle, snapshot and deltaSeconds |
| `TrimSlider.GesturesKeepValid` | app/components/editor/TrimSlider.tsx:27-113 | any sequence of gestures, each snapshotting the window the previous one committed, keeps the window invariant |
| `TrimSlider.Percent` | app/components/editor/TrimSlider.tsx:22-23 | startPercent × total = trimStart × 100 and widthPercent × total = trimDuration × 100; non-negative for a non-negative time |
| `TrimSlider.EndPercent` | app/components/editor/TrimSlider.tsx:22-24 | endPercent = (trimStart + trimDuration) / total × 100; for a valid window 0 ≤ startPercent < endPercent ≤ 100 |
| `TrimSlider.Slider.constructor` | app/components/editor/TrimSlider.tsx:10-19 | the first render takes the props; no drag mode; the three refs start at 0 |
| `TrimSlider.Slider.Render` | app/components/editor/TrimSlider.tsx:3-10 | a re-render replaces only the props; the drag mode and refs survive |
| `TrimSlider.Slider.PointerDown` | app/components/editor/TrimSlider.tsx:27-38 | the pointer X and the live window (trimStart, trimDuration) are frozen as the snapshot and the mode becomes the grabbed handle |
| `TrimSlider.Slider.PointerUp` | app/components/editor/TrimSlider.tsx:40-44 | pointer-up (and pointer-leave) resets the mode to none |
| `TrimSlider.Slider.PointerMove` | app/components/editor/TrimSlider.tsx:46-114 | with no drag mode or no mounted track nothing is emitted; otherwise the emitted pair is Drag of the mode, the snapshot and deltaSeconds, so it never depends on the live window; valid snapshot gives a valid emission |
| `TrimSlider.MoveAcrossRerender` | app/components/editor/TrimSlider.tsx:46-114 | two moves to the same pointer X emit the same pair even when the live window was re-rendered between them |
| `History.PushCapped` | app/hooks/useHistory.ts:19-21 | appending to a past shorter than 20 keeps every entry; appending to a full past drops exactly the oldest and keeps the rest in order |
| `History.Resolve` | app/hooks/useHistory.ts:12-14 | a plain value is taken as is; an updater is applied to the current state |
| `History.SetState` | app/hooks/useHistory.ts:11-28 | set empties the future; the new present is the value, or f(old present) for an updater; the past becomes past + [old present] when shorter than 20 and past[1..] + [old present] when full |
| `History.UndoState` | app/hooks/useHistory.ts:31-43 | on a non-empty past the last past entry becomes present, the rest of the past is kept in order and the old present goes in front of the future; on an empty past nothing changes; \|past\| + \|future\| is unchanged |
| `History.RedoState` | app/hooks/useHistory.ts:45-57 | on a non-empty future the first future entry becomes present, the rest of the future is kept in order and the old present is appended to the past; on an empty future nothing changes; \|past\| + \|future\| is unchanged |
| `History.StepsKeepBounded` | app/hooks/useHistory.ts:11-57 | set, undo and redo preserve \|past\| + \|future\| ≤ 20, so the past stays within 20 even after redo, which appends without capping |
| `History.SetDropsOnlyOldest` | app/hooks/useHistory.ts:19-21 | on a full past, set yields past[1..] + [old present], still 20 entries |
| `History.UndoAfterSet` | app/hooks/useHistory.ts:11-43 | undo after set restores the old present, leaves the set value as the only future, and restores the past unless the cap dropped its oldest entry |
| `History.RedoAfterUndo` | app/hooks/useHistory.ts:31-57 | redo(undo(h)) == h whenever the past is non-empty |
| `History.UndoAfterRedo` | app/hooks/useHistory.ts:45-57 | undo(redo(h)) == h whenever the future is non-empty |
| `History.EmptyStepsChangeNothing` | app/hooks/useHistory.ts:33-47 | undo on an empty past and redo on an empty future change nothing |
| `History.SetAllKeepsLastStates` | app/hooks/useHistory.ts:18-25 | after any run of edits from a fresh store the past is exactly the last 20 replaced states in order, the present is the last value set, and the future is empty |
| `History.TwentyFiveEdits` | app/hooks/useHistory.ts:19-21 | 25 edits from a fresh store leave exactly 20 past states; the initial state and the first 4 values are gone |
| `History.HistoryStore.constructor` | app/hooks/useHistory.ts:5-8 | the store starts with the initial state and empty past and future |
| `History.HistoryStore.Set` | app/hooks/useHistory.ts:11-29 | the new store is SetState of the old store and the value or updater |
| `History.HistoryStore.Undo` | app/hooks/useHistory.ts:31-43 | the new store is UndoState of the old: last past entry becomes present, old present goes to the front of the future; no-op on an empty past |
| `History.HistoryStore.Redo` | app/hooks/useHistory.ts:45-57 | the new store is RedoState of the old: first future entry becomes present, old present is appended to the past; no-op on an empty future |
| `History.HistoryStore.CanUndo` | app/hooks/useHistory.ts:64 | canUndo holds exactly when undo would change the store |
| `History.HistoryStore.CanRedo` | app/hooks/useHistory.ts:65 | canRedo holds exactly when redo would change the store |
| `VibeLogic.Vibes` | app/utils/vibeLogic.ts:11-40 | four presets with pairwise distinct ids and positive target durations; entry 1 is `travel` with target 3.0 |
| `VibeLogic.Find` | app/utils/vibeLogic.ts:59 | find returns nothing iff no entry has the id, else the first entry with that id |
| `VibeLogic.ResolveVibe` | app/utils/vibeLogic.ts:59-60 | a known id resolves to the table's entry with that id, an unknown one to VIBES[1]; the target is positive |
| `VibeLogic.CutClip` | app/utils/vibeLogic.ts:62-85 | url, duration, width and height are kept; trimDuration = min(duration, target); a short clip is used whole from 0; a long one is centred; for duration ≥ 0 the window lies inside the clip |
| `VibeLogic.ProcessClipsWithVibe` | app/utils/vibeLogic.ts:57-87 | same length and order as the input, element i being clip i cut with the resolved vibe's target |
| `VibeLogic.GeneratedWindowsAreEditable` | app/utils/vibeLogic.ts:65-74 | for a clip of at least 0.5 s the generated window satisfies the trim editor's invariant; a shorter clip's window is the whole clip |
| `VideoPlayerHook.ActiveSlot` | app/hooks/useVideoPlayer.ts:16 | the active element is player1 iff the index is even, both under Dafny's `%` and under JavaScript's truncating `%` |
| `VideoPlayerHook.InactiveSlot` | app/hooks/useVideoPlayer.ts:17 | the inactive element always differs from the active one and is the one that becomes active at the next index |
| `VideoPlayerHook.JsRemainder` | app/hooks/useVideoPlayer.ts:24 | JavaScript's truncating `%`: the remainder is below n in magnitude, has the dividend's sign, and equals Dafny's `%` for a non-negative dividend |
| `VideoPlayerHook.NextIndex` | app/hooks/useVideoPlayer.ts:24 | (i + 1) % N as JavaScript computes it: in range for i ≥ −1, i + 1 before the last clip, 0 after the last clip; negative (an `undefined` clip) only for i < −1 |
| `VideoPlayerHook.PreloadedSlotPlaysNext` | app/hooks/useVideoPlayer.ts:16-25 | the preloaded element is the one that plays the next clip iff the step is not the wrap of an odd-length timeline |
| `VideoPlayerHook.ConfigureActive` | app/hooks/useVideoPlayer.ts:28-55 | afterwards src is the clip's url, muted is the clip's flag (default false), paused iff not playing all; currentTime is reset to 0 by a reload and moves to trimStart (default 0) only when readyState ≥ 2 and it is more than 0.5 s away; the result is settled, and an already settled element is left as is |
| `VideoPlayerHook.PreloadInactive` | app/hooks/useVideoPlayer.ts:59-70 | afterwards the element is paused and holds the next clip's url; currentTime moves to the next clip's trimStart only when the source was reloaded; a paused element already holding it is left as is |
| `VideoPlayerHook.PlayerHook.constructor` | app/hooks/useVideoPlayer.ts:12-14 | the two refs and isBuffering = false |
| `VideoPlayerHook.PlayerHook.SetBuffering` | app/hooks/useVideoPlayer.ts:14 | setIsBuffering sets the flag |
| `VideoPlayerHook.PlayerHook.Effect` | app/hooks/useVideoPlayer.ts:20-72 | a null project changes nothing; otherwise the active element (by parity) is configured for clip i, the idle one preloads the next clip, unmounted refs stay absent and their clips are never read, and buffering is raised exactly when the active element was reloaded |
| `VideoPlayerHook.PlayerHook.RunActive` | app/hooks/useVideoPlayer.ts:28-55 | a mounted active element becomes ConfigureActive of itself and clip i, buffering is raised iff its src differed from the clip's url; an unmounted one stays absent with buffering unchanged; the other element is untouched |
| `VideoPlayerHook.PlayerHook.PreloadIdle` | app/hooks/useVideoPlayer.ts:59-70 | a mounted idle element becomes PreloadInactive of itself and the next clip; an unmounted one stays absent; the other element and buffering are untouched |
| `VideoPlayerHook.EffectTwice` | app/hooks/useVideoPlayer.ts:20-72 | running the effect again with the same inputs changes nothing |
| `VideoPlayerView.HandlePlayer1TimeUpdate` | app/components/VideoPlayer.tsx:39-41 | player1 forwards time updates iff it is the element the hook makes active |
| `VideoPlayerView.HandlePlayer2TimeUpdate` | app/components/VideoPlayer.tsx:43-45 | player2 forwards time updates iff it is the element the hook makes active |
| `VideoPlayerView.ExactlyOneForwards` | app/components/VideoPlayer.tsx:39-45 | for every index exactly one of the two elements forwards |
| `VideoPlayerView.ZIndex` | app/components/VideoPlayer.tsx:55-74 | each zIndex is 20 or 10, and 20 exactly for the active element |
| `VideoPlayerView.ActiveOnTop` | app/components/VideoPlayer.tsx:57-73 | the active element is stacked above the idle one and the two zIndex values always differ |
| `VideoPlayerView.ShowSpinner` | app/components/VideoPlayer.tsx:90 | the spinner is shown only while playing all, and then exactly while buffering |
| `VideoPlayerView.ShowPlayOverlay` | app/components/VideoPlayer.tsx:97 | the play overlay shows iff not playing all, and when it shows the spinner does not, whatever the buffering flag |
| `VideoPlayerView.OverlaysExclusive` | app/components/VideoPlayer.tsx:90-97 | the play overlay is shown iff not playing all; spinner and overlay never both show; playing without buffering shows neither |
| `VideoPlayerView.OnWaiting` | app/components/VideoPlayer.tsx:60-76 | a waiting event (bound identically on both elements) sets buffering and leaves the elements alone |
| `VideoPlayerView.OnCanPlay` | app/components/VideoPlayer.tsx:61-77 | a can-play event (bound identically on both elements) clears buffering and leaves the elements alone |
| `RenderRoute.SumOfDefaultLengths` | app/api/render/route.ts:39-42 | a run of two-second clips lasts 2.0 × its count |
| `RenderRoute.LayoutClips` | app/api/render/route.ts:35-44 | one clip per URL in input order with type `video`, src = url, trim 0, start 2.0 × i and length 2.0; every start is the sum of the previous lengths (no gap, no overlap); the final accumulator is 2.0 × n |
| `RenderRoute.Post` | app/api/render/route.ts:25-52 | a missing or empty URL list, and only that, gives status 400 "No videos provided"; otherwise the payload has one track holding the laid-out clips, background `#000000`, output `mp4`/`sd` |

## Left out

- The HTTP hand-off in the render route is not modelled: the post to the rendering service, the returned job id, and the status-500 answer when parsing or sending throws. Only validation and payload construction are modelled.
- Network and storage code is not part of this model (authentication, the Firestore queries, upload, share and download flows, the status proxy). Nor are the timer-driven polling loops of the export and scripts, because their point is waiting on an external service.
- The editor page's time-update handler, which advances the active index at a clip's trim end, is not part of this model. The sequencer kernel here is the hook's effect and the view's parity rules.
- Pure UI with no logic to prove is not modelled: the vibe selector, the upload drop zone, the export border, the orientation test of the smart player, and the edit panel's wiring and its mute, delete and reorder handlers.
- Floating-point behaviour is not modelled. Seconds are exact reals, and display formatting with `toFixed` is omitted.
- TrimSlider.Percent, TrimSlider.EndPercent: require a positive clip length. With a zero length the source divides by zero and gets an IEEE infinity or NaN, which the real-number model cannot express.
- TrimSlider.Slider.PointerMove, TrimSlider.DeltaSeconds: require the track's width to be positive. With a zero width the source divides by zero and gets an IEEE infinity or NaN, which the real-number model cannot express.
- TrimSlider: event plumbing (`preventDefault`, `stopPropagation`, pointer capture) and the JSX labels are not modelled. Props are the values the parent passes; the edit panel's defaults (`duration || 10` and so on) are not modelled.
- History.Update: a set argument is a tagged value or updater. The source tells them apart with `typeof newState === 'function'`, so when the state type is itself a function type, a plain value is called instead of stored; the model does not capture that.
- History: React's batching of the three `setState` calls, nested updaters and the stale `state` captured by `undo`/`redo` are not modelled. Each operation is one atomic step on the current state.
- VideoPlayerHook.PlayerHook.Effect: requires the active index to lie in the clip list when the active ref is mounted, and the list to be non-empty with a non-negative next index when the inactive ref is mounted. Those are exactly the cases where the source reads `url` of `undefined` and throws; with a ref unmounted its clip is never read, for any index.
- VideoPlayerHook: browser media behaviour is abstract. What `load()` does (readyState is left unchanged by a reload), when readyState changes, the swallowed rejection of `play()`, and the order of media events are not modelled. `play()` and `pause()` are modelled only as the `paused` field.
- VideoPlayerHook: the active index is compared by parity with `% 2 == 0`. `ActiveSlot` proves that this test agrees with JavaScript's truncating `%` (`JsRemainder`) for every integer.
- VibeLogic: the presets' emoji and descriptions are kept as plain strings. Their display is not modelled, and a NaN duration is not modelled.
