# Dual-video debug player: transport and synchronisation controller

This project models the core of a browser-based player that compares two
local videos side by side. The model covers the controller in `src/App.js`
and the slot contract in `src/Video.js`:

- the sync-mode flag, the active slot id (`DISABLED_ID = -1`, `1` or `2`), the
  active ref, the global `isPlaying` flag and playback rate, and the
  timestamp log;
- two slots, each with `currentTime`, `playbackRate`, `paused` and its
  `videoSrc`.

Every user input is one handler that runs to completion. It changes the
controller state and one or both slots.

The model has two layers:

- `Transport` (transport.dfy) is the state machine on values. It has one
  function per handler, the key-dispatch table, the enabled state of each
  control, and an invariant. That invariant is proved to hold in every state
  reachable from page load (`Transport.Replay`).
- `Player.Controller` (controller.dfy) is the component as the source keeps
  it. It is a class whose fields are the state and whose `activeRef` points
  at one of two `Video.Slot` objects. Its handlers assign media fields in
  place and call `play()`/`pause()` on the slots. Each method is proved to
  make exactly the transition that `Transport` defines for it.

`TimestampLog` (timestamp_log.dfy) holds the pure log operations:

- append;
- row removal with the semantics of JavaScript's `splice(index, 1)`;
- the duration column.

`Video` (video.dfy) holds the slot. Times and rates are `real`, so
`FRAME = 1/100` is exact.

Some modelling choices:

- A slot's video element exists only in its loaded rendering. So `videoRef.current` is
  modelled as present exactly when the slot is loaded. As a result,
  `setRefById(1)` on an unloaded slot 1 leaves the active ref empty, just as
  the source copies `undefined`.
- A handler that dereferences a missing element would throw a `TypeError` in
  the source. The model turns that into a precondition: `Routable` or
  `ActiveAttached`. `Transport.InvDefinesEvents` proves that no reachable
  state and no enabled control violates it. That holds only because the
  model keeps slot 2 mounted (see "## Left out"): in the source, slot 2
  unmounts once the log is non-empty, and in sync mode the arrows, Space,
  the digits and the slider then throw.
- React `setX` calls inside one handler are assignments, and the last one
  wins. `toggleSyncPlay` sets `DISABLED_ID` and then `1` when it leaves sync
  mode, so the result is `1`.

Two behaviours of the code worth knowing; the model follows the code:

- Two toggles of sync mode end at slot 1 only when the first toggle enters
  sync mode. From sync mode, the pair leaves sync mode and then enters it
  again, which ends at `DISABLED_ID`.
- A timestamp, in every mode, takes the time of the element held by the
  active ref. In sync mode that is the slot that was active before sync mode
  was entered. "Jump to" also moves only that element.

## Model

| member | source | states |
|---|---|---|
| `Video.Unloaded` | src/Video.js:40 | a slot starts with no source, time 0, rate 1 and paused |
| `Video.Report` | src/Video.js:42-45 | a slot reports exactly when it is loaded, and what it reports is its own id |
| `Video.NoFileChangesNothing` | src/Video.js:48-54 | a change event with no file list or an empty one leaves the slot unchanged, unloaded if it was |
| `Video.FileLoadsSlot` | src/Video.js:48-54 | a change event with a file loads the slot from the first file and changes nothing else |
| `Video.ReportAfterLoad` | src/Video.js:42-67 | once loaded, the slot reports its own id by the load effect and by a click; an unloaded slot never reports |
| `Video.Slot.constructor` | src/Video.js:36-40 | a new slot object is unloaded with the default media state |
| `Video.Slot.Element` | src/Video.js:69-116 | definition of `videoRef.current`: present only in the loaded rendering (no contract) |
| `Video.Slot.Reported` | src/Video.js:42-45 | the object reports what `Video.Report` says for its state and id |
| `Video.Slot.OnChange` | src/Video.js:48-54 | the handler updates the slot's source in place as `SelectFile` says, and nothing else |
| `Video.Slot.Play` | src/App.js:146-150 | `play()` clears `paused` only |
| `Video.Slot.Pause` | src/App.js:151-155 | `pause()` sets `paused` only |
| `Video.HasFile` | src/Video.js:50 | `files && files[0]`; no contract; its properties are in `Video.NoFileChangesNothing` and `Video.FileLoadsSlot` |
| `Video.Playing` | src/App.js:148-149 | `play()`; no contract; its properties are in `Transport.ToggleSyncEnters` and `Transport.TogglePlaybackSingle` |
| `Video.Halted` | src/App.js:153-154 | `pause()`; no contract; its properties are in `Transport.ToggleSyncLeaves` and `Transport.TogglePlaybackSingle` |
| `Video.Seeked` | src/App.js:98-104 | assigning `currentTime`; no contract; its properties are in `Transport.ForwardFrameMoves`, `Transport.BackwardFrameMoves` and `Transport.JumpToActiveOnly` |
| `Video.WithRate` | src/App.js:136-142 | assigning `playbackRate`; no contract; its properties are in `Transport.SetPlaybackRoutes` |
| `Video.SelectFile` | src/Video.js:48-54 | no contract; its properties are in `Video.NoFileChangesNothing` and `Video.FileLoadsSlot` |
| `Video.Highlighted` | src/Video.js:127-132 | no contract; its properties are in `Transport.RegimesAndHighlight` |
| `Video.OwnPlayback` | src/Video.js:114-122 | the element's native controls, playback and end of media; no contract; its properties are in `Transport.OwnActivityIsolated` |
| `Video.Slot.PlayOnItsOwn` | src/Video.js:114-122 | the element changes its own time, rate and `paused` in place as `OwnPlayback` says, and nothing else |
| `TimestampLog.Append` | src/App.js:296-301 | adding a timestamp adds exactly one entry at the end, equal to the time given, and leaves the prefix unchanged |
| `TimestampLog.SpliceStart` | src/App.js:430 | the start position of `splice(index, 1)`: the index itself when in range, counted from the end when negative, and clamped to 0 below and to the length above |
| `TimestampLog.RemoveAt` | src/App.js:427-436 | removing row i of n leaves n-1 entries: those before i in place and those after shifted down by one; an index past the end removes nothing |
| `TimestampLog.RemoveAtReinserts` | src/App.js:427-436 | putting the removed entry back at i gives the old log, and the multisets differ by exactly that entry |
| `TimestampLog.Durations` | src/App.js:409-416 | the duration column has one cell per entry, and cell i is the cell that row i renders |
| `TimestampLog.DurationAt` | src/App.js:413-416 | no contract; its properties are in `TimestampLog.DurationColumnCells` and `TimestampLog.Durations` |
| `TimestampLog.DurationColumnCells` | src/App.js:413-416 | row 0 shows the no-predecessor marker `--`; row i > 0 shows `t[i] - t[i-1]` |
| `TimestampLog.DurationsBeforeRemoved` | src/App.js:409-436 | after removing row i, every row before i keeps its duration |
| `TimestampLog.DurationAtRemoved` | src/App.js:409-436 | after removing row i, the entry now at i is measured from the entry before the removed one, or shows `--` if it is now first |
| `TimestampLog.DurationsAfterRemoved` | src/App.js:409-436 | after removing row i, every later row shows the duration it had one row down |
| `TimestampLog.DurationsSpan` | src/App.js:409-416 | the durations of a non-empty log add up to its last entry minus its first |
| `TimestampLog.RemoveMiddleExample` | src/App.js:427-436 | `[1.0, 2.5, 4.0]` with row 1 removed is `[1.0, 4.0]`, whose second duration is 3.0 |
| `Transport.Initial` | src/App.js:66-78 | no contract; its properties are in `Transport.InitialInv` |
| `Transport.ElementOf` | src/App.js:80-90 | `videoRef.current`/`videoRef2.current`, present only once the slot is loaded; no contract; its properties are in `Transport.OnVideoChangeSelects` and `Transport.ToggleSyncLeaves` |
| `Transport.SetRefById` | src/App.js:80-90 | no contract; its properties are in `Transport.OnVideoChangeSelects` and `Player.Controller.SetRefById` |
| `Transport.OnVideoChange` | src/App.js:197-205 | no contract; its properties are in `Transport.OnVideoChangeSelects` |
| `Transport.PlayAll` | src/App.js:146-150 | no contract; its properties are in `Transport.ToggleSyncEnters` and `Transport.TogglePlaybackInSync` |
| `Transport.PauseAll` | src/App.js:151-155 | no contract; its properties are in `Transport.ToggleSyncLeaves` and `Transport.TogglePlaybackInSync` |
| `Transport.TogglePlayback` | src/App.js:156-172 | no contract; its properties are in `Transport.TogglePlaybackInSync` and `Transport.TogglePlaybackSingle` |
| `Transport.ToggleSyncPlay` | src/App.js:175-195 | no contract; its properties are in `Transport.ToggleSyncEnters`, `Transport.ToggleSyncLeaves` and `Transport.ToggleSyncTwice` |
| `Transport.BackwardFrame` | src/App.js:105-118 | no contract; its properties are in `Transport.BackwardFrameMoves` and `Transport.FrameStepsCancel` |
| `Transport.ForwardFrame` | src/App.js:119-132 | no contract; its properties are in `Transport.ForwardFrameMoves` and `Transport.FrameStepsCancel` |
| `Transport.SetPlayback` | src/App.js:133-145 | no contract; its properties are in `Transport.SetPlaybackRoutes` |
| `Transport.AddNewTimestamp` | src/App.js:296-301 | no contract; its properties are in `Transport.AddTimestampAppends` |
| `Transport.RemoveTimestamp` | src/App.js:427-436 | no contract; its properties are in `Transport.RemoveRowDeletes` |
| `Transport.JumpTo` | src/App.js:98-104 | no contract; its properties are in `Transport.JumpToActiveOnly` |
| `Transport.KeyCommand` | src/App.js:230-280 | no contract; its properties are in `Transport.FrameStepInputs` and `Transport.DigitKeyRates` |
| `Transport.Execute` | src/App.js:230-280 | no contract; its properties are in `Transport.ScenarioSyncRate` and `Transport.HandlePreservesInv` |
| `Transport.KeyDown` | src/App.js:217-285 | no contract; its properties are in `Transport.KeyDownWhileDisallowed` |
| `Transport.FileChosen` | src/Video.js:42-54 | no contract; its properties are in `Transport.FileChosenSelectsSlot` |
| `Transport.SlotClicked` | src/Video.js:65-67 | no contract; its properties are in `Transport.ClickSelectsLoadedSlot` |
| `Transport.Enabled` | src/App.js:317-452 | no contract; its properties are in `Transport.InvDefinesEvents` |
| `Transport.Handle` | src/App.js:317-452 | no contract; its properties are in `Transport.HandlePreservesInv` and `Transport.Replay` |
| `Transport.Inv` | src/App.js:60-90 | no contract; its properties are in `Transport.InitialInv`, `Transport.HandlePreservesInv` and `Transport.DisallowedUntilLoaded` |
| `Transport.DisallowControls` | src/App.js:208-215 | controls are disallowed exactly when sync mode is off and the active id is `DISABLED_ID` |
| `Transport.KeyDownWhileDisallowed` | src/App.js:217-227 | while controls are disallowed a key press changes no controller or slot state |
| `Transport.OnVideoChangeSelects` | src/App.js:197-205 | a falsy id changes nothing; otherwise the id becomes active and sync mode ends; the active ref moves only for ids 1 and 2, to that slot's element; nothing else changes |
| `Transport.ToggleSyncEnters` | src/App.js:175-181 | entering sync mode disables the active id, plays both slots, sets `isPlaying`, and leaves the ref, times and rates |
| `Transport.ToggleSyncLeaves` | src/App.js:175-186 | leaving sync mode pauses both slots, clears `isPlaying`, and makes slot 1 the active id and ref whatever was active before |
| `Transport.ToggleSyncTwice` | src/App.js:175-186 | two toggles from single-slot mode end out of sync mode, on slot 1, with both slots paused |
| `Transport.ForwardFrameMoves` | src/App.js:119-132 | a forward step adds `FRAME * m` to the time of both slots in sync mode and of the active slot only otherwise; the other slot and all other fields are untouched |
| `Transport.BackwardFrameMoves` | src/App.js:105-118 | a backward step subtracts `FRAME * m` under the same routing; nothing else changes |
| `Transport.FrameStepsCancel` | src/App.js:105-132 | a forward step and a backward step with the same multiplier, in either order, restore the state |
| `Transport.FrameStepInputs` | src/App.js:231-240 | ArrowLeft and ArrowRight step 50 frames with Shift and 1 without; the previous/next buttons (lines 332-341) step by 1 |
| `Transport.SetPlaybackRoutes` | src/App.js:133-145 | `setPlayback(r)` always sets the global rate to r, and sets r on both slots in sync mode or on the active slot only otherwise; nothing else changes |
| `Transport.DigitKeyRates` | src/App.js:246-278 | Digit1..Digit9 select 0.1, 0.15, 0.25, 0.35, 0.5, 0.75, 0.9, 1.5, 2.0; Digit0 selects 1.0; Space toggles playback and KeyT adds a timestamp |
| `Transport.TogglePlaybackInSync` | src/App.js:156-162 | in sync mode play/pause calls `pauseAll` when `isPlaying` and `playAll` otherwise, so both slots flip together |
| `Transport.TogglePlaybackSingle` | src/App.js:163-171 | outside sync mode play/pause branches on the active slot's own `paused` flag, sets `isPlaying` to the new playing state, and touches only the active slot |
| `Transport.AddTimestampAppends` | src/App.js:296-301 | a timestamp appends the active element's current time, keeps every earlier entry, and changes nothing else |
| `Transport.RemoveRowDeletes` | src/App.js:424-437 | the Remove button of row i leaves the old log with exactly entry i missing and the rest in order; nothing else changes |
| `Transport.JumpToActiveOnly` | src/App.js:419-423 | "Jump to" sets only the active element's time to the row's entry, even in sync mode |
| `Transport.FileChosenSelectsSlot` | src/Video.js:42-54 | loading a slot sets its source to the first file, makes it the active id and the active ref, turns sync mode off and allows controls, and changes nothing else; a change event without a file changes nothing |
| `Transport.ClickSelectsLoadedSlot` | src/Video.js:65-96 | a click on a loaded slot makes it active and ends sync mode, changing nothing else; a click on an unloaded slot does nothing |
| `Transport.OwnActivityIsolated` | src/Video.js:114-122 | the element's own activity sets only that slot's time, rate and `paused`, leaves the other slot and every controller field, and does nothing to an unloaded slot |
| `Transport.SyncSpaceFollowsFlag` | src/App.js:156-162 | in sync mode Space follows `isPlaying`, not the elements: after slot 1 pauses on its own while the pair plays, Space pauses both instead of resuming slot 1 |
| `Transport.InitialInv` | src/App.js:66-78 | the page-load state satisfies the invariant and has controls disallowed |
| `Transport.InvDefinesEvents` | src/App.js:317-349 | in a state satisfying the invariant, every enabled control and every key finds the elements it dereferences |
| `Transport.HandlePreservesInv` | src/App.js:217-349 | every user input keeps the invariant |
| `Transport.Replay` | src/App.js:60-78 | every state reached from page load by any sequence of inputs satisfies the invariant |
| `Transport.DisallowedUntilLoaded` | src/App.js:207-215 | in a reachable state, controls are disallowed exactly while neither slot has been loaded |
| `Transport.RegimesAndHighlight` | src/Video.js:127-132 | in a reachable state, no slot is highlighted in sync mode or while disabled; in single-slot mode exactly the slot the active ref holds is highlighted |
| `Transport.ScenarioOneSlot` | src/App.js:296-349 | after loading only slot 1, slot 1 is active, controls are allowed, "Play Together" does nothing, and `t` logs slot 1's time |
| `Transport.ScenarioSyncRate` | src/App.js:175-275 | with both slots loaded: entering sync plays both; Digit3 sets both rates and the global rate to 0.25; leaving pauses both on slot 1 |
| `Player.Controller.constructor` | src/App.js:62-78 | the new component has two fresh unloaded slots and the initial state |
| `Player.Controller.ControlsDisallowed` | src/App.js:208-215 | the guard on the fields: disallowed exactly when sync mode is off and the active id is `DISABLED_ID` |
| `Player.Controller.SetRefById` | src/App.js:80-90 | the ref moves to slot 1's or slot 2's element for ids 1 and 2, and stays for any other id |
| `Player.Controller.OnVideoChange` | src/App.js:197-205 | the in-place handler makes the `OnVideoChange` transition, changing only the id, sync flag and ref |
| `Player.Controller.PlayAll` | src/App.js:146-150 | sets `isPlaying` and plays both slot objects |
| `Player.Controller.PauseAll` | src/App.js:151-155 | clears `isPlaying` and pauses both slot objects |
| `Player.Controller.TogglePlayback` | src/App.js:156-172 | the in-place handler makes the `TogglePlayback` transition, changing only `isPlaying` and `paused` flags |
| `Player.Controller.ToggleSyncPlay` | src/App.js:175-195 | the in-place handler makes the `ToggleSyncPlay` transition |
| `Player.Controller.BackwardFrame` | src/App.js:105-118 | assigns the slot objects' `currentTime` and nothing else, as the `BackwardFrame` transition says |
| `Player.Controller.ForwardFrame` | src/App.js:119-132 | assigns the slot objects' `currentTime` and nothing else, as the `ForwardFrame` transition says |
| `Player.Controller.SetPlayback` | src/App.js:133-145 | assigns the global rate and the targeted slot objects' `playbackRate`, as the `SetPlayback` transition says |
| `Player.Controller.AddNewTimestamp` | src/App.js:296-301 | replaces the log by the appended one and changes nothing else |
| `Player.Controller.RemoveTimestamp` | src/App.js:427-436 | replaces the log by the spliced clone and changes nothing else |
| `Player.Controller.JumpTo` | src/App.js:98-104 | `setCurrentTime(time)` with no ref assigns the active element's time |
| `Player.Controller.Execute` | src/App.js:230-280 | runs the command the dispatch table selected |
| `Player.Controller.KeyDown` | src/App.js:217-285 | the key handler returns early while controls are disallowed and otherwise runs the table's command |
| `Player.Controller.ChooseFile` | src/Video.js:42-54 | the file input's handler and the load effect, run against the controller |
| `Player.Controller.ClickSlot` | src/Video.js:65-67 | a click reports a loaded slot through `onVideoChange` |
| `Player.Controller.Handle` | src/App.js:317-452 | between inputs the component satisfies the transport invariant; one user input, with each control enabled as the page renders it, makes the `Transport.Handle` transition and keeps the invariant |

## Left out

- Rendering and styling are not modelled: `mergeStyles`, the Fabric components, the info modal and its toggle, icons and the help text. The help text's "1ms" and "50ms" do not match `FRAME` (0.01 s per step, 0.5 s with Shift); the model follows the constant. The `MessageBar`'s `onDismiss={p.resetChoice}` (src/App.js:308) refers to a `p` that src/App.js declares nowhere, so evaluating it while `App` renders throws a `ReferenceError` and the component as written never mounts. The model describes `App` with that prop removed.
- The `keydown` listener's registration and removal are not modelled, nor are `preventDefault`, `stopPropagation` and the console logging. These are DOM plumbing. The `event.type === "keydown"` test always holds, because the handler is only registered for `keydown`.
- `play()` is taken to clear `paused` at once. The asynchronous rejection of its promise, which is only logged, is not modelled.
- The model does not capture floating-point behaviour. Times and rates are exact reals, so `FRAME * m` is not rounded. The `toFixed` displays and the slot's `updateTimestamp` clock text are left out.
- File picking and `URL.createObjectURL` are not modelled. The chosen file stands for the blob URL made from it.
- Slot 2 is unmounted while the log is non-empty (src/App.js:399-452). The model keeps both slots mounted. In the source, slot 2's element is then gone, and it comes back unloaded when the log empties again. Sync mode stays on meanwhile: "Play Together" is disabled but `isSyncPlay` is not cleared, so the arrows, Space, the digits and the slider then throw a `TypeError` (src/App.js:110, 123-124, 139, 149 and 154). The freedom from dereference errors that `Transport.InvDefinesEvents` proves holds only for the model with slot 2 mounted. Outside sync mode with slot 2 active, `activeVideoRef.current` keeps slot 2's detached element, so the arrows, Space, the digits, `t` and "Jump to" act on an element that is not shown. When the log empties, slot 2 comes back unloaded while still active with id 2, and its file input can load it again; `Transport.Inv` rules out that state, so the model does not describe it.
- Stale closures and render timing are not modelled. Each handler, and each queued log update, sees the current state.
- `onVideoChange` ids are integers, and the only falsy id is 0. The other falsy JavaScript values (`undefined`, `NaN`) are not modelled.
- The rate slider's range of 0.1 to 3.0 in steps of 0.05 is a UI affordance that the controller does not check. `RateSlider` accepts any rate.
- Transport.ToggleSyncTwice: requires the first toggle to enter sync mode, because that is when the source ends on slot 1. Starting from sync mode, the pair ends back in sync mode with `DISABLED_ID`, as `ToggleSyncLeaves` followed by `ToggleSyncEnters` states.
- Transport.BackwardFrameMoves: states the time that is assigned, not what the element then reports. A real media element clamps a seek to the range from 0 to the media's duration, so a backward step at time 0 (or a forward step past the end) does not store the assigned value. The model has no duration and no clamping, and reaches a negative time.
- Transport.ForwardFrameMoves: states the time that is assigned, not what the element then reports. A real media element clamps a seek past the end of the media to its duration, which the model does not have.
- Transport.FrameStepsCancel: holds only under the same abstraction; with clamping at 0 or at the end, a step and its opposite need not restore the time.
- The element's own activity (native `controls` at src/Video.js:120, playback advancing `currentTime`, the end of the media setting `paused`) is one event, `Transport.OwnActivity`, that sets a loaded slot's time, rate and `paused` to arbitrary values. No timing, `timeupdate` rate or duration is modelled.
