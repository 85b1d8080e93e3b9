/**
 * The transport and synchronisation controller of the player (src/App.js),
 * as a state machine on values: the controller state, one function per
 * handler, the key-dispatch table, the enabled state of each control, and
 * the invariant that every reachable state keeps.
 */
module Transport {
  import opened Wrappers
  import opened Video
  import opened TimestampLog

  /** The active id meaning "no slot listens to the controls". */
  const DISABLED_ID: int := -1

  /** One frame step, in seconds: `1 / 100`. */
  const FRAME: real := 0.01

  /** The two slots, rendered with `id={1}` and `id={2}`. */
  datatype SlotName = Slot1 | Slot2

  function Id(n: SlotName): int {
    if n == Slot1 then 1 else 2
  }

  /**
   * The controller state: the `useState` fields, the element held by
   * `activeVideoRef.current` (none, or the video element of one slot), and
   * the two slots.
   */
  datatype State = State(
    isSyncPlay: bool,
    activeId: int,
    activeRef: Option<SlotName>,
    isPlaying: bool,
    playbackRate: real,
    timestamps: seq<real>,
    v1: Media,
    v2: Media)

  function MediaOf(s: State, n: SlotName): Media {
    if n == Slot1 then s.v1 else s.v2
  }

  function WithMedia(s: State, n: SlotName, m: Media): State {
    if n == Slot1 then s.(v1 := m) else s.(v2 := m)
  }

  /** The state when the page opens. */
  function Initial(): State {
    State(false, DISABLED_ID, None, false, 1.0, [], Unloaded(), Unloaded())
  }

  /** `disallowControls`: the single guard of the transport controls. */
  function DisallowControls(isSyncPlay: bool, activeId: int): (r: bool)
    ensures r <==> !isSyncPlay && activeId == DISABLED_ID
  {
    if isSyncPlay && activeId == DISABLED_ID then false
    else if activeId != DISABLED_ID then false
    else true
  }

  predicate Disallowed(s: State) {
    DisallowControls(s.isSyncPlay, s.activeId)
  }

  /** `videoRef.current` / `videoRef2.current`: the slot's video element, absent until the slot is loaded. */
  function ElementOf(s: State, n: SlotName): Option<SlotName> {
    if Loaded(MediaOf(s, n)) then Some(n) else None
  }

  /** Both video elements exist, as every sync-mode command needs. */
  predicate BothAttached(s: State) {
    Loaded(s.v1) && Loaded(s.v2)
  }

  /** The active ref holds an element, as every single-slot command needs. */
  predicate ActiveAttached(s: State) {
    s.activeRef.Some?
  }

  /** The elements a routed command dereferences exist. */
  predicate Routable(s: State) {
    if s.isSyncPlay then BothAttached(s) else ActiveAttached(s)
  }

  function Active(s: State): Media
    requires ActiveAttached(s)
  {
    MediaOf(s, s.activeRef.value)
  }

  function WithActive(s: State, m: Media): State
    requires ActiveAttached(s)
  {
    WithMedia(s, s.activeRef.value, m)
  }

  /** Whether a routed command reaches slot n: both slots in sync mode, the active one otherwise. */
  predicate Targets(s: State, n: SlotName) {
    s.isSyncPlay || s.activeRef == Some(n)
  }

  /** `setRefById`: ids 1 and 2 point the active ref at that slot's element; any other id leaves it. */
  function SetRefById(s: State, id: int): State {
    if id == 1 then s.(activeRef := ElementOf(s, Slot1))
    else if id == 2 then s.(activeRef := ElementOf(s, Slot2))
    else s
  }

  /** `onVideoChange`: a falsy id is ignored; otherwise the id becomes active and sync mode ends. */
  function OnVideoChange(s: State, id: int): State {
    if id == 0 then s
    else SetRefById(s.(activeId := id, isSyncPlay := false), id)
  }

  function PlayAll(s: State): State
    requires BothAttached(s)
  {
    s.(isPlaying := true, v1 := Playing(s.v1), v2 := Playing(s.v2))
  }

  function PauseAll(s: State): State
    requires BothAttached(s)
  {
    s.(isPlaying := false, v1 := Halted(s.v1), v2 := Halted(s.v2))
  }

  /** `togglePlayback`: in sync mode by the global flag; otherwise by the active element's own `paused`. */
  function TogglePlayback(s: State): State
    requires Routable(s)
  {
    if s.isSyncPlay then
      (if s.isPlaying then PauseAll(s) else PlayAll(s))
    else if Active(s).paused then
      WithActive(s.(isPlaying := true), Playing(Active(s)))
    else
      WithActive(s.(isPlaying := false), Halted(Active(s)))
  }

  /**
   * `toggleSyncPlay`: flips the flag and disables the active id; entering
   * plays both slots, leaving pauses both and makes slot 1 active again.
   * Later writes win, as React applies the queued updates in order.
   */
  function ToggleSyncPlay(s: State): State
    requires BothAttached(s)
  {
    var t := s.(isSyncPlay := !s.isSyncPlay, activeId := DISABLED_ID);
    if !s.isSyncPlay then PlayAll(t)
    else PauseAll(t).(activeId := 1, activeRef := ElementOf(s, Slot1))
  }

  function BackwardFrame(s: State, multiplier: real): State
    requires Routable(s)
  {
    if s.isSyncPlay then
      s.(v1 := Seeked(s.v1, s.v1.currentTime - FRAME * multiplier),
         v2 := Seeked(s.v2, s.v2.currentTime - FRAME * multiplier))
    else
      WithActive(s, Seeked(Active(s), Active(s).currentTime - FRAME * multiplier))
  }

  function ForwardFrame(s: State, multiplier: real): State
    requires Routable(s)
  {
    if s.isSyncPlay then
      s.(v1 := Seeked(s.v1, s.v1.currentTime + FRAME * multiplier),
         v2 := Seeked(s.v2, s.v2.currentTime + FRAME * multiplier))
    else
      WithActive(s, Seeked(Active(s), Active(s).currentTime + FRAME * multiplier))
  }

  /** `setPlayback`: the shared rate is always set; the elements per mode. */
  function SetPlayback(s: State, rate: real): State
    requires Routable(s)
  {
    var t := s.(playbackRate := rate);
    if s.isSyncPlay then t.(v1 := WithRate(s.v1, rate), v2 := WithRate(s.v2, rate))
    else WithActive(t, WithRate(Active(s), rate))
  }

  /** `addNewTimeStamp`: appends the active element's current time, in every mode. */
  function AddNewTimestamp(s: State): State
    requires ActiveAttached(s)
  {
    s.(timestamps := Append(s.timestamps, Active(s).currentTime))
  }

  /** The Remove button of a row. */
  function RemoveTimestamp(s: State, index: int): State {
    s.(timestamps := RemoveAt(s.timestamps, index))
  }

  /** The "Jump to" button of a row: `setCurrentTime(time)` without a ref, so the active element only. */
  function JumpTo(s: State, time: real): State
    requires ActiveAttached(s)
  {
    WithActive(s, Seeked(Active(s), time))
  }

  /** What a key selects in the dispatch table of `onKeyDown`. */
  datatype Command =
    | StepBackward(multiplier: real)
    | StepForward(multiplier: real)
    | TogglePlay
    | SetRate(rate: real)
    | AddTimestamp
    | NoCommand

  /** The dispatch table on `event.code`; Shift makes an arrow step 50 frames. */
  function KeyCommand(code: string, shift: bool): Command {
    var m := if shift then 50.0 else 1.0;
    if code == "ArrowLeft" then StepBackward(m)
    else if code == "ArrowRight" then StepForward(m)
    else if code == "Space" then TogglePlay
    else if code == "Digit1" then SetRate(0.1)
    else if code == "Digit2" then SetRate(0.15)
    else if code == "Digit3" then SetRate(0.25)
    else if code == "Digit4" then SetRate(0.35)
    else if code == "Digit5" then SetRate(0.5)
    else if code == "Digit6" then SetRate(0.75)
    else if code == "Digit7" then SetRate(0.9)
    else if code == "Digit8" then SetRate(1.5)
    else if code == "Digit9" then SetRate(2.0)
    else if code == "Digit0" then SetRate(1.0)
    else if code == "KeyT" then AddTimestamp
    else NoCommand
  }

  /** The elements a command dereferences exist. */
  predicate CommandDefined(s: State, c: Command) {
    match c
    case AddTimestamp => ActiveAttached(s)
    case NoCommand => true
    case _ => Routable(s)
  }

  function Execute(s: State, c: Command): State
    requires CommandDefined(s, c)
  {
    match c
    case StepBackward(m) => BackwardFrame(s, m)
    case StepForward(m) => ForwardFrame(s, m)
    case TogglePlay => TogglePlayback(s)
    case SetRate(r) => SetPlayback(s, r)
    case AddTimestamp => AddNewTimestamp(s)
    case NoCommand => s
  }

  predicate KeyDownDefined(s: State, code: string, shift: bool) {
    Disallowed(s) || CommandDefined(s, KeyCommand(code, shift))
  }

  /** `onKeyDown`: nothing happens while controls are disallowed; otherwise the table's command runs. */
  function KeyDown(s: State, code: string, shift: bool): State
    requires KeyDownDefined(s, code, shift)
  {
    if Disallowed(s) then s else Execute(s, KeyCommand(code, shift))
  }

  /** A file chosen in slot n's input; the load effect then reports the slot through `onVideoChange`. */
  function FileChosen(s: State, n: SlotName, files: Option<seq<VideoFile>>): State {
    var t := WithMedia(s, n, SelectFile(MediaOf(s, n), files));
    if !HasFile(files) then t
    else match Report(MediaOf(t, n), Id(n))
      case Some(id) => OnVideoChange(t, id)
      case None => t
  }

  /** A click on slot n: reported through `onVideoChange` only by a loaded slot. */
  function SlotClicked(s: State, n: SlotName): State {
    match Report(MediaOf(s, n), Id(n))
    case Some(id) => OnVideoChange(s, id)
    case None => s
  }

  /** The user's inputs: keys, the command-bar buttons, the rate slider, the table rows, the slots. */
  datatype Event =
    | KeyPressed(code: string, shift: bool)
    | PlayPauseButton
    | AddTimestampButton
    | PreviousFrameButton
    | NextFrameButton
    | PlayTogetherButton
    | RateSlider(rate: real)
    | JumpToRow(row: int)
    | RemoveRow(row: int)
    | FileInput(slot: SlotName, files: Option<seq<VideoFile>>)
    | VideoClicked(slot: SlotName)
    | OwnActivity(slot: SlotName, time: real, rate: real, paused: bool)

  /**
   * Whether the control behind an event is rendered and enabled: the bar
   * buttons and the slider are disabled by `disallowControls()`, "Play
   * Together" needs both video elements, a row exists for each entry, the
   * file input is rendered only while its slot is unloaded, and only a
   * rendered video element plays on its own.
   */
  predicate Enabled(s: State, e: Event) {
    match e
    case KeyPressed(_, _) => true
    case PlayTogetherButton => BothAttached(s)
    case JumpToRow(row) => 0 <= row < |s.timestamps|
    case RemoveRow(row) => 0 <= row < |s.timestamps|
    case FileInput(n, _) => !Loaded(MediaOf(s, n))
    case VideoClicked(_) => true
    case OwnActivity(n, _, _, _) => Loaded(MediaOf(s, n))
    case _ => !Disallowed(s)
  }

  /** The elements the handler of an enabled control dereferences exist. */
  predicate EventDefined(s: State, e: Event) {
    !Enabled(s, e) ||
    match e
    case KeyPressed(code, shift) => KeyDownDefined(s, code, shift)
    case PlayPauseButton => Routable(s)
    case AddTimestampButton => ActiveAttached(s)
    case PreviousFrameButton => Routable(s)
    case NextFrameButton => Routable(s)
    case PlayTogetherButton => true
    case RateSlider(_) => Routable(s)
    case JumpToRow(_) => ActiveAttached(s)
    case RemoveRow(_) => true
    case FileInput(_, _) => true
    case VideoClicked(_) => true
    case OwnActivity(_, _, _, _) => true
  }

  /** One user input, handled to completion. */
  function Handle(s: State, e: Event): State
    requires EventDefined(s, e)
  {
    if !Enabled(s, e) then s
    else match e
      case KeyPressed(code, shift) => KeyDown(s, code, shift)
      case PlayPauseButton => TogglePlayback(s)
      case AddTimestampButton => AddNewTimestamp(s)
      case PreviousFrameButton => BackwardFrame(s, 1.0)
      case NextFrameButton => ForwardFrame(s, 1.0)
      case PlayTogetherButton => ToggleSyncPlay(s)
      case RateSlider(r) => SetPlayback(s, r)
      case JumpToRow(row) => JumpTo(s, s.timestamps[row])
      case RemoveRow(row) => RemoveTimestamp(s, row)
      case FileInput(n, files) => FileChosen(s, n, files)
      case VideoClicked(n) => SlotClicked(s, n)
      case OwnActivity(n, t, r, p) => WithMedia(s, n, OwnPlayback(MediaOf(s, n), t, r, p))
  }

  /**
   * The invariant of every reachable state. The active ref only ever holds a
   * loaded slot's element; sync mode has both slots loaded and the active id
   * disabled; outside sync mode either nothing is loaded yet (controls
   * disallowed, empty log) or the active id names the slot the ref holds.
   */
  predicate Inv(s: State) {
    && (s.activeRef.Some? ==> Loaded(MediaOf(s, s.activeRef.value)))
    && (s.isSyncPlay ==> s.activeId == DISABLED_ID && BothAttached(s) && s.activeRef.Some?)
    && (!s.isSyncPlay ==>
          || (s.activeId == DISABLED_ID && s.activeRef == None && !Loaded(s.v1) && !Loaded(s.v2) && s.timestamps == [])
          || (s.activeId == 1 && s.activeRef == Some(Slot1))
          || (s.activeId == 2 && s.activeRef == Some(Slot2)))
  }

  // ---------------------------------------------------------------------
  // Properties of the handlers
  // ---------------------------------------------------------------------

  /** While controls are disallowed a key press changes nothing at all. */
  lemma KeyDownWhileDisallowed(s: State, code: string, shift: bool)
    requires Disallowed(s)
    ensures KeyDownDefined(s, code, shift) && KeyDown(s, code, shift) == s
  {
  }

  /** `onVideoChange`: falsy ids change nothing; otherwise exactly the id, the sync flag and (for 1 and 2) the ref change. */
  lemma OnVideoChangeSelects(s: State, id: int)
    ensures id == 0 ==> OnVideoChange(s, id) == s
    ensures id != 0 ==>
      var r := OnVideoChange(s, id);
      && r.activeId == id && !r.isSyncPlay
      && r.activeRef == (if id == 1 then ElementOf(s, Slot1) else if id == 2 then ElementOf(s, Slot2) else s.activeRef)
      && r.(activeId := s.activeId, isSyncPlay := s.isSyncPlay, activeRef := s.activeRef) == s
  {
  }

  /** Entering sync mode: the active id is disabled, both slots play, nothing else changes. */
  lemma ToggleSyncEnters(s: State)
    requires BothAttached(s) && !s.isSyncPlay
    ensures var r := ToggleSyncPlay(s);
      && r.isSyncPlay && r.activeId == DISABLED_ID && r.isPlaying
      && !r.v1.paused && !r.v2.paused
      && r == s.(isSyncPlay := true, activeId := DISABLED_ID, isPlaying := true, v1 := Playing(s.v1), v2 := Playing(s.v2))
  {
  }

  /** Leaving sync mode: both slots pause and slot 1 becomes active, whatever was active before. */
  lemma ToggleSyncLeaves(s: State)
    requires BothAttached(s) && s.isSyncPlay
    ensures var r := ToggleSyncPlay(s);
      && !r.isSyncPlay && r.activeId == 1 && r.activeRef == Some(Slot1) && !r.isPlaying
      && r.v1.paused && r.v2.paused
      && r == s.(isSyncPlay := false, activeId := 1, activeRef := Some(Slot1), isPlaying := false, v1 := Halted(s.v1), v2 := Halted(s.v2))
  {
  }

  /** Two toggles from single-slot mode always end on slot 1, out of sync mode and paused. */
  lemma ToggleSyncTwice(s: State)
    requires BothAttached(s) && !s.isSyncPlay
    ensures BothAttached(ToggleSyncPlay(s))
    ensures var r := ToggleSyncPlay(ToggleSyncPlay(s));
      && !r.isSyncPlay && r.activeId == 1 && r.activeRef == Some(Slot1)
      && !r.isPlaying && r.v1.paused && r.v2.paused
  {
    ToggleSyncEnters(s);
    ToggleSyncLeaves(ToggleSyncPlay(s));
  }

  /** A forward step moves each targeted slot by exactly `FRAME * m` and leaves everything else. */
  lemma ForwardFrameMoves(s: State, m: real, n: SlotName)
    requires Routable(s)
    ensures var r := ForwardFrame(s, m);
      && MediaOf(r, n).currentTime == MediaOf(s, n).currentTime + (if Targets(s, n) then FRAME * m else 0.0)
      && MediaOf(r, n).(currentTime := MediaOf(s, n).currentTime) == MediaOf(s, n)
      && r.(v1 := s.v1, v2 := s.v2) == s
  {
  }

  /** A backward step moves each targeted slot back by exactly `FRAME * m` and leaves everything else. */
  lemma BackwardFrameMoves(s: State, m: real, n: SlotName)
    requires Routable(s)
    ensures var r := BackwardFrame(s, m);
      && MediaOf(r, n).currentTime == MediaOf(s, n).currentTime - (if Targets(s, n) then FRAME * m else 0.0)
      && MediaOf(r, n).(currentTime := MediaOf(s, n).currentTime) == MediaOf(s, n)
      && r.(v1 := s.v1, v2 := s.v2) == s
  {
  }

  /** A forward step followed by a backward step of the same size restores the state, and conversely. */
  lemma FrameStepsCancel(s: State, m: real)
    requires Routable(s)
    ensures Routable(ForwardFrame(s, m)) && BackwardFrame(ForwardFrame(s, m), m) == s
    ensures Routable(BackwardFrame(s, m)) && ForwardFrame(BackwardFrame(s, m), m) == s
  {
  }

  /** The arrow keys step one frame, or fifty with Shift; the two bar buttons step one. */
  lemma FrameStepInputs(s: State, shift: bool)
    ensures KeyCommand("ArrowLeft", shift) == StepBackward(if shift then 50.0 else 1.0)
    ensures KeyCommand("ArrowRight", shift) == StepForward(if shift then 50.0 else 1.0)
    ensures Routable(s) && !Disallowed(s) ==>
      Handle(s, PreviousFrameButton) == BackwardFrame(s, 1.0) && Handle(s, NextFrameButton) == ForwardFrame(s, 1.0)
  {
  }

  /** `setPlayback` always sets the shared rate, and the rate of exactly the targeted slots. */
  lemma SetPlaybackRoutes(s: State, rate: real, n: SlotName)
    requires Routable(s)
    ensures var r := SetPlayback(s, rate);
      && r.playbackRate == rate
      && MediaOf(r, n) == (if Targets(s, n) then WithRate(MediaOf(s, n), rate) else MediaOf(s, n))
      && r.(v1 := s.v1, v2 := s.v2, playbackRate := s.playbackRate) == s
  {
  }

  /** The digit keys of the dispatch table and the rates they select. */
  lemma DigitKeyRates(shift: bool)
    ensures KeyCommand("Digit1", shift) == SetRate(0.1)
    ensures KeyCommand("Digit2", shift) == SetRate(0.15)
    ensures KeyCommand("Digit3", shift) == SetRate(0.25)
    ensures KeyCommand("Digit4", shift) == SetRate(0.35)
    ensures KeyCommand("Digit5", shift) == SetRate(0.5)
    ensures KeyCommand("Digit6", shift) == SetRate(0.75)
    ensures KeyCommand("Digit7", shift) == SetRate(0.9)
    ensures KeyCommand("Digit8", shift) == SetRate(1.5)
    ensures KeyCommand("Digit9", shift) == SetRate(2.0)
    ensures KeyCommand("Digit0", shift) == SetRate(1.0)
    ensures KeyCommand("Space", shift) == TogglePlay && KeyCommand("KeyT", shift) == AddTimestamp
  {
  }

  /** In sync mode play/pause follows the global flag and drives both slots together. */
  lemma TogglePlaybackInSync(s: State)
    requires s.isSyncPlay && BothAttached(s)
    ensures TogglePlayback(s) == if s.isPlaying then PauseAll(s) else PlayAll(s)
    ensures var r := TogglePlayback(s);
      r.isPlaying == !s.isPlaying && r.v1.paused == s.isPlaying && r.v2.paused == s.isPlaying
  {
  }

  /**
   * Outside sync mode play/pause follows the active element's own `paused`
   * flag, not the global one: it flips that element and sets the global flag
   * to the new playing state; the other slot is untouched.
   */
  lemma TogglePlaybackSingle(s: State, n: SlotName)
    requires !s.isSyncPlay && s.activeRef == Some(n)
    ensures var r := TogglePlayback(s);
      && r.isPlaying == MediaOf(s, n).paused
      && MediaOf(r, n) == MediaOf(s, n).(paused := !MediaOf(s, n).paused)
      && r.(isPlaying := s.isPlaying, v1 := s.v1, v2 := s.v2) == s
      && MediaOf(r, if n == Slot1 then Slot2 else Slot1) == MediaOf(s, if n == Slot1 then Slot2 else Slot1)
  {
  }

  /** Adding a timestamp appends the active element's time and keeps every earlier entry. */
  lemma AddTimestampAppends(s: State)
    requires ActiveAttached(s)
    ensures var r := AddNewTimestamp(s);
      && |r.timestamps| == |s.timestamps| + 1
      && r.timestamps[..|s.timestamps|] == s.timestamps
      && r.timestamps[|s.timestamps|] == Active(s).currentTime
      && r.(timestamps := s.timestamps) == s
  {
  }

  /** Removing a row deletes exactly that entry, keeping the others in order, and nothing else. */
  lemma RemoveRowDeletes(s: State, row: int)
    requires 0 <= row < |s.timestamps|
    ensures var r := Handle(s, RemoveRow(row));
      && r.timestamps[..row] + [s.timestamps[row]] + r.timestamps[row..] == s.timestamps
      && |r.timestamps| == |s.timestamps| - 1
      && r.(timestamps := s.timestamps) == s
  {
    RemoveAtReinserts(s.timestamps, row);
  }

  /** "Jump to" sets only the active element's time to the entry, even in sync mode. */
  lemma JumpToActiveOnly(s: State, row: int, n: SlotName)
    requires ActiveAttached(s) && 0 <= row < |s.timestamps|
    ensures var r := Handle(s, JumpToRow(row));
      && MediaOf(r, n) == (if s.activeRef == Some(n) then Seeked(MediaOf(s, n), s.timestamps[row]) else MediaOf(s, n))
      && r.(v1 := s.v1, v2 := s.v2) == s
  {
  }

  /** Loading a slot through its file input makes it active, with its element as the ref, and ends sync mode. */
  lemma FileChosenSelectsSlot(s: State, n: SlotName, files: Option<seq<VideoFile>>)
    ensures !HasFile(files) ==> FileChosen(s, n, files) == s
    ensures HasFile(files) ==>
      var r := FileChosen(s, n, files);
      && Loaded(MediaOf(r, n)) && MediaOf(r, n).src == Some(files.value[0])
      && r.activeId == Id(n) && !r.isSyncPlay && r.activeRef == Some(n)
      && !Disallowed(r)
    ensures HasFile(files) ==>
      FileChosen(s, n, files) ==
        WithMedia(s, n, MediaOf(s, n).(src := Some(files.value[0]))).(activeId := Id(n), isSyncPlay := false, activeRef := Some(n))
  {
  }

  /** A click reports a loaded slot, which becomes active; a click on an unloaded slot does nothing. */
  lemma ClickSelectsLoadedSlot(s: State, n: SlotName)
    ensures Loaded(MediaOf(s, n)) ==>
      var r := SlotClicked(s, n);
      r.activeId == Id(n) && !r.isSyncPlay && r.activeRef == Some(n) && r.(activeId := s.activeId, isSyncPlay := s.isSyncPlay, activeRef := s.activeRef) == s
    ensures !Loaded(MediaOf(s, n)) ==> SlotClicked(s, n) == s
  {
  }

  /**
   * The element's own controls, playback and end of media change only that
   * slot's time, rate and `paused`; the controller's flags do not follow.
   */
  lemma OwnActivityIsolated(s: State, n: SlotName, t: real, rate: real, paused: bool)
    ensures Loaded(MediaOf(s, n)) ==>
      var r := Handle(s, OwnActivity(n, t, rate, paused));
      && MediaOf(r, n) == Media(MediaOf(s, n).src, t, rate, paused)
      && MediaOf(r, if n == Slot1 then Slot2 else Slot1) == MediaOf(s, if n == Slot1 then Slot2 else Slot1)
      && r.(v1 := s.v1, v2 := s.v2) == s
    ensures !Loaded(MediaOf(s, n)) ==> Handle(s, OwnActivity(n, t, rate, paused)) == s
  {
  }

  /**
   * In sync mode Space follows the global flag, not the elements: after slot 1
   * pauses on its own while the pair plays, Space pauses both rather than
   * resuming slot 1.
   */
  lemma SyncSpaceFollowsFlag(s: State, t: real, rate: real)
    requires Inv(s) && s.isSyncPlay && s.isPlaying
    ensures var a := Handle(s, OwnActivity(Slot1, t, rate, true));
      && a.isPlaying && a.v1.paused
      && var b := Handle(a, KeyPressed("Space", false));
      && !b.isPlaying && b.v1.paused && b.v2.paused
  {
    HandlePreservesInv(s, OwnActivity(Slot1, t, rate, true));
  }

  // ---------------------------------------------------------------------
  // Reachable states
  // ---------------------------------------------------------------------

  lemma InitialInv()
    ensures Inv(Initial()) && Disallowed(Initial())
  {
  }

  /** In a reachable state every control the user can operate finds the elements it dereferences. */
  lemma InvDefinesEvents(s: State, e: Event)
    requires Inv(s)
    ensures EventDefined(s, e)
  {
  }

  /** Every handled input keeps the invariant. */
  lemma HandlePreservesInv(s: State, e: Event)
    requires Inv(s)
    ensures EventDefined(s, e) && Inv(Handle(s, e))
  {
    InvDefinesEvents(s, e);
  }

  /** The state reached from the initial one by a sequence of user inputs. */
  function Replay(events: seq<Event>): (s: State)
    ensures Inv(s)
  {
    if events == [] then Initial()
    else
      var p := Replay(events[..|events| - 1]);
      HandlePreservesInv(p, events[|events| - 1]);
      Handle(p, events[|events| - 1])
  }

  /** Under the invariant, controls are disallowed exactly while no slot has been loaded. */
  lemma DisallowedUntilLoaded(s: State)
    requires Inv(s)
    ensures Disallowed(s) <==> !Loaded(s.v1) && !Loaded(s.v2)
  {
  }

  /**
   * Under the invariant exactly one control regime holds: sync mode, one
   * slot selected, or fully disabled; and the highlighted slot is the active
   * one: none in sync or disabled mode, exactly the ref's slot otherwise.
   */
  lemma RegimesAndHighlight(s: State)
    requires Inv(s)
    ensures s.isSyncPlay ==> !Highlighted(s.v1, 1, s.activeId) && !Highlighted(s.v2, 2, s.activeId)
    ensures !s.isSyncPlay && !Disallowed(s) ==>
      s.activeRef.Some? &&
      (forall n: SlotName :: Highlighted(MediaOf(s, n), Id(n), s.activeId) <==> s.activeRef == Some(n))
    ensures Disallowed(s) ==> !Highlighted(s.v1, 1, s.activeId) && !Highlighted(s.v2, 2, s.activeId)
  {
  }

  // ---------------------------------------------------------------------
  // Scenarios
  // ---------------------------------------------------------------------

  /**
   * Load only slot 1: it becomes active and controls are allowed; "Play
   * Together" does nothing since slot 2 has no element; `t` logs slot 1's time.
   */
  lemma ScenarioOneSlot(f: VideoFile)
    ensures var s := Replay([FileInput(Slot1, Some([f]))]);
      && s.activeId == 1 && !Disallowed(s)
      && Handle(s, PlayTogetherButton) == s
      && Handle(s, KeyPressed("KeyT", false)).timestamps == [s.v1.currentTime]
  {
    var es := [FileInput(Slot1, Some([f]))];
    var s := Replay(es);
    assert es[..0] == [];
    assert Replay(es[..0]) == Initial();
    assert s == Handle(Replay(es[..0]), es[0]);
    assert s == FileChosen(Initial(), Slot1, Some([f]));
  }

  /** Both slots loaded: entering sync plays both, Digit3 sets both rates to 0.25, leaving pauses both on slot 1. */
  lemma ScenarioSyncRate(s: State)
    requires Inv(s) && BothAttached(s) && !s.isSyncPlay
    ensures var a := Handle(s, PlayTogetherButton);
      && a.isSyncPlay && !a.v1.paused && !a.v2.paused
      && var b := Handle(a, KeyPressed("Digit3", false));
      && b.v1.playbackRate == 0.25 && b.v2.playbackRate == 0.25 && b.playbackRate == 0.25
      && var c := Handle(b, PlayTogetherButton);
      && !c.isSyncPlay && c.activeId == 1 && c.v1.paused && c.v2.paused
  {
    HandlePreservesInv(s, PlayTogetherButton);
    var a := Handle(s, PlayTogetherButton);
    HandlePreservesInv(a, KeyPressed("Digit3", false));
    var b := Handle(a, KeyPressed("Digit3", false));
    HandlePreservesInv(b, PlayTogetherButton);
  }
}
