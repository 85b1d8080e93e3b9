/**
 * The controller of src/App.js as the component holds it: state fields, an
 * active ref that points at one of two slot objects, and handlers that
 * update the slots' media fields in place. Every handler is proved to make
 * the transition that module Transport defines for it.
 */
module Player {
  import opened Wrappers
  import opened Video
  import opened TimestampLog
  import Transport

  class Controller {
    const s1: Slot
    const s2: Slot
    var isSyncPlay: bool
    var activeId: int
    /** `activeVideoRef.current`. */
    var activeRef: Slot?
    var isPlaying: bool
    var playbackRate: real
    var timestamps: seq<real>

    /** The two slots are distinct objects with ids 1 and 2, and the active ref holds one of them or nothing. */
    ghost predicate Linked()
      reads this
    {
      s1 != s2 && s1.id == 1 && s2.id == 2 &&
      (activeRef == null || activeRef == s1 || activeRef == s2)
    }

    /** The component between two user inputs: linked, and in a state the transport invariant admits. */
    ghost predicate Valid()
      reads this, s1, s2
    {
      Linked() && Transport.Inv(Model())
    }

    ghost function RefName(): Option<Transport.SlotName>
      reads this
    {
      if activeRef == null then None
      else if activeRef == s1 then Some(Transport.Slot1)
      else Some(Transport.Slot2)
    }

    /** The controller's state as a value. */
    ghost function Model(): Transport.State
      reads this, s1, s2
    {
      Transport.State(isSyncPlay, activeId, RefName(), isPlaying, playbackRate, timestamps, s1.Value(), s2.Value())
    }

    constructor ()
      ensures Valid() && fresh(s1) && fresh(s2)
      ensures Model() == Transport.Initial()
    {
      s1 := new Slot(1);
      s2 := new Slot(2);
      isSyncPlay := false;
      activeId := Transport.DISABLED_ID;
      activeRef := null;
      isPlaying := false;
      playbackRate := 1.0;
      timestamps := [];
    }

    /** `disallowControls()` on the current state. */
    function ControlsDisallowed(): (r: bool)
      reads this
      ensures r <==> !isSyncPlay && activeId == Transport.DISABLED_ID
    {
      Transport.DisallowControls(isSyncPlay, activeId)
    }

    method SetRefById(id: int)
      requires Linked()
      modifies this`activeRef
      ensures Linked()
      ensures Model() == Transport.SetRefById(old(Model()), id)
    {
      if id == 1 {
        activeRef := s1.Element();
      } else if id == 2 {
        activeRef := s2.Element();
      }
    }

    method OnVideoChange(id: int)
      requires Linked()
      modifies this`activeId, this`isSyncPlay, this`activeRef
      ensures Linked()
      ensures Model() == Transport.OnVideoChange(old(Model()), id)
    {
      if id == 0 {
        return;
      }
      activeId := id;
      isSyncPlay := false;
      SetRefById(id);
    }

    method PlayAll()
      requires Linked() && Transport.BothAttached(Model())
      modifies this`isPlaying, s1`paused, s2`paused
      ensures Linked()
      ensures Model() == Transport.PlayAll(old(Model()))
    {
      isPlaying := true;
      s1.Play();
      s2.Play();
    }

    method PauseAll()
      requires Linked() && Transport.BothAttached(Model())
      modifies this`isPlaying, s1`paused, s2`paused
      ensures Linked()
      ensures Model() == Transport.PauseAll(old(Model()))
    {
      isPlaying := false;
      s1.Pause();
      s2.Pause();
    }

    method TogglePlayback()
      requires Linked() && Transport.Routable(Model())
      modifies this`isPlaying, s1`paused, s2`paused
      ensures Linked()
      ensures Model() == Transport.TogglePlayback(old(Model()))
    {
      if isSyncPlay {
        if isPlaying {
          PauseAll();
        } else {
          PlayAll();
        }
      } else {
        if activeRef.paused {
          isPlaying := true;
          activeRef.Play();
        } else {
          isPlaying := false;
          activeRef.Pause();
        }
      }
    }

    method ToggleSyncPlay()
      requires Linked() && Transport.BothAttached(Model())
      modifies this`isSyncPlay, this`activeId, this`activeRef, this`isPlaying, s1`paused, s2`paused
      ensures Linked()
      ensures Model() == Transport.ToggleSyncPlay(old(Model()))
    {
      var wasSync := isSyncPlay;
      isSyncPlay := !wasSync;
      activeId := Transport.DISABLED_ID;
      if !wasSync {
        PlayAll();
      } else {
        PauseAll();
        activeId := 1;
        activeRef := s1.Element();
      }
    }

    method BackwardFrame(multiplier: real)
      requires Linked() && Transport.Routable(Model())
      modifies s1`currentTime, s2`currentTime
      ensures Linked()
      ensures Model() == Transport.BackwardFrame(old(Model()), multiplier)
    {
      if isSyncPlay {
        s1.currentTime := s1.currentTime - Transport.FRAME * multiplier;
        s2.currentTime := s2.currentTime - Transport.FRAME * multiplier;
      } else {
        activeRef.currentTime := activeRef.currentTime - Transport.FRAME * multiplier;
      }
    }

    method ForwardFrame(multiplier: real)
      requires Linked() && Transport.Routable(Model())
      modifies s1`currentTime, s2`currentTime
      ensures Linked()
      ensures Model() == Transport.ForwardFrame(old(Model()), multiplier)
    {
      if isSyncPlay {
        s1.currentTime := s1.currentTime + Transport.FRAME * multiplier;
        s2.currentTime := s2.currentTime + Transport.FRAME * multiplier;
      } else {
        activeRef.currentTime := activeRef.currentTime + Transport.FRAME * multiplier;
      }
    }

    method SetPlayback(rate: real)
      requires Linked() && Transport.Routable(Model())
      modifies this`playbackRate, s1`playbackRate, s2`playbackRate
      ensures Linked()
      ensures Model() == Transport.SetPlayback(old(Model()), rate)
    {
      playbackRate := rate;
      if isSyncPlay {
        s1.playbackRate := rate;
        s2.playbackRate := rate;
      } else {
        activeRef.playbackRate := rate;
      }
    }

    method AddNewTimestamp()
      requires Linked() && Transport.ActiveAttached(Model())
      modifies this`timestamps
      ensures Linked()
      ensures Model() == Transport.AddNewTimestamp(old(Model()))
    {
      timestamps := Append(timestamps, activeRef.currentTime);
    }

    method RemoveTimestamp(index: int)
      requires Linked()
      modifies this`timestamps
      ensures Linked()
      ensures Model() == Transport.RemoveTimestamp(old(Model()), index)
    {
      timestamps := RemoveAt(timestamps, index);
    }

    method JumpTo(time: real)
      requires Linked() && Transport.ActiveAttached(Model())
      modifies s1`currentTime, s2`currentTime
      ensures Linked()
      ensures Model() == Transport.JumpTo(old(Model()), time)
    {
      activeRef.currentTime := time;
    }

    method Execute(c: Transport.Command)
      requires Linked() && Transport.CommandDefined(Model(), c)
      modifies this, s1, s2
      ensures Linked()
      ensures Model() == Transport.Execute(old(Model()), c)
    {
      match c
      case StepBackward(m) => BackwardFrame(m);
      case StepForward(m) => ForwardFrame(m);
      case TogglePlay => TogglePlayback();
      case SetRate(r) => SetPlayback(r);
      case AddTimestamp => AddNewTimestamp();
      case NoCommand =>
    }

    method KeyDown(code: string, shift: bool)
      requires Linked() && Transport.KeyDownDefined(Model(), code, shift)
      modifies this, s1, s2
      ensures Linked()
      ensures Model() == Transport.KeyDown(old(Model()), code, shift)
    {
      if ControlsDisallowed() {
        return;
      }
      Execute(Transport.KeyCommand(code, shift));
    }

    function SlotOf(n: Transport.SlotName): Slot
    {
      if n == Transport.Slot1 then s1 else s2
    }

    /** A file chosen in slot n's input, followed by the load effect that reports the slot. */
    method ChooseFile(n: Transport.SlotName, files: Option<seq<VideoFile>>)
      requires Linked()
      modifies this`activeId, this`isSyncPlay, this`activeRef, s1`src, s2`src
      ensures Linked()
      ensures Model() == Transport.FileChosen(old(Model()), n, files)
    {
      var slot := SlotOf(n);
      slot.OnChange(files);
      if HasFile(files) {
        var report := slot.Reported();
        if report.Some? {
          OnVideoChange(report.value);
        }
      }
    }

    /** A click on slot n, handled by the loaded rendering only. */
    method ClickSlot(n: Transport.SlotName)
      requires Linked()
      modifies this`activeId, this`isSyncPlay, this`activeRef
      ensures Linked()
      ensures Model() == Transport.SlotClicked(old(Model()), n)
    {
      var report := SlotOf(n).Reported();
      if report.Some? {
        OnVideoChange(report.value);
      }
    }

    /** One user input, with the enabled state of each control as the page renders it. */
    method Handle(e: Transport.Event)
      requires Valid()
      modifies this, s1, s2
      ensures Valid()
      ensures Model() == Transport.Handle(old(Model()), e)
    {
      Transport.HandlePreservesInv(Model(), e);
      match e
      case KeyPressed(code, shift) =>
        KeyDown(code, shift);
      case PlayTogetherButton =>
        if s1.src.Some? && s2.src.Some? {
          ToggleSyncPlay();
        }
      case JumpToRow(row) =>
        if 0 <= row < |timestamps| {
          JumpTo(timestamps[row]);
        }
      case RemoveRow(row) =>
        if 0 <= row < |timestamps| {
          RemoveTimestamp(row);
        }
      case FileInput(n, files) =>
        if SlotOf(n).src.None? {
          ChooseFile(n, files);
        }
      case VideoClicked(n) =>
        ClickSlot(n);
      case PlayPauseButton =>
        if !ControlsDisallowed() {
          TogglePlayback();
        }
      case AddTimestampButton =>
        if !ControlsDisallowed() {
          AddNewTimestamp();
        }
      case PreviousFrameButton =>
        if !ControlsDisallowed() {
          BackwardFrame(1.0);
        }
      case NextFrameButton =>
        if !ControlsDisallowed() {
          ForwardFrame(1.0);
        }
      case RateSlider(r) =>
        if !ControlsDisallowed() {
          SetPlayback(r);
        }
      case OwnActivity(n, t, r, p) =>
        if SlotOf(n).src.Some? {
          SlotOf(n).PlayOnItsOwn(t, r, p);
        }
    }
  }
}
