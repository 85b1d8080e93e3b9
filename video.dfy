/**
 * One media slot of the player (src/Video.js): the file input that loads it,
 * the two paths by which it reports its id to the controller (the load effect
 * and the click on a loaded video), the highlight of the active slot, and the
 * media-element primitives the controller drives.
 */
module Video {
  import opened Wrappers

  /** A chosen file; it stands for the blob URL the slot creates from it. */
  datatype VideoFile = VideoFile(name: string)

  /** The observable state of one slot: its `videoSrc` and the fields of its video element. */
  datatype Media = Media(src: Option<VideoFile>, currentTime: real, playbackRate: real, paused: bool)

  /** A slot is loaded once `videoSrc` is set; only then is its video element rendered. */
  predicate Loaded(m: Media) {
    m.src.Some?
  }

  /** A slot before any file is chosen: no source, and the media defaults of a fresh element. */
  function Unloaded(): (m: Media)
    ensures !Loaded(m) && m.currentTime == 0.0 && m.playbackRate == 1.0 && m.paused
  {
    Media(None, 0.0, 1.0, true)
  }

  /** `files && files[0]`: the change event carries a file list with at least one file. */
  predicate HasFile(files: Option<seq<VideoFile>>) {
    files.Some? && |files.value| > 0
  }

  /** The file input's change handler: the first chosen file becomes the source; without one nothing changes. */
  function SelectFile(m: Media, files: Option<seq<VideoFile>>): Media {
    if HasFile(files) then m.(src := Some(files.value[0])) else m
  }

  /**
   * What the slot reports to the controller. The load effect returns early
   * while `videoSrc` is unset, and the click handler exists only in the loaded
   * rendering, so both report the slot's own id exactly when it is loaded.
   */
  function Report(m: Media, id: int): (r: Option<int>)
    ensures r.Some? <==> Loaded(m)
    ensures r.Some? ==> r.value == id
  {
    if Loaded(m) then Some(id) else None
  }

  /** The highlight style is applied to the rendered video exactly when `activeId === id`. */
  predicate Highlighted(m: Media, id: int, activeId: int) {
    Loaded(m) && activeId == id
  }

  /** `play()`, taken as succeeding at once (its asynchronous rejection is only logged). */
  function Playing(m: Media): Media {
    m.(paused := false)
  }

  /** `pause()`. */
  function Halted(m: Media): Media {
    m.(paused := true)
  }

  /** Assigning `currentTime`; no clamping against the media duration. */
  function Seeked(m: Media, t: real): Media {
    m.(currentTime := t)
  }

  /** Assigning `playbackRate`; no bounds are enforced. */
  function WithRate(m: Media, r: real): Media {
    m.(playbackRate := r)
  }

  /**
   * What the element does on its own: its native `controls` play, pause and
   * seek, playback advances `currentTime`, and the end of the media sets
   * `paused`. The source never changes.
   */
  function OwnPlayback(m: Media, t: real, rate: real, paused: bool): Media {
    m.(currentTime := t, playbackRate := rate, paused := paused)
  }

  /** A change event without a file leaves the slot as it was, loaded or not. */
  lemma NoFileChangesNothing(m: Media, files: Option<seq<VideoFile>>)
    requires !HasFile(files)
    ensures SelectFile(m, files) == m
    ensures Loaded(SelectFile(m, files)) == Loaded(m)
  {
  }

  /** A change event with a file loads the slot from its first file and touches nothing else. */
  lemma FileLoadsSlot(m: Media, files: Option<seq<VideoFile>>)
    requires HasFile(files)
    ensures Loaded(SelectFile(m, files))
    ensures SelectFile(m, files).src == Some(files.value[0])
    ensures SelectFile(m, files).(src := m.src) == m
  {
  }

  /** Once loaded, a slot reports its id on both paths; unloaded, it never reports. */
  lemma ReportAfterLoad(m: Media, files: Option<seq<VideoFile>>, id: int)
    ensures HasFile(files) ==> Report(SelectFile(m, files), id) == Some(id)
    ensures !HasFile(files) && !Loaded(m) ==> Report(SelectFile(m, files), id) == None
  {
  }

  /** The media element of one slot, updated in place by the controller. */
  class Slot {
    const id: int
    var src: Option<VideoFile>
    var currentTime: real
    var playbackRate: real
    var paused: bool

    /** The slot's state as a value. */
    function Value(): Media
      reads this
    {
      Media(src, currentTime, playbackRate, paused)
    }

    /** `videoRef.current`: the video element, which exists only in the loaded rendering. */
    function Element(): Slot?
      reads this
    {
      if src.Some? then this else null
    }

    /** What the load effect or a click reports through `onVideoChange`. */
    function Reported(): (r: Option<int>)
      reads this
      ensures r == Report(Value(), id)
    {
      if src.Some? then Some(id) else None
    }

    constructor (id: int)
      ensures this.id == id && Value() == Unloaded()
    {
      this.id := id;
      src := None;
      currentTime := 0.0;
      playbackRate := 1.0;
      paused := true;
    }

    /** The file input's change handler (src/Video.js:48-54). */
    method OnChange(files: Option<seq<VideoFile>>)
      modifies this`src
      ensures Value() == SelectFile(old(Value()), files)
    {
      if HasFile(files) {
        src := Some(files.value[0]);
      }
    }

    method Play()
      modifies this`paused
      ensures Value() == Playing(old(Value()))
    {
      paused := false;
    }

    method Pause()
      modifies this`paused
      ensures Value() == Halted(old(Value()))
    {
      paused := true;
    }

    /** The element's own controls, playback and end of media. */
    method PlayOnItsOwn(t: real, rate: real, paused: bool)
      modifies this`currentTime, this`playbackRate, this`paused
      ensures Value() == OwnPlayback(old(Value()), t, rate, paused)
    {
      currentTime := t;
      playbackRate := rate;
      this.paused := paused;
    }
  }
}
