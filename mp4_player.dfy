/** The MP4 player in use: a phase-sync effect that seeks and starts or
    stops the video when the phase changes, a polling tick that pauses at
    the phase boundary and signals completion, and the play/pause and replay
    buttons. There is no "already signalled" flag: the signal is
    level-triggered and repeats on every tick at or past the boundary. */
module Mp4Player {
  import opened Basics
  import opened Playback

  datatype Props = Props(phase: VideoPhase, startTime: TimeValue, freezeTime: TimeValue, endTime: TimeValue)

  /** The video element's position and the component's two pieces of state.
      `playing` stands for both the element's play state and `isPlaying`:
      the component always changes them together. `shownTime` is the
      `currentTime` state shown beside the controls. */
  datatype Media = Media(position: real, playing: bool, shownTime: real)

  /** The phase-sync effect. */
  function Entered(p: Props, m: Media): (r: Media)
    ensures p.phase == Initial ==> r == m.(position := Seconds(p.startTime), playing := false)
    ensures p.phase == Reveal ==> r == m.(position := Seconds(p.freezeTime), playing := true)
    ensures p.phase == Other ==> r == m
  {
    match p.phase
    case Initial => m.(position := Seconds(p.startTime), playing := false)
    case Reveal => m.(position := Seconds(p.freezeTime), playing := true)
    case Other => m
  }

  /** Where a tick in the current phase stops playback, if anywhere. */
  function Boundary(p: Props): (b: Option<real>)
    ensures b.Some? <==> p.phase != Other
    ensures p.phase == Initial ==> b == Some(Seconds(p.freezeTime))
    ensures p.phase == Reveal ==> b == Some(Seconds(p.endTime))
  {
    match p.phase
    case Initial => Some(Seconds(p.freezeTime))
    case Reveal => Some(Seconds(p.endTime))
    case Other => None
  }

  /** One run of the interval callback, the element being at `observed`:
      the shown time follows the element; at or past the boundary the video
      pauses and the phase is signalled. */
  function Ticked(p: Props, m: Media, observed: real): (r: (Media, Option<VideoPhase>))
    ensures r.0.position == observed && r.0.shownTime == observed
    ensures r.1.Some? <==> Boundary(p).Some? && observed >= Boundary(p).value
    ensures r.1.Some? ==> r.1 == Some(p.phase) && !r.0.playing
    ensures r.1.None? ==> r.0.playing == m.playing
  {
    var seen := m.(position := observed, shownTime := observed);
    if p.phase == Initial && observed >= Seconds(p.freezeTime) then
      (seen.(playing := false), Some(Initial))
    else if p.phase == Reveal && observed >= Seconds(p.endTime) then
      (seen.(playing := false), Some(Reveal))
    else
      (seen, None)
  }

  /** handlePlayPause. */
  function PlayPaused(m: Media): (r: Media)
    ensures r.playing == !m.playing
    ensures r.(playing := m.playing) == m
  {
    m.(playing := !m.playing)
  }

  /** The position the phase rewinds to: the start in `initial`, the freeze
      point in every other phase. */
  function PhaseStart(p: Props): (t: real)
    ensures p.phase == Initial ==> t == Seconds(p.startTime)
    ensures p.phase != Initial ==> t == Seconds(p.freezeTime)
  {
    if p.phase == Initial then Seconds(p.startTime) else Seconds(p.freezeTime)
  }

  /** handleReplay. */
  function Replayed(p: Props, m: Media): (r: Media)
    ensures r.position == PhaseStart(p) && r.shownTime == PhaseStart(p) && !r.playing
  {
    Media(PhaseStart(p), false, PhaseStart(p))
  }

  /** Replay rewinds the initial phase to the start and the reveal phase to
      the freeze point, paused. */
  lemma ReplayRewindsPhase(p: Props, m: Media)
    ensures p.phase == Initial ==> Replayed(p, m).position == Seconds(p.startTime)
    ensures p.phase == Reveal ==> Replayed(p, m).position == Seconds(p.freezeTime)
    ensures !Replayed(p, m).playing
  {
  }

  /** A time that is missing or not a number counts as 0. */
  lemma MissingTimesReadAsZero(p: Props, m: Media, observed: real)
    requires p.startTime.NotANumber? && p.freezeTime.NotANumber?
    ensures p.phase == Initial ==> Entered(p, m).position == 0.0
    ensures p.phase == Reveal ==> Entered(p, m).position == 0.0
    ensures p.phase == Initial && observed >= 0.0 ==> Ticked(p, m, observed).1 == Some(Initial)
  {
  }

  // ---------------------------------------------------------------------
  // Successive ticks
  // ---------------------------------------------------------------------

  /** The number of completion signals over successive ticks. */
  function Signals(p: Props, m: Media, observed: seq<real>): nat
    decreases |observed|
  {
    if observed == [] then 0
    else
      var r := Ticked(p, m, observed[0]);
      (if r.1.Some? then 1 else 0) + Signals(p, r.0, observed[1..])
  }

  /** How many samples are at or past `b`. */
  function AtOrPast(observed: seq<real>, b: real): nat
  {
    if observed == [] then 0
    else (if observed[0] >= b then 1 else 0) + AtOrPast(observed[1..], b)
  }

  /** Level triggering: every tick at or past the boundary signals, however
      many came before it; in a phase other than the two, none does. */
  lemma {:induction false} LevelTriggered(p: Props, m: Media, observed: seq<real>)
    ensures Signals(p, m, observed) ==
      if Boundary(p).Some? then AtOrPast(observed, Boundary(p).value) else 0
    decreases |observed|
  {
    if observed != [] {
      LevelTriggered(p, Ticked(p, m, observed[0]).0, observed[1..]);
    }
  }

  /** So a video left standing at the freeze point signals on every tick. */
  lemma {:induction false} RepeatsWhileAtBoundary(p: Props, m: Media, observed: seq<real>)
    requires Boundary(p).Some?
    requires forall i :: 0 <= i < |observed| ==> observed[i] >= Boundary(p).value
    ensures Signals(p, m, observed) == |observed|
  {
    LevelTriggered(p, m, observed);
    AllAtOrPast(observed, Boundary(p).value);
  }

  lemma {:induction false} AllAtOrPast(observed: seq<real>, b: real)
    requires forall i :: 0 <= i < |observed| ==> observed[i] >= b
    ensures AtOrPast(observed, b) == |observed|
  {
    if observed != [] {
      AllAtOrPast(observed[1..], b);
    }
  }

  /** In the initial phase the user cannot play past the freeze point: after
      any tick there, the video is paused if it is at or past it. */
  lemma InitialHoldsAtFreeze(p: Props, m: Media, observed: real)
    requires p.phase == Initial
    ensures var r := Ticked(p, m, observed);
            r.0.position >= Seconds(p.freezeTime) ==> !r.0.playing
  {
  }

  // ---------------------------------------------------------------------
  // The component
  // ---------------------------------------------------------------------

  class Player {
    /** Whether the video element is mounted; without it every handler returns at once. */
    const hasVideo: bool
    var props: Props
    var position: real
    var playing: bool
    var shownTime: real

    function State(): Media
      reads this
    {
      Media(position, playing, shownTime)
    }

    /** Mounting: `currentTime` starts at the start time, the element at 0,
        and the phase-sync effect runs once. */
    constructor (initial: Props, hasVideo: bool)
      ensures this.hasVideo == hasVideo && props == initial
      ensures var blank := Media(0.0, false, Seconds(initial.startTime));
              State() == if hasVideo then Entered(initial, blank) else blank
    {
      this.hasVideo := hasVideo;
      props := initial;
      position, playing, shownTime := 0.0, false, Seconds(initial.startTime);
      new;
      if hasVideo {
        SyncPhase();
      }
    }

    /** The phase-sync effect. */
    method SyncPhase()
      modifies this
      ensures props == old(props)
      ensures State() == Entered(props, old(State()))
    {
      if props.phase == Initial {
        position := Seconds(props.startTime);
        playing := false;
      } else if props.phase == Reveal {
        position := Seconds(props.freezeTime);
        playing := true;
      }
    }

    /** New props from the parent; the phase-sync effect reruns when the
        phase, the start time or the freeze time changed. */
    method Rerender(next: Props)
      modifies this
      ensures props == next
      ensures var changed := next.phase != old(props).phase || next.startTime != old(props).startTime ||
                             next.freezeTime != old(props).freezeTime;
              State() == if hasVideo && changed then Entered(next, old(State())) else old(State())
    {
      var changed := next.phase != props.phase || next.startTime != props.startTime ||
                     next.freezeTime != props.freezeTime;
      props := next;
      if hasVideo && changed {
        SyncPhase();
      }
    }

    /** One poll, the element being at `observed`; returns the phase handed
        to onPhaseComplete, if any. Without a video element no interval runs. */
    method Tick(observed: real) returns (signal: Option<VideoPhase>)
      modifies this
      ensures props == old(props)
      ensures !hasVideo ==> State() == old(State()) && signal.None?
      ensures hasVideo ==> (State(), signal) == Ticked(props, old(State()), observed)
    {
      signal := None;
      if !hasVideo {
        return;
      }
      position := observed;
      shownTime := observed;
      if props.phase == Initial && position >= Seconds(props.freezeTime) {
        playing := false;
        signal := Some(Initial);
      } else if props.phase == Reveal && position >= Seconds(props.endTime) {
        playing := false;
        signal := Some(Reveal);
      }
    }

    method HandlePlayPause()
      modifies this
      ensures props == old(props)
      ensures State() == if hasVideo then PlayPaused(old(State())) else old(State())
    {
      if !hasVideo {
        return;
      }
      if playing {
        playing := false;
      } else {
        playing := true;
      }
    }

    method HandleReplay()
      modifies this
      ensures props == old(props)
      ensures State() == if hasVideo then Replayed(props, old(State())) else old(State())
    {
      if !hasVideo {
        return;
      }
      position := if props.phase == Initial then Seconds(props.startTime) else Seconds(props.freezeTime);
      playing := false;
      shownTime := position;
    }
  }
}
