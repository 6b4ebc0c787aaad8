/** The deprecated YouTube player. Its polling tick triggers 0.15 s before
    the phase boundary and only while the single `freezeReached` flag is
    clear; triggering sets the flag, and only play and replay clear it, so
    the completion signal is edge-triggered. */
module YouTubePlayer {
  import opened Basics
  import opened Playback

  /** The margin for frame rounding. */
  const Buffer: real := 0.15

  /** The three time props, as plain numbers. */
  datatype Times = Times(startTime: real, freezeTime: real, endTime: real)

  /** Everything the component and the embedded player hold.
      - hasPlayer: the player object exists (`playerRef.current`);
      - isReady: the `isReady` state; polling: the interval is running;
      - position, playing: the player's own time and play state;
      - isPlaying: the component's state, fed by the player's state-change events;
      - shownTime: the `currentTime` state; freezeReached: the flag. */
  datatype PlayerState = PlayerState(
    hasPlayer: bool,
    isReady: bool,
    polling: bool,
    position: real,
    playing: bool,
    isPlaying: bool,
    shownTime: real,
    freezeReached: bool)

  /** seekTo: ignored unless the player exists and is ready. */
  function Seeked(s: PlayerState, time: real): (r: PlayerState)
    ensures !(s.hasPlayer && s.isReady) ==> r == s
    ensures s.hasPlayer && s.isReady ==> r == s.(position := time, shownTime := time)
  {
    if !s.hasPlayer || !s.isReady then s
    else s.(position := time, shownTime := time)
  }

  /** The player's ready event: readiness is set and polling starts. The
      callback's seek to the start time reads the readiness of the render
      before the event, which is false, so it does nothing. */
  function Readied(s: PlayerState): (r: PlayerState)
    ensures r.isReady && r.polling
    ensures r.(isReady := s.isReady, polling := s.polling) == s
  {
    s.(isReady := true, polling := true)
  }

  /** One run of the interval callback in `phase`, the player being at `current`. */
  function Ticked(t: Times, s: PlayerState, phase: VideoPhase, current: real): (r: (PlayerState, Option<VideoPhase>))
    ensures !(s.polling && s.hasPlayer) ==> r == (s, None)
    ensures s.polling && s.hasPlayer ==> r.0.position == current && r.0.shownTime == current
    ensures r.0.(position := s.position, shownTime := s.shownTime, freezeReached := s.freezeReached, playing := s.playing) == s
    ensures r.1 == Some(Initial) ==> phase == Initial && current >= t.freezeTime - Buffer && !s.freezeReached
    ensures r.1 == Some(Reveal) ==> phase == Reveal && current >= t.endTime - Buffer && !s.freezeReached
    ensures r.1 != Some(Other)
    ensures r.1.Some? ==> r.0.freezeReached && !r.0.playing
    ensures r.1.None? ==> r.0.freezeReached == s.freezeReached && r.0.playing == s.playing
    ensures s.polling && s.hasPlayer && !s.freezeReached ==>
      (r.1.Some? <==> (phase == Initial && current >= t.freezeTime - Buffer) ||
                      (phase == Reveal && current >= t.endTime - Buffer))
  {
    if !(s.polling && s.hasPlayer) then (s, None)
    else
      var seen := s.(position := current, shownTime := current);
      if phase == Initial && current >= t.freezeTime - Buffer && !s.freezeReached then
        (seen.(freezeReached := true, playing := false), Some(Initial))
      else if phase == Reveal && current >= t.endTime - Buffer && !s.freezeReached then
        (seen.(freezeReached := true, playing := false), Some(Reveal))
      else
        (seen, None)
  }

  /** handlePause. */
  function Paused(s: PlayerState): (r: PlayerState)
    ensures s.hasPlayer ==> r == s.(playing := false)
    ensures !s.hasPlayer ==> r == s
  {
    if s.hasPlayer then s.(playing := false) else s
  }

  /** Where play rewinds to and replay seeks to: the start time in
      `initial`, the freeze time otherwise, where `initial` ends. */
  function PhaseStart(t: Times, phase: VideoPhase): (r: real)
    ensures phase == Initial ==> r == t.startTime
    ensures phase != Initial ==> r == t.freezeTime
    ensures phase != Initial ==> r == PhaseEnd(t, Initial)
  {
    if phase == Initial then t.startTime else t.freezeTime
  }

  /** The position at which play first rewinds. */
  function PhaseEnd(t: Times, phase: VideoPhase): (r: real)
    ensures phase == Initial ==> r == t.freezeTime
    ensures phase != Initial ==> r == t.endTime
  {
    if phase == Initial then t.freezeTime else t.endTime
  }

  /** handlePlay with the player at `current`: at or past the phase end it
      first rewinds to the phase start; then it clears the flag and plays. */
  function Played(t: Times, s: PlayerState, phase: VideoPhase, current: real): (r: PlayerState)
    ensures !(s.hasPlayer && s.isReady) ==> r == s
    ensures s.hasPlayer && s.isReady ==>
      && !r.freezeReached && r.playing
      && r.position == (if current >= PhaseEnd(t, phase) then PhaseStart(t, phase) else current)
      && r.shownTime == (if current >= PhaseEnd(t, phase) then PhaseStart(t, phase) else s.shownTime)
    ensures r.(position := s.position, shownTime := s.shownTime, freezeReached := s.freezeReached, playing := s.playing) == s
  {
    if !s.hasPlayer || !s.isReady then s
    else
      var seen := s.(position := current);
      var rewound := if current >= PhaseEnd(t, phase) then Seeked(seen, PhaseStart(t, phase)) else seen;
      rewound.(freezeReached := false, playing := true)
  }

  /** handleReplay: seeks (if it can) to the phase start and, even when it
      cannot, clears `isPlaying` and the flag. It does not pause the player. */
  function Replayed(t: Times, s: PlayerState, phase: VideoPhase): (r: PlayerState)
    ensures !r.isPlaying && !r.freezeReached
    ensures r.playing == s.playing
    ensures s.hasPlayer && s.isReady ==> r.position == PhaseStart(t, phase)
    ensures !(s.hasPlayer && s.isReady) ==> r.position == s.position
    ensures r.shownTime == (if s.hasPlayer && s.isReady then PhaseStart(t, phase) else s.shownTime)
    ensures r.(position := s.position, shownTime := s.shownTime, isPlaying := s.isPlaying, freezeReached := s.freezeReached) == s
  {
    Seeked(s, PhaseStart(t, phase)).(isPlaying := false, freezeReached := false)
  }

  /** The ready callback seeks to the start time while the readiness it reads
      is still false: the ready step is that ignored seek followed by setting
      readiness and polling, so the player stays where it was. */
  lemma ReadySeekHasNoEffect(t: Times, s: PlayerState)
    requires !s.isReady
    ensures Readied(s) == Seeked(s, t.startTime).(isReady := true, polling := true)
    ensures Readied(s).position == s.position && Readied(s).shownTime == s.shownTime
  {
  }

  /** Replay leaves a playing player playing while the component's
      `isPlaying` says it is paused. */
  lemma ReplayDoesNotPause(t: Times, s: PlayerState, phase: VideoPhase)
    requires s.playing
    ensures Replayed(t, s, phase).playing && !Replayed(t, s, phase).isPlaying
  {
  }

  // ---------------------------------------------------------------------
  // Successive ticks
  // ---------------------------------------------------------------------

  /** One sample of the interval: the phase the callback sees and the player's time. */
  datatype Sample = Sample(phase: VideoPhase, position: real)

  function AfterTicks(t: Times, s: PlayerState, samples: seq<Sample>): PlayerState
    decreases |samples|
  {
    if samples == [] then s
    else AfterTicks(t, Ticked(t, s, samples[0].phase, samples[0].position).0, samples[1..])
  }

  /** The number of completion signals over successive ticks. */
  function Signals(t: Times, s: PlayerState, samples: seq<Sample>): nat
    decreases |samples|
  {
    if samples == [] then 0
    else
      var r := Ticked(t, s, samples[0].phase, samples[0].position);
      (if r.1.Some? then 1 else 0) + Signals(t, r.0, samples[1..])
  }

  /** Without play or replay in between, ticks signal at most once in all,
      whatever the phases; once the flag is set, never. The flag is shared
      between the two phases. */
  lemma {:induction false} AtMostOncePerArming(t: Times, s: PlayerState, samples: seq<Sample>)
    ensures Signals(t, s, samples) <= 1
    ensures s.freezeReached ==> Signals(t, s, samples) == 0
    ensures s.freezeReached ==> AfterTicks(t, s, samples).freezeReached
    ensures Signals(t, s, samples) == 1 ==> AfterTicks(t, s, samples).freezeReached
    decreases |samples|
  {
    if samples != [] {
      var r := Ticked(t, s, samples[0].phase, samples[0].position);
      AtMostOncePerArming(t, r.0, samples[1..]);
    }
  }

  /** Crossing the boundary in the initial phase, counting the buffer. */
  predicate Crosses(t: Times, x: Sample)
  {
    x.phase == Initial && x.position >= t.freezeTime - Buffer
  }

  /** With the flag clear and the interval running, ticks in the initial
      phase signal exactly once if some sample reaches the freeze point less
      the buffer, and never otherwise. */
  lemma {:induction false} InitialSignalsExactlyOnce(t: Times, s: PlayerState, samples: seq<Sample>)
    requires s.polling && s.hasPlayer && !s.freezeReached
    requires forall i :: 0 <= i < |samples| ==> samples[i].phase == Initial
    ensures Signals(t, s, samples) == 1 <==> exists i :: 0 <= i < |samples| && Crosses(t, samples[i])
    ensures Signals(t, s, samples) == 0 <==> forall i :: 0 <= i < |samples| ==> !Crosses(t, samples[i])
    decreases |samples|
  {
    if samples != [] {
      var r := Ticked(t, s, samples[0].phase, samples[0].position);
      var rest := samples[1..];
      AtMostOncePerArming(t, s, samples);
      if r.1.Some? {
        assert Crosses(t, samples[0]);
        AtMostOncePerArming(t, r.0, rest);
      } else {
        assert !Crosses(t, samples[0]);
        assert forall i :: 0 <= i < |rest| ==> rest[i] == samples[i + 1];
        InitialSignalsExactlyOnce(t, r.0, rest);
        if exists i :: 0 <= i < |samples| && Crosses(t, samples[i]) {
          var i :| 0 <= i < |samples| && Crosses(t, samples[i]);
          assert i > 0 && Crosses(t, rest[i - 1]);
        }
      }
    }
  }

  /** The trigger is early by at most the buffer: a tick at the freeze point
      less 0.1 s already signals, one less 0.2 s does not. */
  lemma TriggersWithinBuffer(t: Times, s: PlayerState)
    requires s.polling && s.hasPlayer && !s.freezeReached
    ensures Ticked(t, s, Initial, t.freezeTime - 0.1).1 == Some(Initial)
    ensures Ticked(t, s, Initial, t.freezeTime - 0.2).1.None?
  {
  }

  /** Play clears the flag, so a ready player signals again at the boundary. */
  lemma PlayRearms(t: Times, s: PlayerState, phase: VideoPhase, current: real, later: real)
    requires s.hasPlayer && s.isReady && s.polling
    requires phase == Initial && later >= t.freezeTime - Buffer
    ensures Ticked(t, Played(t, s, phase, current), phase, later).1 == Some(Initial)
  {
  }

  /** The flag is shared: after the initial phase signalled, a tick in the
      reveal phase at its end stays silent until play or replay. */
  lemma RevealSilencedByInitialFlag(t: Times, s: PlayerState, current: real, later: real)
    requires s.polling && s.hasPlayer && !s.freezeReached && current >= t.freezeTime - Buffer
    requires later >= t.endTime
    ensures var r := Ticked(t, s, Initial, current);
            r.1 == Some(Initial) && Ticked(t, r.0, Reveal, later).1.None?
  {
  }

  // ---------------------------------------------------------------------
  // The component
  // ---------------------------------------------------------------------

  class VideoPlayer {
    const times: Times
    var hasPlayer: bool
    var isReady: bool
    var polling: bool
    var position: real
    var playing: bool
    var isPlaying: bool
    var shownTime: real
    var freezeReached: bool

    function State(): PlayerState
      reads this
    {
      PlayerState(hasPlayer, isReady, polling, position, playing, isPlaying, shownTime, freezeReached)
    }

    /** Mounting, before the YouTube script has loaded. */
    constructor (t: Times)
      ensures times == t
      ensures State() == PlayerState(false, false, false, 0.0, false, false, t.startTime, false)
    {
      times := t;
      hasPlayer, isReady, polling := false, false, false;
      position, playing, isPlaying := 0.0, false, false;
      shownTime, freezeReached := t.startTime, false;
    }

    /** The script has loaded and the player object was created. */
    method PlayerCreated()
      modifies this
      ensures State() == old(State()).(hasPlayer := true)
    {
      hasPlayer := true;
    }

    method OnPlayerReady()
      modifies this
      ensures State() == Readied(old(State()))
    {
      isReady := true;
      polling := true;
    }

    /** The player reports a state change: playing or not. */
    method OnPlayerStateChange(nowPlaying: bool)
      modifies this
      ensures State() == old(State()).(isPlaying := nowPlaying)
    {
      isPlaying := nowPlaying;
    }

    method Tick(phase: VideoPhase, current: real) returns (signal: Option<VideoPhase>)
      modifies this
      ensures (State(), signal) == Ticked(times, old(State()), phase, current)
    {
      signal := None;
      if !(polling && hasPlayer) {
        return;
      }
      position := current;
      shownTime := current;
      if phase == Initial && current >= times.freezeTime - Buffer && !freezeReached {
        freezeReached := true;
        HandlePause();
        signal := Some(Initial);
      } else if phase == Reveal && current >= times.endTime - Buffer && !freezeReached {
        freezeReached := true;
        HandlePause();
        signal := Some(Reveal);
      }
    }

    method HandlePause()
      modifies this
      ensures State() == Paused(old(State()))
    {
      if hasPlayer {
        playing := false;
      }
    }

    method SeekTo(time: real)
      modifies this
      ensures State() == Seeked(old(State()), time)
    {
      if !hasPlayer || !isReady {
        return;
      }
      position := time;
      shownTime := time;
    }

    /** handlePlay, the player being at `current`. */
    method HandlePlay(phase: VideoPhase, current: real)
      modifies this
      ensures State() == Played(times, old(State()), phase, current)
    {
      if !hasPlayer || !isReady {
        return;
      }
      var phaseStart := if phase == Initial then times.startTime else times.freezeTime;
      var phaseEnd := if phase == Initial then times.freezeTime else times.endTime;
      position := current;
      if current >= phaseEnd {
        SeekTo(phaseStart);
      }
      freezeReached := false;
      playing := true;
    }

    method HandleReplay(phase: VideoPhase)
      modifies this
      ensures State() == Replayed(times, old(State()), phase)
    {
      var replayTime := if phase == Initial then times.startTime else times.freezeTime;
      SeekTo(replayTime);
      isPlaying := false;
      freezeReached := false;
    }
  }
}
