/**
 * The background-music controller: an audio element with play, pause, volume and
 * mute, which drives the narrated intro alongside it. `isPlaying` only turns true
 * when the element's play promise resolves, which reaches the class as an event.
 */
module Audio {
  import opened Wrappers
  import opened Media
  import Intro

  /** `Math.max(0, Math.min(1, v))`. */
  function Clamp(v: real): (r: real)
    ensures 0.0 <= r <= 1.0
    ensures 0.0 <= v <= 1.0 ==> r == v
    ensures v < 0.0 ==> r == 0.0
    ensures v > 1.0 ==> r == 1.0
  {
    var m := if 1.0 < v then 1.0 else v;
    if 0.0 > m then 0.0 else m
  }

  // ---------------------------------------------------------------------------
  // The controller's state as a value

  datatype PlayerState = PlayerState(
    audio: Option<Element>,
    isPlaying: bool,
    isMuted: bool,
    volume: real,
    intro: Option<Intro.IntroState>)

  function WithAudio(s: PlayerState, e: Element): PlayerState
  {
    s.(audio := Some(e))
  }

  /** `init()`: a looping element at the stored volume. */
  function Initialized(s: PlayerState): PlayerState
  {
    WithAudio(s, Element([], 0.0, s.volume, true))
  }

  function Played(s: PlayerState): PlayerState
  {
    if s.audio.None? then s else WithAudio(s, WithCall(s.audio.value, PlayCall))
  }

  /** The play promise resolves: playing, and the intro's start timer armed. */
  function PlayResolved(s: PlayerState): PlayerState
  {
    s.(isPlaying := true, intro := if s.intro.Some? then Some(Intro.Started(s.intro.value)) else None)
  }

  function Paused(s: PlayerState): PlayerState
  {
    if s.audio.None? then s
    else WithAudio(s, WithCall(s.audio.value, PauseCall))
           .(isPlaying := false, intro := if s.intro.Some? then Some(Intro.Paused(s.intro.value)) else None)
  }

  function Toggled(s: PlayerState): PlayerState
  {
    if s.isPlaying then Paused(s) else Played(s)
  }

  function VolumeSet(s: PlayerState, v: real): PlayerState
  {
    if s.audio.None? then s
    else WithAudio(s, s.audio.value.(volume := Clamp(v))).(volume := Clamp(v))
  }

  function Muted(s: PlayerState): PlayerState
  {
    if s.audio.None? then s
    else WithAudio(s, s.audio.value.(volume := 0.0))
           .(isMuted := true, intro := if s.intro.Some? then Some(Intro.Paused(s.intro.value)) else None)
  }

  function Unmuted(s: PlayerState): PlayerState
  {
    if s.audio.None? then s
    else WithAudio(s, s.audio.value.(volume := s.volume))
           .(isMuted := false, intro := if s.intro.Some? then Some(Intro.Played(s.intro.value)) else None)
  }

  function MuteToggled(s: PlayerState): PlayerState
  {
    if s.isMuted then Unmuted(s) else Muted(s)
  }

  function Stopped(s: PlayerState): PlayerState
  {
    if s.audio.None? then s
    else
      var p := Paused(s);
      WithAudio(p, p.audio.value.(currentTime := 0.0))
        .(intro := if p.intro.Some? then Some(Intro.Stopped(p.intro.value)) else None)
  }

  function Restarted(s: PlayerState): PlayerState
  {
    var st := Stopped(s);
    Played(st.(intro := if st.intro.Some? then Some(Intro.Restarted(st.intro.value)) else None))
  }

  function Destroyed(s: PlayerState): PlayerState
  {
    if s.audio.None? then s else Stopped(s).(audio := None)
  }

  // ---------------------------------------------------------------------------
  // Properties of the transitions

  /** Without an element, every operation guarded on one changes nothing. */
  lemma NoAudioNoOp(s: PlayerState, v: real)
    requires s.audio.None?
    ensures Played(s) == s && Paused(s) == s && VolumeSet(s, v) == s
    ensures Muted(s) == s && Unmuted(s) == s && MuteToggled(s) == s
    ensures Stopped(s) == s && Destroyed(s) == s
  {
  }

  /**
   * `setVolume(v)` stores the clamped value both as the remembered volume and on the
   * element, whether or not the controller is muted: a positive volume set while
   * muted makes the element audible although `isMuted` stays true.
   */
  lemma VolumeClamped(s: PlayerState, v: real)
    requires s.audio.Some?
    ensures var r := VolumeSet(s, v);
      && 0.0 <= r.volume <= 1.0 && r.audio.value.volume == r.volume
      && (0.0 <= v <= 1.0 ==> r.volume == v)
      && r.isMuted == s.isMuted
      && (s.isMuted && v > 0.0 ==> r.isMuted && r.audio.value.volume > 0.0)
  {
  }

  /** Muting silences the element but keeps the remembered volume, which unmuting restores. */
  lemma MuteKeepsVolume(s: PlayerState)
    requires s.audio.Some?
    ensures Muted(s).isMuted && Muted(s).audio.value.volume == 0.0 && Muted(s).volume == s.volume
    ensures !Unmuted(Muted(s)).isMuted && Unmuted(Muted(s)).audio.value.volume == s.volume
  {
  }

  /** Two mute toggles restore the mute flag and the remembered volume. */
  lemma ToggleMuteTwice(s: PlayerState)
    ensures MuteToggled(MuteToggled(s)).isMuted == s.isMuted
    ensures MuteToggled(MuteToggled(s)).volume == s.volume
  {
  }

  /** Only the play promise's resolution turns `isPlaying` on. */
  lemma OnlyResolutionPlays(s: PlayerState, v: real)
    ensures PlayResolved(s).isPlaying
    ensures Played(s).isPlaying == s.isPlaying
    ensures Toggled(s).isPlaying ==> s.isPlaying
    ensures Paused(s).isPlaying ==> s.isPlaying
    ensures VolumeSet(s, v).isPlaying == s.isPlaying
    ensures Muted(s).isPlaying == s.isPlaying && Unmuted(s).isPlaying == s.isPlaying
    ensures Stopped(s).isPlaying ==> s.isPlaying
    ensures Restarted(s).isPlaying ==> s.isPlaying
    ensures Destroyed(s).isPlaying ==> s.isPlaying
  {
  }

  /** `toggle()` pauses a playing controller and requests playback otherwise. */
  lemma TogglePausesOrPlays(s: PlayerState)
    requires s.audio.Some?
    ensures s.isPlaying ==> !Toggled(s).isPlaying && Toggled(s).audio.value.calls == s.audio.value.calls + [PauseCall]
    ensures !s.isPlaying ==> Toggled(s).audio.value.calls == s.audio.value.calls + [PlayCall]
  {
  }

  /**
   * `restart()` rewinds the element, pauses then requests playback, and leaves the
   * intro with its start timer armed.
   */
  lemma RestartRewinds(s: PlayerState)
    requires s.audio.Some?
    ensures var r := Restarted(s);
      && r.audio.value.currentTime == 0.0
      && r.audio.value.calls == s.audio.value.calls + [PauseCall, PlayCall]
      && !r.isPlaying
      && (s.intro.Some? ==> r.intro.Some? && r.intro.value.timers.heldArmed)
      && (s.intro.Some? && s.intro.value.audio.Some? ==> !r.intro.value.hasPlayed)
  {
  }

  /**
   * With the corrected start, `restart()`, the play promise's resolution and a `stop()`
   * leave the intro with no start timer armed, where the start as written leaves one.
   */
  lemma RestartResolveStopDisarms(s: PlayerState)
    requires s.audio.Some? && s.intro.Some?
    requires Intro.TimersValid(s.intro.value.timers) && s.intro.value.timers.orphans == 0
    ensures var r := Stopped(PlayResolved(Restarted(s)));
      r.intro.Some? && Intro.Armed(r.intro.value.timers) == 0
  {
    var a := Restarted(s);
    assert a.intro.value.timers == Intro.Timers(true, true, 0);
    var b := PlayResolved(a);
    assert b.intro.value.timers == Intro.Timers(true, true, 0);
  }

  /**
   * `destroy()` stops a loaded controller and leaves it without an element: the element it
   * drops has been asked to pause and rewound to 0, the intro has been paused then stopped,
   * and the stored volume and mute flag are kept.
   */
  lemma DestroyDropsAudio(s: PlayerState)
    ensures Destroyed(s).audio.None?
    ensures s.audio.Some? ==>
              var e := Stopped(s).audio.value;
              && !Destroyed(s).isPlaying
              && e.calls == s.audio.value.calls + [PauseCall] && e.currentTime == 0.0
              && e.volume == s.audio.value.volume && e.loop == s.audio.value.loop
              && Destroyed(s).intro == (if s.intro.Some? then Some(Intro.Stopped(Intro.Paused(s.intro.value))) else None)
              && Destroyed(s).volume == s.volume && Destroyed(s).isMuted == s.isMuted
  {
  }

  // ---------------------------------------------------------------------------
  // The class

  class AudioManager {
    var audio: AudioElement?
    var isPlaying: bool
    var isMuted: bool
    var volume: real
    var introSequence: Intro.IntroSequence?

    /** The objects the controller's operations may change. */
    ghost function Footprint(): set<object?>
      reads this, introSequence
    {
      {this, audio, introSequence} + if introSequence != null then {introSequence.audio} else {}
    }

    ghost function State(): PlayerState
      reads Footprint()
    {
      PlayerState(if audio == null then None else Some(audio.Snapshot()), isPlaying, isMuted, volume,
                  if introSequence == null then None else Some(introSequence.State()))
    }

    /** The intro keeps its own invariant and its own element. */
    ghost predicate Valid()
      reads this, introSequence
    {
      introSequence != null ==> introSequence.Valid() && (audio != null ==> introSequence.audio != audio)
    }

    constructor ()
      ensures Valid() && State() == PlayerState(None, false, false, 0.5, None)
    {
      audio := null;
      isPlaying, isMuted, volume := false, false, 0.5;
      introSequence := null;
    }

    /** `setIntroSequence(i)`; the intro always owns an element of its own. */
    method SetIntroSequence(i: Intro.IntroSequence?)
      requires i != null ==> i.Valid() && (audio != null ==> i.audio != audio)
      modifies this`introSequence
      ensures Valid() && introSequence == i
      ensures State() == old(State()).(intro := if i == null then None else Some(i.State()))
    {
      introSequence := i;
    }

    method Init()
      requires Valid()
      modifies this`audio
      ensures Valid() && fresh(audio)
      ensures State() == Initialized(old(State()))
    {
      var a := new AudioElement();
      a.SetLoop(true);
      a.SetVolume(volume);
      audio := a;
    }

    method Play()
      requires Valid()
      modifies audio
      ensures Valid() && State() == Played(old(State()))
    {
      if audio == null {
        return;
      }
      audio.Play();
    }

    /** The play promise resolves. */
    method OnPlayResolved()
      requires Valid()
      modifies this`isPlaying, introSequence
      ensures Valid() && State() == PlayResolved(old(State()))
    {
      isPlaying := true;
      if introSequence != null {
        introSequence.Start();
      }
    }

    method Pause()
      requires Valid()
      modifies this`isPlaying, audio, introSequence, if introSequence != null then introSequence.audio else null
      ensures Valid() && State() == Paused(old(State()))
      ensures introSequence != null ==> introSequence.audio == old(introSequence.audio)
    {
      if audio == null {
        return;
      }
      audio.Pause();
      isPlaying := false;
      if introSequence != null {
        introSequence.Pause();
      }
    }

    method Toggle()
      requires Valid()
      modifies this`isPlaying, audio, introSequence, if introSequence != null then introSequence.audio else null
      ensures Valid() && State() == Toggled(old(State()))
    {
      if isPlaying {
        Pause();
      } else {
        Play();
      }
    }

    method SetVolume(v: real)
      requires Valid()
      modifies this`volume, audio
      ensures Valid() && State() == VolumeSet(old(State()), v)
    {
      if audio == null {
        return;
      }
      volume := Clamp(v);
      audio.SetVolume(volume);
    }

    method Mute()
      requires Valid()
      modifies this`isMuted, audio, introSequence, if introSequence != null then introSequence.audio else null
      ensures Valid() && State() == Muted(old(State()))
    {
      if audio == null {
        return;
      }
      isMuted := true;
      audio.SetVolume(0.0);
      if introSequence != null {
        introSequence.Pause();
      }
    }

    method Unmute()
      requires Valid()
      modifies this`isMuted, audio, introSequence, if introSequence != null then introSequence.audio else null
      ensures Valid() && State() == Unmuted(old(State()))
    {
      if audio == null {
        return;
      }
      isMuted := false;
      audio.SetVolume(volume);
      if introSequence != null {
        introSequence.Play();
      }
    }

    method ToggleMute()
      requires Valid()
      modifies this`isMuted, audio, introSequence, if introSequence != null then introSequence.audio else null
      ensures Valid() && State() == MuteToggled(old(State()))
    {
      if isMuted {
        Unmute();
      } else {
        Mute();
      }
    }

    method Stop()
      requires Valid()
      modifies this`isPlaying, audio, introSequence, if introSequence != null then introSequence.audio else null
      ensures Valid() && State() == Stopped(old(State()))
      ensures introSequence != null ==> introSequence.audio == old(introSequence.audio)
    {
      if audio == null {
        return;
      }
      Pause();
      audio.SetCurrentTime(0.0);
      if introSequence != null {
        introSequence.Stop();
      }
    }

    method Restart()
      requires Valid()
      modifies this`isPlaying, audio, introSequence, if introSequence != null then introSequence.audio else null
      ensures Valid() && State() == Restarted(old(State()))
    {
      Stop();
      if introSequence != null {
        introSequence.Restart();
      }
      Play();
    }

    method Destroy()
      requires Valid()
      modifies this`isPlaying, this`audio, audio, introSequence, if introSequence != null then introSequence.audio else null
      ensures Valid() && State() == Destroyed(old(State()))
      ensures old(audio) != null ==>
                && old(audio).calls == old(audio.calls) + [PauseCall] && old(audio).currentTime == 0.0
                && old(audio).Snapshot() == Stopped(old(State())).audio.value
    {
      if audio != null {
        Stop();
        audio := null;
      }
    }
  }
}
