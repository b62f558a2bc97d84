/**
 * The narrated intro: a caption table keyed by playback time, the lookup run on
 * every `timeupdate`, and the flags that decide whether `play()` starts the
 * narration (after a start timer) or resumes it. The caption overlay is reduced to
 * the ordered show/hide requests; the audio element's events, the start timer and
 * the play promise reach the class as event methods.
 */
module Intro {
  import opened Wrappers
  import opened Media

  // ---------------------------------------------------------------------------
  // The caption table

  /** A caption shown while playback time is in `[start, end)`, in seconds. */
  datatype Caption = Caption(start: real, end: real, text: string)

  const CAPTIONS: seq<Caption> := [
    Caption(0.0, 2.5, "The fallen leaves tell a story."),
    Caption(2.5, 4.5, "The Great Elden Ring was shattered."),
    Caption(4.5, 6.5, "In our home across the fog."),
    Caption(6.5, 8.5, "The lands between."),
    Caption(8.5, 13.5, "Now, Queen Marika the Eternal is nowhere to be found,"),
    Caption(13.5, 19.0, "and in the night of the black knives, Godwyn the Golden was first to perish."),
    Caption(19.0, 25.0, "Soon, Marika's offspring, the demigods all, claimed the shards of the Elden Ring."),
    Caption(25.0, 29.0, "The mad taint of their newfound strength triggered the shattering."),
    Caption(29.0, 35.0, "A war from which no lord arose—a war leading to abandonment by the greater will."),
    Caption(35.0, 41.0, "Arise now, ye tarnished, ye dead, yet live."),
    Caption(41.0, 43.0, "The call of a long-lost race speaks to us all."),
    Caption(43.0, 47.0, "Hoarah Loux, chieftain of the badlands."),
    Caption(47.0, 49.0, "The ever-brilliant Goldmask."),
    Caption(49.0, 51.0, "Fia, the deathbed companion."),
    Caption(51.0, 53.0, "The loathsome Dung Eater."),
    Caption(53.0, 57.0, "And Sir Gideon Ofnir, the all-knowing...."),
    Caption(57.0, 62.0, "And one other, whom grace would again bless, a tarnished of no renown."),
    Caption(62.0, 68.0, "Cross the fog to the lands between, to stand before the Elden Ring..."),
    Caption(68.0, 71.0, "and become the Elden Lord.")
  ]

  predicate Covers(c: Caption, t: real)
  {
    c.start <= t < c.end
  }

  /** The first caption from index `i` on that covers `t`, or -1. */
  function FindFrom(cs: seq<Caption>, t: real, i: nat): (r: int)
    requires i <= |cs|
    decreases |cs| - i
    ensures r == -1 || i <= r < |cs|
    ensures r >= 0 ==> Covers(cs[r], t) && forall j :: i <= j < r ==> !Covers(cs[j], t)
    ensures r == -1 ==> forall j :: i <= j < |cs| ==> !Covers(cs[j], t)
  {
    if i == |cs| then -1
    else if Covers(cs[i], t) then i
    else FindFrom(cs, t, i + 1)
  }

  /** The lookup `updateCaption()` performs: the first covering caption, or -1 when none covers `t`. */
  function FindCaption(cs: seq<Caption>, t: real): (r: int)
    ensures -1 <= r < |cs|
    ensures r >= 0 ==> Covers(cs[r], t) && forall j :: 0 <= j < r ==> !Covers(cs[j], t)
    ensures r == -1 <==> forall j :: 0 <= j < |cs| ==> !Covers(cs[j], t)
  {
    FindFrom(cs, t, 0)
  }

  /** Every interval is non-empty and each ends where the next starts. */
  predicate Contiguous(cs: seq<Caption>)
  {
    && |cs| > 0
    && (forall i :: 0 <= i < |cs| ==> cs[i].start < cs[i].end)
    && (forall i :: 0 <= i < |cs| - 1 ==> cs[i].end == cs[i + 1].start)
  }

  /** Every caption of the narration is shown for a non-empty interval. */
  lemma CaptionSpansNonEmpty()
    ensures forall i :: 0 <= i < |CAPTIONS| ==> CAPTIONS[i].start < CAPTIONS[i].end
  {
  }

  /** Each caption of the narration ends where the next one starts. */
  lemma CaptionSpansChained()
    ensures forall i :: 0 <= i < |CAPTIONS| - 1 ==> CAPTIONS[i].end == CAPTIONS[i + 1].start
  {
  }

  /** The narration's table runs contiguously from 0 to 71 seconds. */
  lemma CaptionTableShape()
    ensures Contiguous(CAPTIONS) && |CAPTIONS| == 19
    ensures CAPTIONS[0].start == 0.0 && CAPTIONS[|CAPTIONS| - 1].end == 71.0
  {
    CaptionSpansNonEmpty();
    CaptionSpansChained();
  }

  /** In a contiguous table an earlier interval ends no later than a later one starts. */
  lemma {:induction false} Ordered(cs: seq<Caption>, i: nat, j: nat)
    requires Contiguous(cs) && i < j < |cs|
    ensures cs[i].end <= cs[j].start
    decreases j - i
  {
    if i + 1 < j {
      Ordered(cs, i + 1, j);
    }
  }

  /** From any interval starting at or before `t`, some interval covers `t` if `t` is before the table's end. */
  lemma {:induction false} CoverFrom(cs: seq<Caption>, t: real, i: nat)
    requires Contiguous(cs) && i < |cs| && cs[i].start <= t < cs[|cs| - 1].end
    ensures exists k :: i <= k < |cs| && Covers(cs[k], t)
    decreases |cs| - i
  {
    if t >= cs[i].end {
      if i == |cs| - 1 {
        assert false;
      }
      CoverFrom(cs, t, i + 1);
    } else {
      assert Covers(cs[i], t);
    }
  }

  /**
   * A contiguous table covers each moment of its span with exactly one caption, the
   * one the lookup returns, and nothing outside its span.
   */
  lemma ContiguousCoverage(cs: seq<Caption>, t: real)
    requires Contiguous(cs)
    ensures cs[0].start <= t < cs[|cs| - 1].end <==> FindCaption(cs, t) >= 0
    ensures FindCaption(cs, t) >= 0 ==> forall j :: 0 <= j < |cs| && Covers(cs[j], t) ==> j == FindCaption(cs, t)
  {
    var k := FindCaption(cs, t);
    if cs[0].start <= t < cs[|cs| - 1].end {
      CoverFrom(cs, t, 0);
    }
    if k >= 0 {
      forall j | 0 <= j < |cs| && Covers(cs[j], t) ensures j == k {
        if j < k {
          assert false;
        } else if k < j {
          Ordered(cs, k, j);
        }
      }
      if k > 0 {
        Ordered(cs, 0, k);
      }
      if k < |cs| - 1 {
        Ordered(cs, k, |cs| - 1);
      }
    }
  }

  /** So the narration has exactly one caption at each moment of [0, 71) and none outside it. */
  lemma CaptionAtEveryMoment(t: real)
    ensures 0.0 <= t < 71.0 <==> FindCaption(CAPTIONS, t) >= 0
    ensures FindCaption(CAPTIONS, t) >= 0 ==>
              forall j :: 0 <= j < |CAPTIONS| && Covers(CAPTIONS[j], t) ==> j == FindCaption(CAPTIONS, t)
  {
    CaptionTableShape();
    ContiguousCoverage(CAPTIONS, t);
  }

  // ---------------------------------------------------------------------------
  // The sequence's state as a value

  /** What the caption overlay was asked to do. */
  datatype CaptionEvent = Show(text: string) | Hide

  /**
   * The start timer: whether `startTimeout` holds a handle, whether the timer behind
   * that handle is still armed, and how many armed timers have lost their handle.
   */
  datatype Timers = Timers(handle: bool, heldArmed: bool, orphans: nat)

  /** A held timer always has its handle. */
  predicate TimersValid(tm: Timers)
  {
    tm.heldArmed ==> tm.handle
  }

  /** The number of start timers that will still fire. */
  function Armed(tm: Timers): nat
  {
    (if tm.heldArmed then 1 else 0) + tm.orphans
  }

  datatype IntroState = IntroState(
    audio: Option<Element>,
    isPlaying: bool,
    hasPlayed: bool,
    captionIndex: int,
    timers: Timers,
    shown: seq<CaptionEvent>)

  function WithAudioCall(s: IntroState, c: MediaCall): IntroState
    requires s.audio.Some?
  {
    s.(audio := Some(WithCall(s.audio.value, c)))
  }

  /** `start()` as written: arms a new timer and overwrites the handle, orphaning an armed timer it held. */
  function StartedAsWritten(s: IntroState): (r: IntroState)
    ensures r.timers.handle && r.timers.heldArmed
    ensures Armed(r.timers) == 1 + Armed(s.timers)
    ensures r.(timers := s.timers) == s
  {
    s.(timers := Timers(true, true, s.timers.orphans + if s.timers.heldArmed then 1 else 0))
  }

  /** `start()` clearing the held timer before arming a new one. */
  function Started(s: IntroState): (r: IntroState)
    ensures r.timers.handle && r.timers.heldArmed && r.timers.orphans == s.timers.orphans
    ensures Armed(r.timers) == 1 + s.timers.orphans
    ensures r.(timers := s.timers) == s
  {
    s.(timers := Timers(true, true, s.timers.orphans))
  }

  function Paused(s: IntroState): IntroState
  {
    if s.audio.Some? && s.isPlaying then WithAudioCall(s, PauseCall).(shown := s.shown + [Hide]) else s
  }

  function Played(s: IntroState): IntroState
  {
    if s.audio.Some? && !s.isPlaying then
      if !s.hasPlayed then Started(s) else WithAudioCall(s, PlayCall)
    else s
  }

  function Stopped(s: IntroState): IntroState
  {
    var s1 := if s.timers.handle then s.(timers := Timers(false, false, s.timers.orphans)) else s;
    if s1.audio.Some? then
      s1.(audio := Some(WithCall(s1.audio.value, PauseCall).(currentTime := 0.0)),
          isPlaying := false, hasPlayed := false, shown := s1.shown + [Hide])
    else s1
  }

  function Restarted(s: IntroState): IntroState
  {
    Started(Stopped(s))
  }

  /** `updateCaption()` over table `cs`: the caption at the element's current time, announced only when it changes. */
  function Updated(s: IntroState, cs: seq<Caption>): IntroState
    requires s.audio.Some?
  {
    var k := FindCaption(cs, s.audio.value.currentTime);
    if k >= 0 then
      if s.captionIndex != k then s.(captionIndex := k, shown := s.shown + [Show(cs[k].text)]) else s
    else if s.captionIndex != -1 then s.(captionIndex := -1, shown := s.shown + [Hide])
    else s
  }

  /** The element's `ended` event. */
  function Ended(s: IntroState): IntroState
  {
    s.(shown := s.shown + [Hide], hasPlayed := true)
  }

  /** The element's `play` and `pause` events. */
  function PlayEvent(s: IntroState): IntroState { s.(isPlaying := true) }
  function PauseEvent(s: IntroState): IntroState { s.(isPlaying := false) }

  /** The held start timer fires: the element is asked to play (a missing element throws, doing nothing). */
  function FireHeldTimer(s: IntroState): IntroState
    requires s.timers.heldArmed
  {
    var s1 := s.(timers := s.timers.(heldArmed := false));
    if s1.audio.Some? then WithAudioCall(s1, PlayCall) else s1
  }

  /** An orphaned start timer fires. */
  function FireOrphanTimer(s: IntroState): IntroState
    requires s.timers.orphans > 0
  {
    var s1 := s.(timers := s.timers.(orphans := s.timers.orphans - 1));
    if s1.audio.Some? then WithAudioCall(s1, PlayCall) else s1
  }

  /** The start timer's play promise resolves. */
  function StartResolved(s: IntroState): IntroState { s.(hasPlayed := true) }

  /** `destroy()`: clears the held timer (keeping the handle) and drops the element. */
  function Destroyed(s: IntroState): IntroState
  {
    var s1 := if s.timers.handle then s.(timers := s.timers.(heldArmed := false)) else s;
    s1.(audio := None)
  }

  // ---------------------------------------------------------------------------
  // Properties of the transitions

  /** `pause()` acts exactly when there is an element that is playing, and never flips `isPlaying` itself. */
  lemma PauseOnlyWhenPlaying(s: IntroState)
    ensures Paused(s) != s <==> s.audio.Some? && s.isPlaying
    ensures Paused(s).isPlaying == s.isPlaying
  {
    if s.audio.Some? && s.isPlaying {
      assert |Paused(s).shown| == |s.shown| + 1;
    }
  }

  /**
   * `play()` acts only when there is an element that is not playing: before the first
   * playthrough it arms the start timer without touching the element, afterwards it
   * resumes the element at once.
   */
  lemma PlayStartsOrResumes(s: IntroState)
    ensures !(s.audio.Some? && !s.isPlaying) ==> Played(s) == s
    ensures s.audio.Some? && !s.isPlaying && !s.hasPlayed ==>
              Played(s).timers.heldArmed && Played(s).audio == s.audio
    ensures s.audio.Some? && !s.isPlaying && s.hasPlayed ==>
              Played(s).timers == s.timers && Played(s).audio.value.calls == s.audio.value.calls + [PlayCall]
  {
  }

  /**
   * `stop()` drops the held timer and, with an element, rewinds it and clears both
   * flags; the caption index is left as it was.
   */
  lemma StopResets(s: IntroState)
    requires TimersValid(s.timers)
    ensures !Stopped(s).timers.handle && !Stopped(s).timers.heldArmed
    ensures Stopped(s).captionIndex == s.captionIndex
    ensures s.audio.Some? ==>
              && Stopped(s).audio.value.currentTime == 0.0 && !Stopped(s).isPlaying && !Stopped(s).hasPlayed
              && Stopped(s).shown == s.shown + [Hide]
  {
  }

  /**
   * `destroy()` leaves a dead sequence: no element, the held timer disarmed (only orphans stay armed),
   * later `pause()` and `play()` requests do nothing, and the flags, index and captions are kept.
   */
  lemma DestroyQuiesces(s: IntroState)
    requires TimersValid(s.timers)
    ensures var d := Destroyed(s);
      && d.audio.None? && !d.timers.heldArmed && TimersValid(d.timers)
      && d.timers.orphans == s.timers.orphans && Armed(d.timers) == s.timers.orphans
      && Paused(d) == d && Played(d) == d
      && d.(timers := s.timers, audio := s.audio) == s
  {
  }

  /** After the narration has ended, `play()` resumes the element rather than arming the start timer again. */
  lemma EndThenPlayResumes(s: IntroState)
    requires s.audio.Some? && !s.isPlaying
    ensures Played(Ended(s)).timers == s.timers
    ensures Played(Ended(s)).audio.value.calls == s.audio.value.calls + [PlayCall]
  {
  }

  /** Repeated updates at the same playback time announce the caption only once. */
  lemma UpdateIdempotent(s: IntroState, cs: seq<Caption>)
    requires s.audio.Some?
    ensures Updated(Updated(s, cs), cs) == Updated(s, cs)
  {
  }

  /**
   * Over a contiguous table (the narration's runs over [0, 71)), an update inside the
   * table's span settles on the one caption covering the current time and announces
   * it exactly when the index changes; outside the span it settles on -1 and hides
   * only if a caption was up.
   */
  lemma UpdateTracksNarration(s: IntroState, cs: seq<Caption>)
    requires s.audio.Some? && Contiguous(cs)
    ensures var t := s.audio.value.currentTime;
            var r := Updated(s, cs);
      && (cs[0].start <= t < cs[|cs| - 1].end ==>
            && 0 <= r.captionIndex < |cs| && Covers(cs[r.captionIndex], t)
            && (forall j :: 0 <= j < |cs| && Covers(cs[j], t) ==> j == r.captionIndex)
            && r.shown == s.shown + (if r.captionIndex == s.captionIndex then [] else [Show(cs[r.captionIndex].text)]))
      && (!(cs[0].start <= t < cs[|cs| - 1].end) ==>
            && r.captionIndex == -1
            && r.shown == s.shown + (if s.captionIndex == -1 then [] else [Hide]))
  {
    ContiguousCoverage(cs, s.audio.value.currentTime);
  }

  /**
   * The start timer as written: `AudioManager.restart()` stops and restarts the intro
   * (one start), the music's play promise then starts it again, and a stop follows
   * within the delay. One timer is left armed without a handle, and when it fires it
   * asks the element to play the narration after the stop.
   */
  lemma StopMissesOrphanedTimer()
    ensures var s0 := IntroState(Some(Element([], 0.0, 0.7, false)), false, false, -1, Timers(false, false, 0), []);
            var s := Stopped(StartedAsWritten(StartedAsWritten(Stopped(s0))));
      && Armed(s.timers) == 1 && s.timers.orphans == 1 && !s.timers.handle
      && s.audio.Some? && !s.isPlaying
      && FireOrphanTimer(s).audio.value.calls == s.audio.value.calls + [PlayCall]
  {
  }

  /** The corrected start never orphans a timer, so `stop()` leaves none armed. */
  lemma StopCancelsPendingStart(s: IntroState)
    requires s.timers.orphans == 0 && TimersValid(s.timers)
    ensures Started(s).timers.orphans == 0 && Started(Started(s)).timers.orphans == 0
    ensures Armed(Stopped(s).timers) == 0 && Armed(Stopped(Started(Started(s))).timers) == 0
    ensures Armed(Stopped(Started(Started(Stopped(s)))).timers) == 0
  {
  }

  // ---------------------------------------------------------------------------
  // The class

  class IntroSequence {
    /** The caption table, `CAPTIONS` from construction on. */
    const captions: seq<Caption>
    var audio: AudioElement?
    var isPlaying: bool
    var hasPlayed: bool
    var currentCaptionIndex: int
    var startTimeout: bool
    var heldTimerArmed: bool
    var orphanTimers: nat
    /** The show and hide requests made of the caption overlay, in order. */
    var captionLog: seq<CaptionEvent>

    ghost function State(): IntroState
      reads this, audio
    {
      IntroState(if audio == null then None else Some(audio.Snapshot()), isPlaying, hasPlayed,
                 currentCaptionIndex, Timers(startTimeout, heldTimerArmed, orphanTimers), captionLog)
    }

    /** No start timer ever loses its handle. */
    ghost predicate Valid()
      reads this
    {
      orphanTimers == 0 && (heldTimerArmed ==> startTimeout)
    }

    /** The constructor and `setupAudio()`: the narration element at volume 0.7, nothing shown. */
    constructor ()
      ensures Valid() && fresh(audio) && captions == CAPTIONS
      ensures State() == IntroState(Some(Element([], 0.0, 0.7, false)), false, false, -1, Timers(false, false, 0), [])
    {
      isPlaying, hasPlayed, currentCaptionIndex := false, false, -1;
      startTimeout, heldTimerArmed, orphanTimers := false, false, 0;
      captionLog := [];
      captions := CAPTIONS;
      new;
      audio := new AudioElement();
      audio.SetVolume(0.7);
    }

    method Start()
      requires Valid()
      modifies this`startTimeout, this`heldTimerArmed
      ensures Valid() && State() == Started(old(State()))
    {
      startTimeout := true;
      heldTimerArmed := true;
    }

    method Pause()
      requires Valid()
      modifies this`captionLog, audio
      ensures Valid() && State() == Paused(old(State()))
    {
      if audio != null && isPlaying {
        audio.Pause();
        captionLog := captionLog + [Hide];
      }
    }

    method Play()
      requires Valid()
      modifies this`startTimeout, this`heldTimerArmed, audio
      ensures Valid() && State() == Played(old(State()))
    {
      if audio != null && !isPlaying {
        if !hasPlayed {
          Start();
        } else {
          audio.Play();
        }
      }
    }

    method Stop()
      requires Valid()
      modifies this`startTimeout, this`heldTimerArmed, this`isPlaying, this`hasPlayed, this`captionLog, audio
      ensures Valid() && State() == Stopped(old(State()))
    {
      if startTimeout {
        heldTimerArmed := false;
        startTimeout := false;
      }
      if audio != null {
        audio.Pause();
        audio.SetCurrentTime(0.0);
        isPlaying := false;
        hasPlayed := false;
        captionLog := captionLog + [Hide];
      }
    }

    method Restart()
      requires Valid()
      modifies this`startTimeout, this`heldTimerArmed, this`isPlaying, this`hasPlayed, this`captionLog, audio
      ensures Valid() && State() == Restarted(old(State()))
    {
      Stop();
      Start();
    }

    /** The `timeupdate` handler: scans the table in order for the caption covering the current time. */
    method UpdateCaption()
      requires audio != null
      modifies this`currentCaptionIndex, this`captionLog
      ensures State() == Updated(old(State()), captions)
    {
      var t := audio.currentTime;
      var i := 0;
      while i < |captions|
        invariant 0 <= i <= |captions|
        invariant FindFrom(captions, t, i) == FindCaption(captions, t)
        invariant currentCaptionIndex == old(currentCaptionIndex) && captionLog == old(captionLog)
      {
        if captions[i].start <= t && t < captions[i].end {
          if currentCaptionIndex != i {
            currentCaptionIndex := i;
            captionLog := captionLog + [Show(captions[i].text)];
          }
          return;
        }
        i := i + 1;
      }
      if currentCaptionIndex != -1 {
        captionLog := captionLog + [Hide];
        currentCaptionIndex := -1;
      }
    }

    /** The `ended` handler. */
    method End()
      modifies this`captionLog, this`hasPlayed
      ensures State() == Ended(old(State()))
    {
      captionLog := captionLog + [Hide];
      hasPlayed := true;
    }

    /** The `play` handler. */
    method OnPlay()
      modifies this`isPlaying
      ensures State() == PlayEvent(old(State()))
    {
      isPlaying := true;
    }

    /** The `pause` handler. */
    method OnPause()
      modifies this`isPlaying
      ensures State() == PauseEvent(old(State()))
    {
      isPlaying := false;
    }

    /** The start timer fires. */
    method OnStartTimer()
      requires heldTimerArmed
      modifies this`heldTimerArmed, audio
      ensures State() == FireHeldTimer(old(State()))
    {
      heldTimerArmed := false;
      if audio != null {
        audio.Play();
      }
    }

    /** The start timer's play promise resolves. */
    method OnStartResolved()
      modifies this`hasPlayed
      ensures State() == StartResolved(old(State()))
    {
      hasPlayed := true;
    }

    method Destroy()
      requires Valid()
      modifies this`heldTimerArmed, this`audio, audio
      ensures Valid() && State() == Destroyed(old(State()))
      ensures old(audio) != null ==> old(audio).calls == old(audio.calls) + [PauseCall]
    {
      if startTimeout {
        heldTimerArmed := false;
      }
      if audio != null {
        audio.Pause();
        audio := null;
      }
    }
  }
}
