/**
 * A stand-in for the browser's `HTMLAudioElement`: the properties the audio and
 * caption classes set (volume, loop, playback position), and the `play()` and
 * `pause()` requests they make, kept in order. Playback itself, and the promise
 * `play()` returns, happen outside the model; their outcomes reach the classes as
 * event methods.
 */
module Media {
  datatype MediaCall = PlayCall | PauseCall

  /** A value snapshot of an element, for stating transitions. */
  datatype Element = Element(calls: seq<MediaCall>, currentTime: real, volume: real, loop: bool)

  class AudioElement {
    var calls: seq<MediaCall>
    var currentTime: real
    var volume: real
    var loop: bool

    /** `new Audio(path)`: nothing requested yet, at the start, full volume, not looping. */
    constructor ()
      ensures calls == [] && currentTime == 0.0 && volume == 1.0 && !loop
    {
      calls := [];
      currentTime := 0.0;
      volume := 1.0;
      loop := false;
    }

    /** The element's current value. */
    function Snapshot(): Element
      reads this
    {
      Element(calls, currentTime, volume, loop)
    }

    /** `play()`: a request; whether playback starts is decided outside. */
    method Play()
      modifies this`calls
      ensures calls == old(calls) + [PlayCall]
    {
      calls := calls + [PlayCall];
    }

    method Pause()
      modifies this`calls
      ensures calls == old(calls) + [PauseCall]
    {
      calls := calls + [PauseCall];
    }

    /** Assigning `currentTime`, by the classes (a rewind) or by playback progressing. */
    method SetCurrentTime(t: real)
      modifies this`currentTime
      ensures currentTime == t
    {
      currentTime := t;
    }

    method SetVolume(v: real)
      modifies this`volume
      ensures volume == v
    {
      volume := v;
    }

    method SetLoop(on: bool)
      modifies this`loop
      ensures loop == on
    {
      loop := on;
    }
  }

  function WithCall(e: Element, c: MediaCall): Element
  {
    e.(calls := e.calls + [c])
  }
}
