/**
 * The viewport the pipeline sizes itself from. The class that keeps it current on
 * window resizes (`Sizes.class.js`) is not part of this model: its fields are inputs.
 */
module Viewport {
  class Sizes {
    var width: nat
    var height: nat
    var aspect: real

    constructor (w: nat, h: nat, a: real)
      ensures width == w && height == h && aspect == a
    {
      width, height, aspect := w, h, a;
    }
  }
}
