/** The place stream events are written to, in order. */
module Emission {
  class Emitter<E> {
    var trace: seq<E>

    constructor ()
      ensures trace == []
    {
      trace := [];
    }

    method Emit(e: E)
      modifies this
      ensures trace == old(trace) + [e]
    {
      trace := trace + [e];
    }
  }
}
