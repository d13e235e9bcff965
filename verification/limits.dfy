/** The engine's fixed limits. */
module Limits {
  /** Node IDs are below this. */
  const MAX_NODES := 256

  /** The widest endpoint. */
  const MAX_CHANNELS := 254

  /** Routes with a DSP slot have IDs between 1 and this, exclusively. */
  const MAX_ROUTES := 1024

  /** The longest chain of one route. */
  const MAX_PROCESSORS := 16

  const MAX_GAIN := 8.0

  predicate Supported(id: nat) {
    0 < id < MAX_ROUTES
  }

  predicate GainOk(gain: real) {
    0.0 <= gain <= MAX_GAIN
  }

  function Max(a: nat, b: nat): nat {
    if a < b then b else a
  }
}
