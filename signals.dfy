/** The signal record strategies hand to the engine (src/strategy/base.py). */
module Signals {
  import opened Wrappers

  datatype SignalType = Buy | Sell | Hold

  /** A dated instruction; `timestamp` is the day number it applies to. */
  datatype Signal = Signal(
    symbol: string,
    signalType: SignalType,
    price: real,
    timestamp: int,
    strength: real,
    reason: Option<string>)

  /** The validator's one constraint: strength lies in [0, 1]. */
  predicate ValidSignal(s: Signal) {
    0.0 <= s.strength <= 1.0
  }
}
