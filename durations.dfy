/**
 * Durations and instants, all as whole nanoseconds (Rust's `Duration` resolution).
 * Song positions, lyric timings, wall-clock instants and round-trip times share this unit.
 */
module Durations {

  type Duration = nat

  const Millisecond: nat := 1_000_000
  const Second: nat := 1000 * Millisecond
}
