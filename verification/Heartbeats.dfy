/** When the sweeper finds a connection expired (crates/server/src/session.rs, crates/server/src/ws.rs):
    whole-second clock reads, a timeout of at least a second, and ticks on time. */
module Heartbeats {
  import opened Basics

  /** Times are nanoseconds since the epoch; `now_timestamp` keeps the whole seconds. */
  const SECOND: nat := 1_000_000_000

  const I64_MAX: int := 0x7FFF_FFFF_FFFF_FFFF

  function Timestamp(t: nat): nat {
    t / SECOND
  }

  /** Rust's `as i64` on a u64. */
  function AsI64(n: u64): int {
    if n <= I64_MAX then n else n - 0x1_0000_0000_0000_0000
  }

  function SaturatingSub(a: int, b: int): int {
    if a - b > I64_MAX then I64_MAX else if a - b < -I64_MAX - 1 then -I64_MAX - 1 else a - b
  }

  function EffectiveTimeout(timeoutSec: u64): u64 {
    Max(timeoutSec, 1)
  }

  predicate HasExpired(timeoutSec: u64, now: int, lastHeartbeatAt: int) {
    SaturatingSub(now, lastHeartbeatAt) > AsI64(EffectiveTimeout(timeoutSec))
  }

  /** Seconds between two sweeps. */
  function SweepInterval(timeoutSec: u64): nat {
    Min(Max(timeoutSec, 1), 30)
  }

  /** A clock read that fits the i64 seconds the server keeps. */
  predicate Readable(t: nat) {
    Timestamp(t) <= I64_MAX
  }

  /** The last of a connection's heartbeats (its registration first) at or before t. */
  function LastBeat(beats: seq<nat>, t: nat): nat
    requires beats != [] && beats[0] <= t
  {
    var n := |beats| - 1;
    if beats[n] <= t then beats[n] else if n == 0 then beats[0] else LastBeat(beats[..n], t)
  }

  predicate Steady(beats: seq<nat>, gap: nat) {
    && beats != []
    && forall i :: 0 <= i < |beats| - 1 ==> beats[i] <= beats[i + 1] <= beats[i] + gap
  }

  lemma {:induction false} LastBeatRecent(beats: seq<nat>, gap: nat, t: nat)
    requires Steady(beats, gap) && beats[0] <= t <= beats[|beats| - 1] + gap
    ensures LastBeat(beats, t) <= t <= LastBeat(beats, t) + gap
  {
    var n := |beats| - 1;
    if beats[n] > t && n > 0 {
      assert beats[n - 1] <= beats[n] <= beats[n - 1] + gap;
      LastBeatRecent(beats[..n], gap, t);
    }
  }

  lemma SecondsApart(b: nat, t: nat, s: nat)
    requires b <= t <= b + s * SECOND
    ensures 0 <= Timestamp(t) - Timestamp(b) <= s
  {
  }

  lemma SecondsPassed(b: nat, t: nat, s: nat)
    requires b + s * SECOND <= t
    ensures Timestamp(t) - Timestamp(b) >= s
  {
  }

  /** A connection whose heartbeats are at most the timeout apart is never found expired. */
  lemma SteadyNeverExpires(timeoutSec: u64, beats: seq<nat>, t: nat)
    requires Max(timeoutSec, 1) <= I64_MAX && Readable(t)
    requires Steady(beats, Max(timeoutSec, 1) * SECOND)
    requires beats[0] <= t <= beats[|beats| - 1] + Max(timeoutSec, 1) * SECOND
    ensures !HasExpired(timeoutSec, Timestamp(t), Timestamp(LastBeat(beats, t)))
  {
    LastBeatRecent(beats, Max(timeoutSec, 1) * SECOND, t);
    SecondsApart(LastBeat(beats, t), t, Max(timeoutSec, 1));
  }

  /** That guarantee holds exactly for timeouts that survive the cast to i64: from 2^63 on everything is expired at
      once. */
  lemma TimeoutGuaranteeExactly(timeoutSec: u64)
    ensures (forall b: nat, t: nat :: b <= t <= b + Max(timeoutSec, 1) * SECOND && Readable(t) ==>
               !HasExpired(timeoutSec, Timestamp(t), Timestamp(b)))
            <==> timeoutSec <= I64_MAX
  {
    if timeoutSec <= I64_MAX {
      forall b: nat, t: nat | b <= t <= b + Max(timeoutSec, 1) * SECOND && Readable(t)
        ensures !HasExpired(timeoutSec, Timestamp(t), Timestamp(b))
      {
        SecondsApart(b, t, Max(timeoutSec, 1));
      }
    } else {
      var zero: nat := 0;
      assert Readable(zero) && HasExpired(timeoutSec, Timestamp(zero), Timestamp(zero));
    }
  }

  function Tick(timeoutSec: u64, start: nat, k: nat): nat {
    start + k * (SweepInterval(timeoutSec) * SECOND)
  }
}
