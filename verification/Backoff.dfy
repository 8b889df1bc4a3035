/** Binary exponential backoff: how often one process restarts its transaction and how long it sleeps in all. */
module Backoff {
  /** The width of the unsigned int that is shifted. */
  const WIDTH: nat := 32

  function Pow2(n: nat): (p: nat)
    ensures p > n
  {
    if n == 0 then 1 else 2 * Pow2(n - 1)
  }

  /** The largest e with 2^e <= m. */
  function FloorLog2(m: nat): (e: nat)
    requires m >= 1
    ensures Pow2(e) <= m < Pow2(e + 1)
  {
    if m == 1 then 0 else FloorLog2(m / 2) + 1
  }

  lemma {:induction false} Pow2Monotone(a: nat, b: nat)
    requires a <= b
    ensures Pow2(a) <= Pow2(b)
    decreases b - a
  {
    if a < b {
      Pow2Monotone(a, b - 1);
    }
  }

  /** A sleep of 2^n seconds is within the limit exactly for n up to the logarithm of the limit. */
  lemma WithinLimit(n: nat, limit: nat)
    requires limit >= 1
    ensures Pow2(n) <= limit <==> n <= FloorLog2(limit)
  {
    var e := FloorLog2(limit);
    if n <= e {
      Pow2Monotone(n, e);
    } else {
      Pow2Monotone(e + 1, n);
    }
  }

  /** Within any limit that fits an unsigned int's positive half, the shift never reaches the width. */
  lemma NeverOvershifts(limit: nat)
    requires 1 <= limit < Pow2(WIDTH - 1)
    ensures FloorLog2(limit) + 1 < WIDTH
  {
    WithinLimit(WIDTH - 1, limit);
  }

  /** The seconds slept by n restarts. */
  function TotalSleep(n: nat): (s: nat)
    ensures s == Pow2(n) - 1
  {
    if n == 0 then 0 else TotalSleep(n - 1) + Pow2(n - 1)
  }

  lemma SleepBound(n: nat, limit: nat)
    requires limit >= 1 && n <= FloorLog2(limit) + 1
    ensures TotalSleep(n) <= 2 * limit - 1
  {
    Pow2Monotone(n, FloorLog2(limit) + 1);
  }

  /** One process: the static counter is shared by all its attempts; limit is MAXTIMEOUT, 32 as configured. */
  class Process {
    const limit: nat
    var lastSleep: nat
    var slept: nat

    constructor (limit: nat)
      ensures this.limit == limit && lastSleep == 0 && slept == 0
    {
      this.limit := limit;
      lastSleep, slept := 0, 0;
    }

    /** backoff_sleep: false when the limit is exceeded and the transaction aborts instead. */
    method BackoffSleep() returns (ok: bool)
      requires lastSleep < WIDTH
      modifies this
      ensures lastSleep == old(lastSleep) + 1
      ensures ok <==> Pow2(old(lastSleep)) <= limit
      ensures slept == old(slept) + if ok then Pow2(old(lastSleep)) else 0
    {
      var sleeptime := Pow2(lastSleep);
      lastSleep := lastSleep + 1;
      if sleeptime > limit {
        return false;
      }
      slept := slept + sleeptime;
      return true;
    }

    /** The loop around a transaction: the i-th attempt is restarted if contended[i], otherwise it ends for good.
        However often the monitor refuses, the process restarts at most floor(log2 limit) + 1 times and sleeps at most
        2 * limit - 1 seconds; it gives up exactly when it is refused more often than that. */
    method Retry(contended: seq<bool>) returns (restarts: nat, gaveUp: bool)
      requires 1 <= limit < Pow2(WIDTH - 1) && lastSleep == 0 && slept == 0
      modifies this
      ensures restarts <= FloorLog2(limit) + 1 && slept == Pow2(restarts) - 1 && slept <= 2 * limit - 1
      ensures forall i :: 0 <= i < restarts ==> i < |contended| && contended[i]
      ensures gaveUp <==> restarts == FloorLog2(limit) + 1 && restarts < |contended| && contended[restarts]
      ensures !gaveUp && restarts < |contended| ==> !contended[restarts]
    {
      restarts, gaveUp := 0, false;
      NeverOvershifts(limit);
      while restarts < |contended| && contended[restarts]
        invariant restarts <= FloorLog2(limit) + 1 && restarts <= |contended|
        invariant lastSleep == restarts && slept == TotalSleep(restarts)
        invariant forall i :: 0 <= i < restarts ==> contended[i]
        decreases |contended| - restarts
      {
        WithinLimit(restarts, limit);
        var ok := BackoffSleep();
        if !ok {
          gaveUp := true;
          break;
        }
        restarts := restarts + 1;
      }
      SleepBound(restarts, limit);
    }
  }

  lemma SameExponent(e: nat, f: nat)
    requires Pow2(f) <= Pow2(e) < Pow2(f + 1)
    ensures e == f
  {
    if f < e {
      Pow2Monotone(f + 1, e);
    } else if f > e {
      Pow2Monotone(e + 1, f);
    }
  }

  lemma LogOfPower(e: nat)
    ensures FloorLog2(Pow2(e)) == e
  {
    SameExponent(e, FloorLog2(Pow2(e)));
  }

  /** The bounds are reached when the limit is a power of two. */
  lemma BoundReached(e: nat, limit: nat)
    requires limit == Pow2(e)
    ensures FloorLog2(limit) == e && TotalSleep(FloorLog2(limit) + 1) == 2 * limit - 1
  {
    LogOfPower(e);
  }
}
