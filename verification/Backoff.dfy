/**
 The backoff of the owner re-check, for one key that stays preserved: how far
 apart the owner reads are, how many there can be, and how late one can be.
 */
module Backoff {
  import opened Types

  const MAX_DELAY: int := 600   // ten minutes

  function Min(x: int, y: int): int {
    if x < y then x else y
  }

  predicate Due(r: Option<OwnerRecheck>, now: Time) {
    r.None? || r.value.at <= now
  }

  /** The entry after an owner read that preserves. */
  function Asked(r: Option<OwnerRecheck>, now: Time, base: int): OwnerRecheck {
    var delay := if r.Some? then Min(2 * r.value.delay, MAX_DELAY) else base;
    OwnerRecheck(now + delay, delay)
  }

  function Tick(r: Option<OwnerRecheck>, now: Time, base: int): Option<OwnerRecheck> {
    if Due(r, now) then Some(Asked(r, now, base)) else r
  }

  /** The entry after the ticks, from a key not seen before. */
  function Entry(ticks: seq<Time>, base: int): Option<OwnerRecheck> {
    if ticks == [] then None else Tick(Entry(ticks[..|ticks| - 1], base), ticks[|ticks| - 1], base)
  }

  /** The ticks at which the owner was read. */
  function Reads(ticks: seq<Time>, base: int): seq<Time> {
    if ticks == [] then []
    else
      var last := ticks[|ticks| - 1];
      var before := ticks[..|ticks| - 1];
      Reads(before, base) + if Due(Entry(before, base), last) then [last] else []
  }

  function Pow2(n: nat): (r: nat)
    ensures 1 <= r
  {
    if n == 0 then 1 else 2 * Pow2(n - 1)
  }

  function Max(x: int, y: int): int {
    if x < y then y else x
  }

  /** The delay after the read of index `i`: the base doubled `i` times, up to the cap. */
  function Delay(base: int, i: nat): int {
    if i == 0 then base else Min(2 * Delay(base, i - 1), MAX_DELAY)
  }

  lemma {:induction false} DelayBounds(base: int, i: nat)
    requires 0 < base
    ensures Min(base * Pow2(i), MAX_DELAY) <= Delay(base, i) <= Max(base, MAX_DELAY)
    ensures 0 < Delay(base, i)
  {
    if i > 0 {
      DelayBounds(base, i - 1);
      Doubled(base, Pow2(i - 1));
    }
  }

  /** With a base up to the cap of ten minutes the delay is exactly the base doubled `i` times, or the cap. */
  lemma {:induction false} DelayIs(base: int, i: nat)
    requires 0 < base <= 600
    ensures Delay(base, i) == if base * Pow2(i) < 600 then base * Pow2(i) else 600
  {
    if i > 0 {
      DelayIs(base, i - 1);
      Doubled(base, Pow2(i - 1));
    }
  }

  /** The entry always stands for the last read and the delay of its index. */
  lemma {:induction false} EntryIsLastRead(ticks: seq<Time>, base: int)
    ensures var asks := Reads(ticks, base);
            if asks == [] then ticks == [] && Entry(ticks, base).None?
            else var d := Delay(base, |asks| - 1); Entry(ticks, base) == Some(OwnerRecheck(asks[|asks| - 1] + d, d))
  {
    if ticks != [] {
      EntryIsLastRead(ticks[..|ticks| - 1], base);
    }
  }

  /** The gap after the read of index `i` is at least the base doubled `i` times, or the cap. */
  lemma {:induction false} GapsGrow(ticks: seq<Time>, base: int, i: nat)
    requires 0 < base && i + 1 < |Reads(ticks, base)|
    ensures Reads(ticks, base)[i + 1] - Reads(ticks, base)[i] >= Min(base * Pow2(i), MAX_DELAY)
  {
    var before := ticks[..|ticks| - 1];
    var asks := Reads(before, base);
    if i + 1 < |asks| {
      GapsGrow(before, base, i);
    } else {
      EntryIsLastRead(before, base);
      DelayBounds(base, i);
    }
  }

  /** From the doubling that reaches the cap on, reads are a whole cap apart. */
  lemma {:induction false} LateReadsSpread(ticks: seq<Time>, base: int, warm: nat, i: nat)
    requires 0 < base && MAX_DELAY <= base * Pow2(warm)
    requires warm <= i < |Reads(ticks, base)|
    ensures Reads(ticks, base)[i] - Reads(ticks, base)[warm] >= (i - warm) * MAX_DELAY
  {
    if i > warm {
      LateReadsSpread(ticks, base, warm, i - 1);
      Pow2Monotone(warm, i - 1, base);
      GapsGrow(ticks, base, i - 1);
    }
  }

  lemma {:induction false} Pow2Monotone(i: nat, j: nat, base: int)
    requires i <= j && 0 < base
    ensures base * Pow2(i) <= base * Pow2(j)
  {
    if i < j {
      Pow2Monotone(i, j - 1, base);
      Doubled(base, Pow2(j - 1));
    }
  }

  lemma Doubled(base: int, n: int)
    requires 0 < base && 0 < n
    ensures 0 < base * n && base * (2 * n) == 2 * (base * n)
  {
  }

  lemma {:induction false} ReadsAscend(ticks: seq<Time>, base: int, i: nat, j: nat)
    requires 0 < base && i <= j < |Reads(ticks, base)|
    ensures Reads(ticks, base)[i] <= Reads(ticks, base)[j]
  {
    if i < j {
      ReadsAscend(ticks, base, i, j - 1);
      GapsGrow(ticks, base, j - 1);
      Pow2Monotone(0, j - 1, base);
    }
  }

  /**
   Reads over a span are bounded: the doublings it takes to reach the cap, one
   read more, and one for each whole cap of the span.
   */
  lemma ReadsAreBounded(ticks: seq<Time>, base: int, warm: nat)
    requires 0 < base && MAX_DELAY <= base * Pow2(warm)
    requires Reads(ticks, base) != []
    ensures var asks := Reads(ticks, base);
            |asks| <= warm + 1 + (asks[|asks| - 1] - asks[0]) / MAX_DELAY
  {
    var asks := Reads(ticks, base);
    var span := asks[|asks| - 1] - asks[0];
    ReadsAscend(ticks, base, 0, |asks| - 1);
    if |asks| > warm + 1 {
      LateReadsSpread(ticks, base, warm, |asks| - 1);
      ReadsAscend(ticks, base, 0, warm);
      DividesDown(span, |asks| - 1 - warm);
    }
  }

  lemma DividesDown(span: int, n: int)
    requires n * MAX_DELAY <= span
    ensures n <= span / MAX_DELAY
  {
  }

  ghost predicate TicksWithin(ticks: seq<Time>, d: int) {
    forall i :: 0 < i < |ticks| ==> ticks[i - 1] < ticks[i] <= ticks[i - 1] + d
  }

  /**
   No read is late: with ticks at most `d` apart, the owner is read again at most
   the cap (or a base above it) plus `d` after the previous read, so a release
   verdict waits no longer than that.
   */
  lemma {:induction false} ReadsAreTimely(ticks: seq<Time>, base: int, d: int, i: nat)
    requires 0 < base && TicksWithin(ticks, d) && i + 1 < |Reads(ticks, base)|
    ensures Reads(ticks, base)[i + 1] <= Reads(ticks, base)[i] + Max(base, MAX_DELAY) + d
  {
    var before := ticks[..|ticks| - 1];
    var asks := Reads(before, base);
    if i + 1 < |asks| {
      ReadsAreTimely(before, base, d, i);
    } else {
      LastTickNotLate(before, base);
      assert ticks[|ticks| - 1] <= before[|before| - 1] + d;
    }
  }

  /** As long as the last tick did not read, the cap has not passed since the read before it. */
  lemma {:induction false} LastTickNotLate(ticks: seq<Time>, base: int)
    requires 0 < base && Reads(ticks, base) != []
    ensures var asks := Reads(ticks, base); ticks[|ticks| - 1] <= asks[|asks| - 1] + Max(base, MAX_DELAY)
  {
    var before := ticks[..|ticks| - 1];
    EntryIsLastRead(before, base);
    if Reads(before, base) != [] {
      DelayBounds(base, |Reads(before, base)| - 1);
    }
  }

  /** And reads do come: a tick a whole cap after the last read is one. */
  lemma ReadsComeAgain(ticks: seq<Time>, base: int, now: Time)
    requires 0 < base && Reads(ticks, base) != []
    requires now >= Reads(ticks, base)[|Reads(ticks, base)| - 1] + Max(base, MAX_DELAY)
    ensures Reads(ticks + [now], base) == Reads(ticks, base) + [now]
  {
    EntryIsLastRead(ticks, base);
    DelayBounds(base, |Reads(ticks, base)| - 1);
    assert (ticks + [now])[..|ticks|] == ticks;
  }

  /**
   The schedule, exactly: the first tick reads, and a later one does if and only if the
   delay of the last read has passed since it.
   */
  lemma ReadsAreExact(ticks: seq<Time>, base: int, now: Time)
    ensures var asks := Reads(ticks, base);
            var n := |asks|;
            Reads(ticks + [now], base) ==
            if n == 0 || asks[n - 1] + Delay(base, n - 1) <= now then asks + [now] else asks
  {
    ReadsNext(ticks, base, now);
    EntryIsLastRead(ticks, base);
  }

  lemma ReadsNext(ticks: seq<Time>, base: int, now: Time)
    ensures Reads(ticks + [now], base) == Reads(ticks, base) + if Due(Entry(ticks, base), now) then [now] else []
  {
    assert (ticks + [now])[..|ticks|] == ticks;
  }
}
