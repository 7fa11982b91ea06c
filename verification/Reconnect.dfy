/** Reconnecting: bounded exponential backoff with unbiased jitter, and the configuration it starts from. */
module Reconnect {
  import opened Wire
  import ServiceStore

  const NANOS_PER_MILLI := 1_000_000
  const MAX_JITTER_MS := 7_500
  const DAY := 86_400_000_000_000
  const DURATION_MAX := 0xffff_ffff_ffff_ffff * 1_000_000_000 + 999_999_999

  function Min(a: int, b: int): int {
    if a <= b then a else b
  }

  /** The reconnect delays of a valid timeout policy. */
  predicate ValidDelays(initial: nat, max: nat) {
    0 < initial <= max <= DAY
  }

  // ----- jitter

  function JitterBound(delay: nat): nat {
    Min(delay / NANOS_PER_MILLI / 4, MAX_JITTER_MS)
  }

  /** Draws at or above the zone are thrown away, so that what is kept divides evenly. */
  function Zone(range: nat): nat
    requires range > 0
  {
    U64_MAX - U64_MAX % range
  }

  function Residues(range: nat, v: nat, n: nat): set<nat>
    requires range > 0
  {
    set x | 0 <= x < n * range && x % range == v
  }

  lemma {:induction false} ResidueInBlock(range: nat, v: nat, n: nat, x: nat)
    requires v < range && n * range <= x < n * range + range
    ensures x % range == v <==> x == n * range + v
  {
    var r := x - n * range;
    assert x == n * range + r && 0 <= r < range;
    DivisionIs(x, range, n, r);
  }

  lemma {:induction false} DivisionIs(x: nat, d: nat, q: nat, r: nat)
    requires d > 0 && x == q * d + r && r < d
    ensures x / d == q && x % d == r
  {
    var q', r' := x / d, x % d;
    assert x == q' * d + r';
    if q' < q { Apart(q', q, d); } else if q < q' { Apart(q, q', d); }
  }

  lemma {:induction false} Apart(a: nat, b: nat, d: nat)
    requires a < b
    ensures a * d + d <= b * d
  {
    if b > a + 1 { Apart(a, b - 1, d); }
    assert b * d == (b - 1) * d + d;
  }

  lemma {:induction false} ResidueCount(range: nat, v: nat, n: nat)
    requires v < range
    ensures |Residues(range, v, n)| == n
  {
    if n == 0 {
      assert Residues(range, v, 0) == {};
    } else {
      var m := n - 1;
      ResidueCount(range, v, m);
      assert n * range == m * range + range;
      var last := m * range + v;
      forall x: nat ensures x in Residues(range, v, n) <==> x in Residues(range, v, m) || x == last {
        if m * range <= x < m * range + range { ResidueInBlock(range, v, m, x); }
        if x == last { ResidueInBlock(range, v, m, last); }
      }
      assert Residues(range, v, n) == Residues(range, v, m) + {last};
    }
  }

  /** The zone is the largest multiple of the range that is a 64-bit number. */
  lemma {:induction false} ZoneExact(range: nat)
    requires 0 < range
    ensures Zone(range) % range == 0 && Zone(range) <= 0xffff_ffff_ffff_ffff < Zone(range) + range
    ensures Zone(range) == U64_MAX / range * range
  {
    assert U64_MAX == U64_MAX / range * range + U64_MAX % range;
    DivisionIs(Zone(range), range, U64_MAX / range, 0);
  }

  /** The bound is a quarter of the delay in whole milliseconds, and at most seven and a half seconds. */
  lemma {:induction false} JitterBoundExact(delay: nat, b: nat)
    ensures b == JitterBound(delay) <==>
      b <= 7_500 && b * 4_000_000 <= delay && (b == 7_500 || delay < (b + 1) * 4_000_000)
  {
    var millis := delay / 1_000_000;
    assert millis * 1_000_000 <= delay < (millis + 1) * 1_000_000;
    var quarter := millis / 4;
    assert quarter * 4 <= millis < (quarter + 1) * 4;
  }

  /** The first draw kept, as jitter. A draw the system fails to give ends the search. */
  function Drawn(draws: seq<Option<u64>>, range: nat): Option<nat>
    requires range > 0
  {
    if draws == [] || draws[0].None? then None
    else if draws[0].value < Zone(range) then Some(draws[0].value % range)
    else Drawn(draws[1..], range)
  }

  /** The jitter that a row of draws yields; the bound itself is the answer of last resort. */
  function Jitter(delay: nat, draws: seq<Option<u64>>): nat {
    var bound := JitterBound(delay);
    match Drawn(draws, bound + 1)
    case Some(v) => v
    case None => bound
  }

  /** Up to four draws, one after the other. */
  method RandomJitter(delay: nat, draws: seq<Option<u64>>) returns (jitter: nat)
    requires |draws| == 4
    ensures jitter == Jitter(delay, draws) <= JitterBound(delay)
  {
    var max := JitterBound(delay);
    var range := max + 1;
    if max == 0 {
      NoRoomForJitter(draws);
      return 0;
    }
    for k := 0 to 4
      invariant Drawn(draws[k..], range) == Drawn(draws, range)
    {
      if draws[k].None? { return max; }
      if draws[k].value < Zone(range) { return draws[k].value % range; }
      assert draws[k..][1..] == draws[k + 1..];
    }
    jitter := max;
  }

  lemma {:induction false} NoRoomForJitter(draws: seq<Option<u64>>)
    ensures Drawn(draws, 1).Some? ==> Drawn(draws, 1).value == 0
  {
    if draws == [] {
    } else {
      NoRoomForJitter(draws[1..]);
    }
  }

  /** A draw that the system gave and that is thrown away. */
  predicate Discarded(draw: Option<u64>, delay: nat) {
    draw.Some? && draw.value >= Zone(JitterBound(delay) + 1)
  }

  /**
   After draws thrown away, the next one decides: kept, it is the jitter, modulo one more than the bound; not given, or
   no draw left, the jitter is the bound.
   */
  lemma {:induction false} FirstKeptDecides(delay: nat, draws: seq<Option<u64>>, k: nat)
    requires k <= |draws| && forall i :: 0 <= i < k ==> Discarded(draws[i], delay)
    requires k < |draws| ==> !Discarded(draws[k], delay)
    ensures Jitter(delay, draws) ==
      if k < |draws| && draws[k].Some? then draws[k].value % (JitterBound(delay) + 1) else JitterBound(delay)
    decreases k
  {
    if k == 0 {
    } else {
      FirstKeptDecides(delay, draws[1..], k - 1);
    }
  }

  /** The draws kept that yield jitter `v`, whatever would be drawn later. */
  function Yielding(delay: nat, later: seq<Option<u64>>, v: nat): set<nat> {
    set x: nat | 0 <= x < Zone(JitterBound(delay) + 1) && Jitter(delay, [Some(x)] + later) == v
  }

  /** Of the first draws that are kept, equally many yield each jitter from zero to the bound. */
  lemma {:induction false} JitterIsUniform(delay: nat, later: seq<Option<u64>>, v: nat)
    requires v <= JitterBound(delay)
    ensures |Yielding(delay, later, v)| == 0xffff_ffff_ffff_ffff / (JitterBound(delay) + 1) > 0
  {
    var range := JitterBound(delay) + 1;
    var n := U64_MAX / range;
    ZoneExact(range);
    forall x: nat ensures x in Yielding(delay, later, v) <==> x in Residues(range, v, n) {
      if x < Zone(range) { FirstKeptDecides(delay, [Some(x)] + later, 0); }
    }
    assert Yielding(delay, later, v) == Residues(range, v, n);
    ResidueCount(range, v, n);
    assert range <= U64_MAX;
  }

  // ----- backoff

  function Power(k: nat): nat {
    if k == 0 then 1 else 2 * Power(k - 1)
  }

  /** The delay after `k` completed waits. */
  function DelayAfter(initial: nat, max: nat, k: nat): nat {
    Min(initial * Power(k), max)
  }

  function Doubled(delay: nat, max: nat): nat {
    Min(Min(2 * delay, DURATION_MAX), max)
  }

  lemma {:induction false} DoublingAgrees(initial: nat, max: nat, k: nat)
    requires ValidDelays(initial, max)
    ensures Doubled(DelayAfter(initial, max, k), max) == DelayAfter(initial, max, k + 1)
  {
    assert initial * Power(k + 1) == 2 * (initial * Power(k));
  }

  lemma {:induction false} DelayInRange(initial: nat, max: nat, k: nat)
    requires ValidDelays(initial, max)
    ensures initial <= DelayAfter(initial, max, k) <= max
  {
    PowerPositive(k);
    assert initial * Power(k) >= initial * 1;
  }

  lemma {:induction false} PowerPositive(k: nat)
    ensures Power(k) >= 1
  {
    if k == 0 {
    } else {
      PowerPositive(k - 1);
    }
  }

  function Slept(delay: nat, jitter: nat, max: nat): int {
    Min(delay + jitter * NANOS_PER_MILLI, max)
  }

  /** A wait is never shorter than the delay, nor longer than a quarter more, nor than the ceiling. */
  lemma {:induction false} SleepInRange(delay: nat, jitter: nat, max: nat)
    requires delay <= max && jitter <= JitterBound(delay)
    ensures delay <= Slept(delay, jitter, max) <= max
    ensures 4 * Slept(delay, jitter, max) <= 5 * delay && Slept(delay, jitter, max) <= delay + 7_500 * NANOS_PER_MILLI
  {
    var millis := delay / NANOS_PER_MILLI;
    assert millis * NANOS_PER_MILLI <= delay;
    assert 4 * (millis / 4) <= millis;
    assert 4 * jitter <= millis;
  }

  /** One attempt to wait: cancelled before or during the sleep, or completed. */
  datatype Outcome = CancelledBefore | CancelledDuring | Completed

  class ReconnectSupervisor {
    const initial: nat
    const max: nat
    var delay: nat
    var reconnects: nat
    /** Completed waits since the last Session that became ready. */
    ghost var completed: nat

    constructor (initial: nat, max: nat)
      requires ValidDelays(initial, max)
      ensures Valid() && this.initial == initial && this.max == max && completed == 0 && reconnects == 0
    {
      this.initial, this.max, delay, reconnects, completed := initial, max, initial, 0, 0;
    }

    ghost predicate Valid()
      reads this
    {
      ValidDelays(initial, max) && delay == DelayAfter(initial, max, completed)
    }

    /** A Session has become ready. */
    method Reset()
      requires Valid()
      modifies this`delay, this`completed
      ensures Valid() && completed == 0 && delay == initial
    {
      delay, completed := initial, 0;
    }

    method Backoff(outcome: Outcome, draws: seq<Option<u64>>) returns (again: bool, slept: nat)
      requires Valid() && |draws| == 4
      modifies this`delay, this`reconnects, this`completed
      ensures Valid()
      ensures again <==> outcome.Completed?
      ensures completed == old(completed) + (if again then 1 else 0)
      ensures reconnects == old(reconnects) + (if again then 1 else 0)
      ensures !again ==> delay == old(delay)
      ensures again ==> slept == Min(old(delay) + Jitter(old(delay), draws) * 1_000_000, max)
      ensures again ==> old(delay) <= slept <= max && 4 * slept <= 5 * old(delay)
      ensures again ==> slept <= old(delay) + 7_500 * NANOS_PER_MILLI
    {
      if outcome.CancelledBefore? { return false, 0; }
      var jitter := RandomJitter(delay, draws);
      DelayInRange(initial, max, completed);
      SleepInRange(delay, jitter, max);
      slept := Slept(delay, jitter, max);
      if outcome.CancelledDuring? { return false, 0; }
      reconnects := reconnects + 1;
      DoublingAgrees(initial, max, completed);
      delay, completed := Doubled(delay, max), completed + 1;
      again := true;
    }
  }

  // ----- configuration

  /** The configured Services are accepted exactly when there are no more than allowed and no id or name repeats. */
  method ValidateServices(services: seq<ServiceStore.Service>, limit: nat) returns (ok: bool)
    ensures ok <==> |services| <= limit && ServiceStore.DesiredDistinct(services)
  {
    if |services| > limit { return false; }
    var ids: set<ServiceId> := {};
    var names: set<Text> := {};
    for i := 0 to |services|
      invariant ids == set j | 0 <= j < i :: services[j].id
      invariant names == set j | 0 <= j < i :: services[j].name
      invariant ServiceStore.DesiredDistinct(services[..i])
    {
      var s := services[i];
      if s.id in ids || s.name in names {
        var j :| 0 <= j < i && (services[j].id == s.id || services[j].name == s.name);
        assert ServiceStore.Clash(services[j], services[i]);
        return false;
      }
      ids, names := ids + {s.id}, names + {s.name};
    }
    assert services[..|services|] == services;
    ok := true;
  }
}
