/** The per-session delivery queue (internal/impair/impair.go): loss, latency and jitter, reorder, bandwidth. */
module Impair {
  import opened Audio
  import opened Basics

  const DEFAULT_REORDER_DELAY_MS := 40

  datatype Profile = Profile(
    addedLatencyMs: int,
    jitterMs: int,
    reorderProb: real,
    lossProb: real,
    bandwidthBps: int,
    reorderDelayMs: int,
    burstToBad: real,
    burstToGood: real)
  {
    predicate BurstLossEnabled() { burstToBad > 0.0 || burstToGood > 0.0 }

    /** What scenario validation accepts (internal/script/script.go:125-145). */
    predicate Valid() {
      && 0.0 <= lossProb <= 1.0 && 0.0 <= reorderProb <= 1.0
      && addedLatencyMs >= 0 && jitterMs >= 0 && bandwidthBps >= 0 && reorderDelayMs >= 0
      && 0.0 <= burstToBad <= 1.0 && 0.0 <= burstToGood <= 1.0
    }

    /** No loss of either kind can happen. */
    predicate Lossless() { lossProb <= 0.0 && !BurstLossEnabled() }
  }

  /** An arbitrary seeded generator: draw k gives a float in [0, 1) or an integer in [0, n). */
  datatype Rng = Rng(float: nat -> real, intn: (nat, nat) -> nat) {
    ghost predicate Valid() {
      && (forall k :: 0.0 <= float(k) < 1.0)
      && (forall k, n: nat | n > 0 :: intn(k, n) < n)
    }
  }

  datatype Link = Link(lastDelivery: int, hasLast: bool, remainder: int, bad: bool, dropped: seq<Frame>, draws: nat)

  const FRESH_LINK := Link(0, false, 0, false, [], 0)

  /** The two-state burst-loss chain: decide with the current state, then move. */
  function BurstStep(p: Profile, g: Rng, q: Link): (Link, bool) {
    var lost := g.float(q.draws) < (if q.bad then 1.0 else p.lossProb);
    var flip := g.float(q.draws + 1) < (if q.bad then p.burstToGood else p.burstToBad);
    (q.(draws := q.draws + 2, bad := if flip then !q.bad else q.bad), lost)
  }

  /** Step (1): the loss decision. */
  function LossStep(p: Profile, g: Rng, q: Link): (Link, bool) {
    if p.BurstLossEnabled() then BurstStep(p, g, q)
    else if p.lossProb > 0.0 then (q.(draws := q.draws + 1), g.float(q.draws) < p.lossProb)
    else (q, false)
  }

  function AtLeast(x: int, floor: int): int { if x < floor then floor else x }

  /** Steps (2) and (3): latency, jitter and reorder, floored at the send time after each. */
  function ShapeStep(p: Profile, g: Rng, q: Link, now: int): (r: (Link, int))
    ensures r.1 >= now && r.0 == q.(draws := r.0.draws)
  {
    var jittered := p.jitterMs > 0;
    var at := AtLeast(now + p.addedLatencyMs + (if jittered then g.intn(q.draws, 2 * p.jitterMs + 1) else 0), now);
    var d := if jittered then q.draws + 1 else q.draws;
    var tried := p.reorderProb > 0.0;
    var extra := if p.reorderDelayMs == 0 then DEFAULT_REORDER_DELAY_MS else p.reorderDelayMs;
    var at2 := if tried && g.float(d) < p.reorderProb then at + extra else at;
    (q.(draws := if tried then d + 1 else d), AtLeast(at2, now))
  }

  /** Milliseconds charged for a frame when `bits` bits are owed on a link of `bps` bits per second. */
  function ChargeMs(bits: int, bps: int): int
    requires bps > 0
  {
    Quot(bits * 1000, bps)
  }

  /** Bits still owed after charging whole milliseconds. */
  function CarryBits(bits: int, bps: int): int
    requires bps > 0
  {
    bits - Quot(ChargeMs(bits, bps) * bps, 1000)
  }

  /** Step (4): serialization delay behind the previous frame. */
  function BandwidthStep(p: Profile, q: Link, payloadLen: int, at: int): (Link, int) {
    if p.bandwidthBps > 0 then
      var bits := q.remainder + payloadLen * 8;
      var start := if q.hasLast && q.lastDelivery > at then q.lastDelivery else at;
      var due := start + ChargeMs(bits, p.bandwidthBps);
      (q.(remainder := CarryBits(bits, p.bandwidthBps), lastDelivery := due, hasLast := true), due)
    else (q, at)
  }

  /** One frame through the queue: its delivery time, or None when it is dropped. */
  function Delay(p: Profile, g: Rng, q: Link, f: Frame, now: int): (Link, Option<int>) {
    var (q1, lost) := LossStep(p, g, q);
    if lost then (q1.(dropped := q1.dropped + [f]), None)
    else
      var (q2, at) := ShapeStep(p, g, q1, now);
      var (q3, due) := BandwidthStep(p, q2, f.payloadLen, at);
      (q3, Some(due))
  }

  // ---- the queue itself ----

  /** One session's downlink queue; its generator is an arbitrary stream of draws. */
  class Queue {
    const profile: Profile
    const rng: Rng
    var draws: nat
    var lastDelivery: int
    var bandwidthRemainder: int
    var dropped: seq<Frame>
    var hasLast: bool
    var burstBad: bool

    ghost function State(): Link
      reads this
    {
      Link(lastDelivery, hasLast, bandwidthRemainder, burstBad, dropped, draws)
    }

    constructor (profile: Profile, rng: Rng)
      ensures this.profile == profile && this.rng == rng && State() == FRESH_LINK
    {
      this.profile, this.rng := profile, rng;
      draws, lastDelivery, bandwidthRemainder, dropped, hasLast, burstBad := 0, 0, 0, [], false, false;
    }

    method Float64() returns (x: real)
      modifies this`draws
      ensures draws == old(draws) + 1 && x == rng.float(old(draws))
    {
      x := rng.float(draws);
      draws := draws + 1;
    }

    method Intn(n: nat) returns (x: nat)
      modifies this`draws
      ensures draws == old(draws) + 1 && x == rng.intn(old(draws), n)
    {
      x := rng.intn(draws, n);
      draws := draws + 1;
    }

    /** burstLossDrop (internal/impair/impair.go:196-212). */
    method BurstLossDrop() returns (lost: bool)
      modifies this`draws, this`burstBad
      ensures (State(), lost) == BurstStep(profile, rng, old(State()))
    {
      var lossProb := profile.lossProb;
      if burstBad {
        lossProb := 1.0;
      }
      var x := Float64();
      lost := x < lossProb;
      var y := Float64();
      if burstBad {
        if y < profile.burstToGood {
          burstBad := false;
        }
      } else if y < profile.burstToBad {
        burstBad := true;
      }
    }

    /** Step (1) of Delay. */
    method Loses() returns (lost: bool)
      modifies this`draws, this`burstBad
      ensures (State(), lost) == LossStep(profile, rng, old(State()))
    {
      lost := false;
      if profile.BurstLossEnabled() {
        lost := BurstLossDrop();
      } else if profile.lossProb > 0.0 {
        var x := Float64();
        lost := x < profile.lossProb;
      }
    }

    /** Steps (2) and (3) of Delay. */
    method Shapes(sendNow: int) returns (deliverAt: int)
      requires profile.jitterMs >= 0
      modifies this`draws
      ensures (State(), deliverAt) == ShapeStep(profile, rng, old(State()), sendNow)
    {
      deliverAt := sendNow + profile.addedLatencyMs;
      if profile.jitterMs > 0 {
        var x := Intn(2 * profile.jitterMs + 1);
        deliverAt := deliverAt + x;
      }
      if deliverAt < sendNow {
        deliverAt := sendNow;
      }
      if profile.reorderProb > 0.0 {
        var y := Float64();
        if y < profile.reorderProb {
          var extra := profile.reorderDelayMs;
          if extra == 0 {
            extra := DEFAULT_REORDER_DELAY_MS;
          }
          deliverAt := deliverAt + extra;
        }
      }
      if deliverAt < sendNow {
        deliverAt := sendNow;
      }
    }

    /** Delay (internal/impair/impair.go:113-188): the delivery time, or None for a dropped frame, and what is
        remembered. */
    method DelayFrame(f: Frame, sendNow: int) returns (deliverAt: Option<int>)
      requires profile.jitterMs >= 0
      modifies this
      ensures (State(), deliverAt) == Delay(profile, rng, old(State()), f, sendNow)
    {
      var lost := Loses();
      if lost {
        dropped := dropped + [f];
        return None;
      }
      var at := Shapes(sendNow);
      if profile.bandwidthBps > 0 {
        bandwidthRemainder := bandwidthRemainder + f.payloadLen * 8;
        var delayMs := Quot(bandwidthRemainder * 1000, profile.bandwidthBps);
        bandwidthRemainder := bandwidthRemainder - Quot(delayMs * profile.bandwidthBps, 1000);
        var start := at;
        if hasLast && lastDelivery > start {
          start := lastDelivery;
        }
        at := start + delayMs;
        lastDelivery := at;
        hasLast := true;
      }
      deliverAt := Some(at);
    }

    method Dropped() returns (frames: seq<Frame>)
      ensures frames == dropped
    {
      frames := dropped;
    }
  }
}
