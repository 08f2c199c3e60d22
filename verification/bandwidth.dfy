/** The bandwidth limit of the downlink queue (internal/impair/impair.go:167-185): whole milliseconds are charged,
    bits are carried, and over any stretch of traffic the two agree up to rounding. */
module BandwidthBound {
  import opened Audio
  import opened Basics
  import opened Impair

  /** A delivered frame on a limited link: its size, when it began to serialize, and when it was through. */
  datatype Served = Served(bytes: int, start: int, due: int)

  /** When a frame ready at `at` begins: behind the previous one. */
  function StartsAt(q: Link, at: int): int {
    if q.hasLast && q.lastDelivery > at then q.lastDelivery else at
  }

  /** What Delay did with the frame, if it kept it. */
  function ServedBy(p: Profile, g: Rng, q: Link, f: Frame, now: int): Option<Served> {
    match Delay(p, g, q, f, now).1
    case None => None
    case Some(due) =>
      var at := ShapeStep(p, g, LossStep(p, g, q).0, now).1;
      Some(Served(f.payloadLen, StartsAt(q, at), due))
  }

  /** Frames fs sent at times nows through the queue, one after the other. */
  function Stretch(p: Profile, g: Rng, q: Link, fs: seq<Frame>, nows: seq<int>): (Link, seq<Served>)
    requires |fs| == |nows|
  {
    if fs == [] then (q, [])
    else
      var n := |fs| - 1;
      var (q1, ss) := Stretch(p, g, q, fs[..n], nows[..n]);
      var s := ServedBy(p, g, q1, fs[n], nows[n]);
      (Delay(p, g, q1, fs[n], nows[n]).0, if s.Some? then ss + [s.value] else ss)
  }

  /** Bits delivered. */
  function Bits(ss: seq<Served>): int {
    if ss == [] then 0 else Bits(ss[..|ss| - 1]) + 8 * ss[|ss| - 1].bytes
  }

  /** Milliseconds charged. */
  function Busy(ss: seq<Served>): int {
    if ss == [] then 0 else Busy(ss[..|ss| - 1]) + (ss[|ss| - 1].due - ss[|ss| - 1].start)
  }

  /** The carry any queue of bps bits per second can hold: less than one millisecond's worth and a rounding error. */
  ghost predicate CarryOk(bps: int, remainder: int) {
    0 <= 1000 * remainder <= bps + 998
  }

  lemma FloorBounds(x: int, b: int)
    requires b > 0
    ensures b * (x / b) <= x < b * (x / b) + b
  {}

  lemma ChargeFloor(bits: int, bps: int)
    requires bits >= 0 && bps > 0
    ensures var d := ChargeMs(bits, bps); d >= 0 && d * bps == bps * d >= 0 && bps * d <= 1000 * bits < bps * d + bps
  {
    FloorBounds(bits * 1000, bps);
    ScaleUp(bps, 0, ChargeMs(bits, bps));
  }

  /** One charge: e is what dividing by 1000 threw away. */
  lemma ChargeStep(bits: int, bps: int) returns (e: int)
    requires bits >= 0 && bps > 0
    ensures var d := ChargeMs(bits, bps);
            && 0 <= e <= 999 && d >= 0
            && 1000 * CarryBits(bits, bps) == 1000 * bits - bps * d + e
            && 0 <= 1000 * bits - bps * d < bps
            && CarryOk(bps, CarryBits(bits, bps))
            && (bps % 1000 == 0 ==> e == 0)
  {
    var d := ChargeMs(bits, bps);
    ChargeFloor(bits, bps);
    if bps % 1000 == 0 {
      ThousandfoldProduct(d, bps);
    }
    e := Rounding(bits, bps, bps * d);
  }

  lemma Rounding(bits: int, bps: int, charged: int) returns (e: int)
    requires charged >= 0 && 0 <= 1000 * bits - charged < bps
    ensures 0 <= e <= 999 && 1000 * (bits - Quot(charged, 1000)) == 1000 * bits - charged + e
    ensures CarryOk(bps, bits - Quot(charged, 1000)) && e == charged % 1000
  {
    e := charged % 1000;
  }

  lemma ThousandfoldProduct(d: int, bps: int)
    requires bps % 1000 == 0
    ensures bps * d % 1000 == 0
  {
    var k := bps / 1000;
    var kd := k * d;
    assert bps * d == 1000 * kd by {
      assert bps == 1000 * k;
    }
  }

  /** One call of Delay on a limited link charges its frame and carries the rest. */
  lemma DelayCharges(p: Profile, g: Rng, q: Link, f: Frame, now: int)
    requires p.bandwidthBps > 0
    ensures var (q', due) := Delay(p, g, q, f, now);
            var s := ServedBy(p, g, q, f, now);
            if s.None? then q'.remainder == q.remainder && q'.lastDelivery == q.lastDelivery && q'.hasLast == q.hasLast
            else
              var bits := q.remainder + 8 * f.payloadLen;
              && s.value.bytes == f.payloadLen && s.value.due == s.value.start + ChargeMs(bits, p.bandwidthBps)
              && q'.remainder == CarryBits(bits, p.bandwidthBps)
              && q'.hasLast && q'.lastDelivery == s.value.due
              && (q.hasLast ==> s.value.start >= q.lastDelivery)
  {}

  /** After n frames of s bits, charged p thousandths of a bit: the carry went from r0 to r, and they differ by that
      and by a rounding a frame, none at all on a link of whole kilobits per second. */
  ghost predicate Fair(b: int, r0: int, r: int, p: int, s: int, n: nat) {
    var over := p - 1000 * s - 1000 * r0 + 1000 * r;
    && CarryOk(b, r) && 0 <= over <= 999 * n
    && (b % 1000 == 0 ==> over == 0)
    && (b % 1000 == 0 && 1000 * r0 < b ==> 1000 * r < b)
  }

  lemma FairStep(b: int, r0: int, r1: int, p1: int, s1: int, n: nat, bytes: int, pd: int, r2: int, e: int)
    requires Fair(b, r0, r1, p1, s1, n) && 0 <= e <= 999 && (b % 1000 == 0 ==> e == 0)
    requires 1000 * r2 == 1000 * (r1 + 8 * bytes) - pd + e && 0 <= 1000 * (r1 + 8 * bytes) - pd < b && CarryOk(b, r2)
    ensures Fair(b, r0, r2, p1 + pd, s1 + 8 * bytes, n + 1)
  {}

  lemma FairNext(b: int, r0: int, r1: int, ss: seq<Served>, s: Served)
    requires b > 0 && s.bytes >= 0 && Fair(b, r0, r1, b * Busy(ss), Bits(ss), |ss|) && Busy(ss) >= 0
    requires s.due == s.start + ChargeMs(r1 + 8 * s.bytes, b)
    ensures Fair(b, r0, CarryBits(r1 + 8 * s.bytes, b), b * Busy(ss + [s]), Bits(ss + [s]), |ss| + 1)
            && Busy(ss + [s]) >= 0
  {
    var e := ChargeStep(r1 + 8 * s.bytes, b);
    var d := s.due - s.start;
    FairStep(b, r0, r1, b * Busy(ss), Bits(ss), |ss|, s.bytes, b * d, CarryBits(r1 + 8 * s.bytes, b), e);
    assert (ss + [s])[..|ss|] == ss;
    Distribute(b, Busy(ss), d);
  }

  lemma {:induction false} StretchIsFair(p: Profile, g: Rng, q: Link, fs: seq<Frame>, nows: seq<int>)
    requires p.bandwidthBps > 0 && |fs| == |nows| && CarryOk(p.bandwidthBps, q.remainder)
    requires forall f | f in fs :: f.payloadLen >= 0
    ensures var (q', ss) := Stretch(p, g, q, fs, nows);
            Fair(p.bandwidthBps, q.remainder, q'.remainder, p.bandwidthBps * Busy(ss), Bits(ss), |ss|) && Busy(ss) >= 0
  {
    if fs != [] {
      var n := |fs| - 1;
      var (q1, ss) := Stretch(p, g, q, fs[..n], nows[..n]);
      StretchIsFair(p, g, q, fs[..n], nows[..n]);
      DelayCharges(p, g, q1, fs[n], nows[n]);
      assert fs[n].payloadLen >= 0;
      var s := ServedBy(p, g, q1, fs[n], nows[n]);
      if s.Some? {
        FairNext(p.bandwidthBps, q.remainder, q1.remainder, ss, s.value);
      }
    }
  }

  /** Over any stretch of traffic, from any reachable carry, n delivered frames of S bits in all are charged D
      milliseconds with b*D between 1000*S minus one carry and 1000*S plus n roundings and the initial carry. */
  lemma ChargedFairly(p: Profile, g: Rng, q: Link, fs: seq<Frame>, nows: seq<int>)
    requires p.bandwidthBps > 0 && |fs| == |nows| && CarryOk(p.bandwidthBps, q.remainder)
    requires forall f | f in fs :: f.payloadLen >= 0
    ensures var (q', ss) := Stretch(p, g, q, fs, nows);
            var b, d, s := p.bandwidthBps, Busy(ss), Bits(ss);
            && CarryOk(b, q'.remainder) && d >= 0
            && 1000 * s - (b + 998) <= b * d <= 1000 * s + 999 * |ss| + 1000 * q.remainder
            && 0 <= b * d - 1000 * s - 1000 * q.remainder + 1000 * q'.remainder <= 999 * |ss|
            && (b % 1000 == 0 ==> b * d - 1000 * s - 1000 * q.remainder + 1000 * q'.remainder == 0)
            && (b % 1000 == 0 && 1000 * q.remainder < b ==> 1000 * q'.remainder < b)
  {
    StretchIsFair(p, g, q, fs, nows);
  }

  lemma Distribute(b: int, x: int, y: int)
    ensures b * (x + y) == b * x + b * y
  {}

  /** On a link of whole kilobits per second, frames from a fresh queue are charged exactly the floor of their
      serialization time. */
  lemma ChargedExactly(p: Profile, g: Rng, fs: seq<Frame>, nows: seq<int>)
    requires p.bandwidthBps > 0 && p.bandwidthBps % 1000 == 0 && |fs| == |nows|
    requires forall f | f in fs :: f.payloadLen >= 0
    ensures var ss := Stretch(p, g, FRESH_LINK, fs, nows).1;
            Busy(ss) == 1000 * Bits(ss) / p.bandwidthBps
  {
    ChargedFairly(p, g, FRESH_LINK, fs, nows);
    var (q', ss) := Stretch(p, g, FRESH_LINK, fs, nows);
    FloorIs(1000 * Bits(ss), p.bandwidthBps, Busy(ss), 1000 * q'.remainder);
  }

  lemma SmallMultiple(b: int, n: int)
    requires b > 0 && -b < b * n < b
    ensures n == 0
  {
    if n >= 1 {
      ScaleUp(b, 1, n);
    } else if n <= -1 {
      ScaleUp(b, n, -1);
    }
  }

  // ---- the link never outruns its bandwidth ----

  /** Frames are served one at a time, in send order, and what they take is charged between the first start and the
      last delivery. */
  lemma {:induction false} ServedInTurn(p: Profile, g: Rng, q: Link, fs: seq<Frame>, nows: seq<int>)
    requires p.bandwidthBps > 0 && |fs| == |nows|
    ensures var (q', ss) := Stretch(p, g, q, fs, nows);
            && (ss != [] ==> q'.hasLast && q'.lastDelivery == ss[|ss| - 1].due
                             && Busy(ss) <= ss[|ss| - 1].due - ss[0].start)
            && (forall k | 0 <= k < |ss| - 1 :: ss[k + 1].start >= ss[k].due)
  {
    if fs != [] {
      var n := |fs| - 1;
      var (q1, ss) := Stretch(p, g, q, fs[..n], nows[..n]);
      ServedInTurn(p, g, q, fs[..n], nows[..n]);
      DelayCharges(p, g, q1, fs[n], nows[n]);
      var s := ServedBy(p, g, q1, fs[n], nows[n]);
      if s.Some? {
        assert (ss + [s.value])[..|ss|] == ss;
      }
    }
  }

  /** Rate limit: in any window, from the start of its first frame to the delivery of its last, the link carries at
      most its bandwidth, one millisecond's worth and a rounding error aside. */
  lemma RateLimited(p: Profile, g: Rng, q: Link, fs: seq<Frame>, nows: seq<int>)
    requires p.bandwidthBps > 0 && |fs| == |nows| && CarryOk(p.bandwidthBps, q.remainder)
    requires forall f | f in fs :: f.payloadLen >= 0
    ensures var ss := Stretch(p, g, q, fs, nows).1;
            ss != [] ==> 1000 * Bits(ss) <= p.bandwidthBps * (ss[|ss| - 1].due - ss[0].start) + p.bandwidthBps + 998
  {
    ChargedFairly(p, g, q, fs, nows);
    ServedInTurn(p, g, q, fs, nows);
    var ss := Stretch(p, g, q, fs, nows).1;
    if ss != [] {
      ScaleUp(p.bandwidthBps, Busy(ss), ss[|ss| - 1].due - ss[0].start);
    }
  }

  lemma ScaleUp(b: int, x: int, y: int)
    requires b > 0 && x <= y
    ensures b * x <= b * y
  {
    assert b * (y - x) >= 0;
  }

  // ---- frame sizes that make no sense ----

  function Zeros(n: nat): seq<int> { seq(n, _ => 0) }

  predicate InOrder(ss: seq<Served>) {
    forall j, k | 0 <= j < k < |ss| :: ss[j].due <= ss[k].due
  }

  /** Control frames and frames of the given size are delivered in the order they were sent, whenever that was. */
  ghost predicate KeepsOrder(p: Profile, g: Rng, bytes: int) {
    forall fs: seq<Frame>, nows: seq<int> | |fs| == |nows| && (forall f | f in fs :: f.payloadLen in {0, bytes}) ::
      InOrder(Stretch(p, g, FRESH_LINK, fs, nows).1)
  }

  /** No frame is lost, and each takes the added latency. */
  predicate Steady(p: Profile) {
    p.Lossless() && p.jitterMs == 0 && p.reorderProb <= 0.0 && p.addedLatencyMs >= 0
  }

  lemma {:induction false} SizedInOrder(p: Profile, g: Rng, fs: seq<Frame>, nows: seq<int>)
    requires p.bandwidthBps > 0 && |fs| == |nows| && forall f | f in fs :: f.payloadLen >= 0
    ensures var (q, ss) := Stretch(p, g, FRESH_LINK, fs, nows);
            && q.remainder >= 0 && InOrder(ss)
            && (ss != [] ==> q.hasLast && q.lastDelivery == ss[|ss| - 1].due)
  {
    if fs != [] {
      var n := |fs| - 1;
      SizedInOrder(p, g, fs[..n], nows[..n]);
      var q := Stretch(p, g, FRESH_LINK, fs[..n], nows[..n]).0;
      DelayCharges(p, g, q, fs[n], nows[n]);
      assert fs[n].payloadLen >= 0;
      var e := ChargeStep(q.remainder + 8 * fs[n].payloadLen, p.bandwidthBps);
    }
  }

  /** A TurnStart and k frames of the given size. */
  function Opening(bytes: int, k: nat): seq<Frame> {
    seq(k + 1, j requires 0 <= j =>
      if j == 0 then Frame(0, 0, 0, TurnStart, 0) else Frame(j, 0, DEFAULT_FRAME_MS, AgentAudio, bytes))
  }

  /** A debt too small for a millisecond is only carried. */
  lemma SmallDebt(bits: int, bps: int)
    requires bps > 0 && bits <= 0 && 1000 * (-bits) < bps
    ensures ChargeMs(bits, bps) == 0 && CarryBits(bits, bps) == bits
  {
    if bits < 0 { FloorIs(-(bits * 1000), bps, 0, -(bits * 1000)); }
  }

  lemma LargeDebt(bits: int, bps: int)
    requires bps > 0 && bits < 0 && 1000 * (-bits) >= bps
    ensures ChargeMs(bits, bps) < 0
  {
    var x := -(bits * 1000);
    var c := x / bps;
    assert x == bps * c + x % bps;
    if c <= 0 {
      ScaleUp(bps, c, 0);
    }
  }

  lemma SteadyDelay(p: Profile, g: Rng, q: Link, f: Frame)
    requires Steady(p) && p.bandwidthBps > 0 && (q.hasLast ==> q.lastDelivery == p.addedLatencyMs)
    ensures var bits := q.remainder + 8 * f.payloadLen;
            var s := Served(f.payloadLen, p.addedLatencyMs, p.addedLatencyMs + ChargeMs(bits, p.bandwidthBps));
            && ServedBy(p, g, q, f, 0) == Some(s)
            && Delay(p, g, q, f, 0).0.remainder == CarryBits(bits, p.bandwidthBps)
            && Delay(p, g, q, f, 0).0.lastDelivery == s.due
  {}

  /** Frames of a negative size earn time on account, as long as it is less than a millisecond. */
  lemma {:induction false} DebtGrows(p: Profile, g: Rng, bytes: int, k: nat)
    requires Steady(p) && p.bandwidthBps > 0 && bytes < 0 && -8000 * (k * bytes) < p.bandwidthBps
    ensures var (q, ss) := Stretch(p, g, FRESH_LINK, Opening(bytes, k), Zeros(k + 1));
            q.remainder == 8 * (k * bytes) && q.lastDelivery == p.addedLatencyMs && |ss| == k + 1
              && ss[0].due == p.addedLatencyMs
  {
    var fs, nows := Opening(bytes, k), Zeros(k + 1);
    var q := Stretch(p, g, FRESH_LINK, fs[..k], nows[..k]).0;
    if k > 0 {
      assert fs[..k] == Opening(bytes, k - 1) && nows[..k] == Zeros(k);
      assert k * bytes == (k - 1) * bytes + bytes;
      DebtGrows(p, g, bytes, k - 1);
    }
    assert k * bytes <= 0;
    SteadyDelay(p, g, q, fs[k]);
    assert q.remainder + 8 * fs[k].payloadLen == 8 * (k * bytes);
    SmallDebt(8 * (k * bytes), p.bandwidthBps);
  }

  lemma FramesToMillisecond(bps: int, bytes: int) returns (k: nat)
    requires bps > 0 && bytes < 0
    ensures -8000 * (k * bytes) < bps <= -8000 * (k * bytes + bytes)
  {
    var unit := -8000 * bytes;
    var n := (bps - 1) / unit;
    assert bps - 1 == unit * n + (bps - 1) % unit;
    if n < 0 { ScaleUp(unit, n, -1); }
    k := n;
    assert unit * n == -8000 * (n * bytes);
  }

  /** The frame that turns the account into a millisecond overtakes the TurnStart. */
  lemma DebtOvertakes(p: Profile, g: Rng, bytes: int)
    requires Steady(p) && p.bandwidthBps > 0 && bytes < 0
    ensures !KeepsOrder(p, g, bytes)
  {
    var k := FramesToMillisecond(p.bandwidthBps, bytes);
    DebtGrows(p, g, bytes, k);
    var fs, nows := Opening(bytes, k + 1), Zeros(k + 2);
    assert fs[..k + 1] == Opening(bytes, k) && nows[..k + 1] == Zeros(k + 1);
    var q := Stretch(p, g, FRESH_LINK, fs[..k + 1], nows[..k + 1]).0;
    SteadyDelay(p, g, q, fs[k + 1]);
    LargeDebt(q.remainder + 8 * bytes, p.bandwidthBps);
    var ss := Stretch(p, g, FRESH_LINK, fs, nows).1;
    assert ss[0].due > ss[k + 1].due;
    assert !InOrder(ss);
  }

  /** A limited link keeps frames in order when their size is not negative; when it is, no steady link does. */
  lemma OrderNeedsSizes(p: Profile, g: Rng, bytes: int)
    requires p.bandwidthBps > 0
    ensures bytes >= 0 ==> KeepsOrder(p, g, bytes)
    ensures Steady(p) ==> (KeepsOrder(p, g, bytes) <==> bytes >= 0)
  {
    if bytes >= 0 {
      forall fs: seq<Frame>, nows: seq<int> | |fs| == |nows| && (forall f | f in fs :: f.payloadLen in {0, bytes})
        ensures InOrder(Stretch(p, g, FRESH_LINK, fs, nows).1)
      {
        SizedInOrder(p, g, fs, nows);
      }
    } else if Steady(p) {
      DebtOvertakes(p, g, bytes);
    }
  }
}
