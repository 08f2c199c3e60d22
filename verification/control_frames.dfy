/** What a bandwidth limit charges for frames of no bytes (internal/impair/impair.go:171-185): which links carry
    TurnStart and TurnEnd for free, decided by the bandwidth alone. */
module ControlFrames {
  import opened Audio
  import opened Basics
  import opened Impair
  import opened BandwidthBound

  // ---- common divisors ----

  function Gcd(a: nat, b: nat): (g: nat)
    ensures a > 0 || b > 0 ==> g > 0
    decreases b
  {
    if b == 0 then a else Gcd(b, a % b)
  }

  predicate Divides(d: int, x: int)
    requires d != 0
  {
    x % d == 0
  }

  lemma Multiple(d: int, k: int)
    requires d > 0
    ensures Divides(d, d * k)
  {
    var q, r := d * k / d, d * k % d;
    assert d * (k - q) == r by { Distribute(d, k, -q); }
    SmallMultiple(d, k - q);
  }

  lemma DividesCombination(d: int, x: int, u: int, y: int, v: int)
    requires d > 0 && Divides(d, x) && Divides(d, y)
    ensures Divides(d, x * u + y * v)
  {
    var s, t := x / d, y / d;
    assert x == d * s && y == d * t;
    assert x * u + y * v == d * (s * u + t * v);
    Multiple(d, s * u + t * v);
  }

  lemma {:induction false} GcdDivides(a: nat, b: nat)
    requires a > 0
    ensures Gcd(a, b) > 0 && Divides(Gcd(a, b), a) && Divides(Gcd(a, b), b)
    decreases b
  {
    if b == 0 {
      Multiple(a, 1);
      Multiple(a, 0);
    } else {
      var g := Gcd(b, a % b);
      GcdDivides(b, a % b);
      assert a == b * (a / b) + a % b * 1;
      DividesCombination(g, b, a / b, a % b, 1);
    }
  }

  lemma {:induction false} Bezout(a: nat, b: nat) returns (x: int, y: int)
    ensures a * x + b * y == Gcd(a, b)
    decreases b
  {
    if b == 0 {
      x, y := 1, 0;
    } else {
      var u, v := Bezout(b, a % b);
      x, y := v, u - a / b * v;
      var q, r := a / b, a % b;
      assert a * v + b * (u - q * v) == b * u + (a - b * q) * v;
      assert a - b * q == r;
    }
  }

  // ---- which links charge for nothing ----

  /** What can be left over of a millisecond: x thousandths of a bit, more than none and less than what the last
      millisecond of a second is short of. */
  predicate LeftOver(bps: nat, x: int)
    requires bps > 0
  {
    0 < x < bps && Divides(Gcd(8000, bps), x) && 0 < x % 1000 < bps % 1000
  }

  /** The link can come to charge for a frame of no bytes. */
  predicate ChargesControl(bps: nat)
    requires bps > 0
  {
    exists x | 0 < x < bps :: LeftOver(bps, x)
  }

  predicate NonNegative(fs: seq<Frame>) { forall f | f in fs :: f.payloadLen >= 0 }

  predicate ZeroBytesFree(ss: seq<Served>) { forall s | s in ss && s.bytes == 0 :: s.due == s.start }

  /** No traffic from a fresh queue makes the link charge for a frame of no bytes. */
  ghost predicate FreeOn(p: Profile, g: Rng) {
    forall fs, nows | |fs| == |nows| && NonNegative(fs) :: ZeroBytesFree(Stretch(p, g, FRESH_LINK, fs, nows).1)
  }

  /** A zero-byte frame is charged nothing exactly when less than a millisecond's worth of bits is owed. */
  lemma FreeIfLittleIsOwed(bits: int, bps: int)
    requires bps > 0 && bits >= 0
    ensures ChargeMs(bits, bps) == 0 <==> 1000 * bits < bps
  {
    var e := ChargeStep(bits, bps);
    var d := ChargeMs(bits, bps);
    if d >= 1 { assert bps * d >= bps by { ScaleUp(bps, 1, d); } }
  }

  // ---- free links ----

  /** A carry of a millisecond's worth comes from less of a millisecond than the bandwidth has left over. */
  lemma LargeCarry(bps: nat, owed: nat, m: nat, carry: int, e: nat) returns (j: int)
    requires m < bps && 1000 * owed < bps <= 1000 * carry && m + e == 1000 * carry && e <= 999
    requires bps % 1000 == 0 ==> e == 0
    ensures j == bps - m && 0 < 1000 * owed + j < bps && 0 < (1000 * owed + j) % 1000 < bps % 1000
  {
    j := bps - m;
    assert 0 < j < bps % 1000;
    assert (1000 * owed + j) % 1000 == j;
  }

  /** A carry of less than a millisecond's worth stays below it. */
  lemma CarryStaysSmall(bps: nat, owed: nat, bytes: nat)
    requires bps > 0 && 1000 * owed < bps && !ChargesControl(bps)
    ensures 0 <= 1000 * CarryBits(owed + 8 * bytes, bps) < bps
  {
    var bits := owed + 8 * bytes;
    var e := ChargeStep(bits, bps);
    var d, carry := ChargeMs(bits, bps), CarryBits(bits, bps);
    if 1000 * carry >= bps {
      var j := LargeCarry(bps, owed, 1000 * bits - bps * d, carry, e);
      OwesLeftOver(bps, owed, bytes, d, j);
      assert LeftOver(bps, 1000 * owed + j);
    }
  }

  lemma OwesLeftOver(bps: nat, owed: nat, bytes: nat, d: int, j: int)
    requires bps > 0 && j == bps - (1000 * (owed + 8 * bytes) - bps * d)
    ensures Divides(Gcd(8000, bps), 1000 * owed + j)
  {
    GcdDivides(8000, bps);
    var paid := 0 - bytes;
    DividesCombination(Gcd(8000, bps), 8000, paid, bps, 1 + d);
    assert 8000 * paid + bps * (1 + d) == 1000 * owed + j by { Distribute(bps, 1, d); }
  }

  lemma {:induction false} StretchStaysFree(p: Profile, g: Rng, fs: seq<Frame>, nows: seq<int>)
    requires p.bandwidthBps > 0 && !ChargesControl(p.bandwidthBps) && |fs| == |nows| && NonNegative(fs)
    ensures var (q, ss) := Stretch(p, g, FRESH_LINK, fs, nows);
            0 <= 1000 * q.remainder < p.bandwidthBps && ZeroBytesFree(ss)
  {
    if fs != [] {
      var n := |fs| - 1;
      StretchStaysFree(p, g, fs[..n], nows[..n]);
      var (q1, ss) := Stretch(p, g, FRESH_LINK, fs[..n], nows[..n]);
      DelayCharges(p, g, q1, fs[n], nows[n]);
      assert fs[n].payloadLen >= 0;
      CarryStaysSmall(p.bandwidthBps, q1.remainder, fs[n].payloadLen);
      FreeIfLittleIsOwed(q1.remainder, p.bandwidthBps);
    }
  }

  // ---- links that charge ----

  /** What frames of whole bytes can move the carry by: g is 8000 x + bps y. */
  datatype Step = Step(g: int, x: int, y: int) {
    ghost predicate For(bps: nat) { g > 0 && 8000 * x + bps * y == g }
  }

  /** Eight thousand times some size is any multiple of the step, whole multiples of the bandwidth aside. */
  lemma SizeFor(bps: nat, d: Step, rest: int) returns (bytes: nat, u: int)
    requires bps > 0 && d.For(bps) && Divides(d.g, rest)
    ensures 8000 * bytes == rest - bps * u
  {
    var k := rest / d.g;
    bytes, u := d.x * k % bps, d.y * k + 8000 * (d.x * k / bps);
    SolvedBy(bps, d.g, d.x, d.y, k, d.x * k / bps, bytes);
  }

  lemma SolvedBy(bps: nat, g: int, x: int, y: int, k: int, t: int, bytes: int)
    requires 8000 * x + bps * y == g && x * k == bps * t + bytes
    ensures 8000 * bytes == g * k - bps * (y * k + 8000 * t)
  {
    assert (8000 * x + bps * y) * k == 8000 * (x * k) + bps * (y * k);
    assert bps * (y * k + 8000 * t) == bps * (y * k) + 8000 * (bps * t);
  }

  lemma CarryLeaves(bps: nat, bits: nat, m: nat, u: int)
    requires bps > 0 && m < bps && 1000 * bits == m - bps * u
    ensures m <= 1000 * CarryBits(bits, bps) <= m + 999
  {
    var e := ChargeStep(bits, bps);
    var d := ChargeMs(bits, bps);
    Distribute(bps, u, d);
    SmallMultiple(bps, u + d);
  }

  /** A frame that leaves m thousandths of a bit unpaid. */
  lemma FrameLeaving(bps: nat, d: Step, owed: nat, m: nat) returns (bytes: nat)
    requires bps > 0 && m < bps && d.For(bps) && Divides(d.g, m - 1000 * owed)
    ensures m <= 1000 * CarryBits(owed + 8 * bytes, bps) <= m + 999
  {
    var u;
    bytes, u := SizeFor(bps, d, m - 1000 * owed);
    CarryLeaves(bps, owed + 8 * bytes, m, u);
  }

  /** The carry after frames of these sizes. */
  function Owed(bps: nat, sizes: seq<nat>): int
    requires bps > 0
  {
    if sizes == [] then 0
    else CarryBits(Owed(bps, sizes[..|sizes| - 1]) + 8 * sizes[|sizes| - 1], bps)
  }

  /** One more frame, leaving m thousandths of a bit unpaid. */
  lemma OweNext(bps: nat, d: Step, sizes: seq<nat>, owed: nat, m: nat) returns (more: seq<nat>)
    requires bps > 0 && m < bps && Owed(bps, sizes) == owed && d.For(bps) && Divides(d.g, m - 1000 * owed)
    ensures m <= 1000 * Owed(bps, more) <= m + 999
  {
    var bytes := FrameLeaving(bps, d, owed, m);
    more := sizes + [bytes];
    assert more[..|sizes|] == sizes;
  }

  lemma RoundsUp(bps: nat, m: nat, owed: int)
    requires bps - bps % 1000 < m <= 1000 * owed
    ensures 1000 * owed >= bps
  {
    var q := bps / 1000;
    assert owed >= q + 1;
  }

  /** From the right carry one more frame can owe a millisecond's worth. */
  lemma OweMillisecond(bps: nat, d: Step, sizes: seq<nat>, owed: nat, m: nat) returns (more: seq<nat>)
    requires bps > 0 && Owed(bps, sizes) == owed && bps - bps % 1000 < m < bps
    requires d.For(bps) && Divides(d.g, m - 1000 * owed)
    ensures 1000 * Owed(bps, more) >= bps
  {
    more := OweNext(bps, d, sizes, owed, m);
    RoundsUp(bps, m, Owed(bps, more));
  }

  lemma Below(k: int, g: int) returns (m: int)
    requires k >= 0 && 0 < g <= 1000
    ensures 0 <= m && 1000 * (k - 1) < m <= 1000 * k && Divides(g, m)
  {
    m := g * (1000 * k / g);
    Multiple(g, 1000 * k / g);
    assert 1000 * k == m + 1000 * k % g;
    if 1000 * k / g < 0 { ScaleUp(g, 1000 * k / g, -1); } else { ScaleUp(g, 0, 1000 * k / g); }
  }

  /** With small steps any small carry is one frame away, and from the right one the next frame leaves too much. */
  lemma TwoFramesOwe(bps: nat, d: Step, x: int) returns (sizes: seq<nat>)
    requires bps > 0 && d.For(bps) && d.g <= 1000 && Divides(d.g, bps) && Divides(d.g, x)
    requires 0 < x < bps && 0 < x % 1000 < bps % 1000
    ensures 1000 * Owed(bps, sizes) >= bps
  {
    var owed := x / 1000;
    var m := Below(owed, d.g);
    var first := OweNext(bps, d, [], 0, m);
    assert Owed(bps, first) == owed;
    DividesCombination(d.g, bps, 1, x, -1);
    sizes := OweMillisecond(bps, d, first, owed, bps - x % 1000);
  }

  lemma LargeDivisor(g: int)
    requires g > 1000 && Divides(g, 8000)
    ensures g in {1600, 2000, 4000, 8000}
  {
    var v := 8000 / g;
    assert 8000 == g * v;
    if v >= 8 { ScaleUp(g, 8, v); }
    if v <= 0 { ScaleUp(g, v, 0); }
    assert 1 <= v <= 7;
  }

  lemma Thousandfold(x: int, k: int)
    requires x == 1000 * k
    ensures x % 1000 == 0
  {}

  lemma TwoHundreds(x: int)
    requires x % 1600 == 0 && x % 1000 > 0
    ensures x % 1000 >= 200
  {
    var k, t := x / 1600, x / 1000;
    assert x % 1000 == 200 * (8 * k - 5 * t);
  }

  lemma Sixteenhundreds(bps: nat, x: int)
    requires bps % 1600 == 0 && x % 1600 == 0 && 0 < x < bps && 0 < x % 1000 < bps % 1000
    ensures bps >= 4800 && bps % 1000 > 200 && (bps - 200 - 3000) % 1600 == 0
  {
    TwoHundreds(x);
    var n := bps / 1600;
    assert bps == 1600 * n && bps - 3200 == 1600 * (n - 2);
  }

  lemma LargeLeftOver(bps: nat, g: int, x: int)
    requires g > 1000 && Divides(g, 8000) && Divides(g, bps) && Divides(g, x) && 0 < x < bps
             && 0 < x % 1000 < bps % 1000
    ensures g == 1600 && bps >= 4800 && bps % 1000 > 200 && (bps - 200 - 3000) % 1600 == 0
  {
    LargeDivisor(g);
    if g == 2000 {
      Thousandfold(bps, 2 * (bps / 2000));
    } else if g == 4000 {
      Thousandfold(bps, 4 * (bps / 4000));
    } else if g == 8000 {
      Thousandfold(bps, 8 * (bps / 8000));
    }
    Sixteenhundreds(bps, x);
  }

  /** With steps of 1600 a carry of three is two frames away. */
  lemma ThreeFramesOwe(bps: nat, d: Step) returns (sizes: seq<nat>)
    requires d.g == 1600 && d.For(bps) && bps >= 4800 && bps % 1000 > 200 && (bps - 200 - 3000) % 1600 == 0
    ensures 1000 * Owed(bps, sizes) >= bps
  {
    assert Divides(1600, 3200) && Divides(1600, 2400 - 4000) && Divides(1600, bps - 200 - 3000);
    var first := OweNext(bps, d, [], 0, 3200);
    var second := OweNext(bps, d, first, 4, 2400);
    sizes := OweMillisecond(bps, d, second, 3, bps - 200);
  }

  /** Where something can be left over, some frames owe a millisecond's worth. */
  lemma FramesOwe(bps: nat, x: int) returns (sizes: seq<nat>)
    requires bps > 0 && LeftOver(bps, x)
    ensures 1000 * Owed(bps, sizes) >= bps
  {
    var g := Gcd(8000, bps);
    var u, v := Bezout(8000, bps);
    GcdDivides(8000, bps);
    if g <= 1000 {
      sizes := TwoFramesOwe(bps, Step(g, u, v), x);
    } else {
      LargeLeftOver(bps, g, x);
      sizes := ThreeFramesOwe(bps, Step(g, u, v));
    }
  }

  function Sized(sizes: seq<nat>): seq<Frame> {
    seq(|sizes|, k requires 0 <= k < |sizes| => Frame(k, 0, DEFAULT_FRAME_MS, AgentAudio, sizes[k]))
  }

  /** A lossless link keeps every frame, and owes what their sizes say. */
  lemma {:induction false} StretchOwes(p: Profile, g: Rng, sizes: seq<nat>)
    requires p.bandwidthBps > 0 && p.Lossless()
    ensures Stretch(p, g, FRESH_LINK, Sized(sizes), Zeros(|sizes|)).0.remainder == Owed(p.bandwidthBps, sizes)
  {
    if sizes != [] {
      var n := |sizes| - 1;
      StretchOwes(p, g, sizes[..n]);
      assert Sized(sizes)[..n] == Sized(sizes[..n]) && Zeros(n + 1)[..n] == Zeros(n);
      var q := Stretch(p, g, FRESH_LINK, Sized(sizes[..n]), Zeros(n)).0;
      DelayCharges(p, g, q, Sized(sizes)[n], 0);
    }
  }

  lemma StretchCharges(p: Profile, g: Rng, sizes: seq<nat>)
    requires p.bandwidthBps > 0 && p.Lossless() && 1000 * Owed(p.bandwidthBps, sizes) >= p.bandwidthBps
    ensures !FreeOn(p, g)
  {
    var n, all := |sizes|, sizes + [0];
    var fs, nows := Sized(all), Zeros(n + 1);
    StretchOwes(p, g, sizes);
    assert fs[..n] == Sized(sizes) && nows[..n] == Zeros(n);
    var (q, ss) := Stretch(p, g, FRESH_LINK, fs[..n], nows[..n]);
    DelayCharges(p, g, q, fs[n], 0);
    FreeIfLittleIsOwed(q.remainder, p.bandwidthBps);
    var s := ServedBy(p, g, q, fs[n], 0).value;
    assert s in Stretch(p, g, FRESH_LINK, fs, nows).1;
    assert !ZeroBytesFree(Stretch(p, g, FRESH_LINK, fs, nows).1);
  }

  /** Control frames are free on a limited link exactly when its bandwidth leaves nothing over: then whatever the
      profile, and otherwise on no lossless link. */
  lemma ControlIsFreeExactly(p: Profile, g: Rng)
    requires p.bandwidthBps > 0
    ensures !ChargesControl(p.bandwidthBps) ==> FreeOn(p, g)
    ensures p.Lossless() ==> (FreeOn(p, g) <==> !ChargesControl(p.bandwidthBps))
  {
    var bps := p.bandwidthBps;
    if !ChargesControl(bps) {
      forall fs, nows | |fs| == |nows| && NonNegative(fs)
        ensures ZeroBytesFree(Stretch(p, g, FRESH_LINK, fs, nows).1)
      {
        StretchStaysFree(p, g, fs, nows);
      }
    } else if p.Lossless() {
      var x :| 0 < x < bps && LeftOver(bps, x);
      var sizes := FramesOwe(bps, x);
      StretchCharges(p, g, sizes);
    }
  }

  // ---- the condition by the last millisecond ----

  /** What the last millisecond of a second is short of divides a thousand, or there is none. */
  predicate Round(bps: nat) {
    bps % 1000 == 0 || 1000 % (bps % 1000) == 0
  }

  /** Round bandwidths, whole kilobits among them, never charge for control frames. */
  lemma RoundIsFree(bps: nat)
    requires bps > 0 && Round(bps)
    ensures !ChargesControl(bps)
  {
    var r := bps % 1000;
    if r > 0 {
      GcdDivides(8000, bps);
      var u, v := Bezout(8000, bps);
      DividesCombination(r, 1000, 8, 1000, 0);
      DividesCombination(r, 1000, bps / 1000, r, 1);
      DividesCombination(r, 8000, u, bps, v);
      forall x | 0 < x < bps ensures !LeftOver(bps, x) {
        if LeftOver(bps, x) {
          RemainderDivides(r, Gcd(8000, bps), x);
        }
      }
    }
  }

  lemma RemainderDivides(r: int, g: int, x: int)
    requires 0 < r < 1000 && g > 0 && Divides(r, 1000) && Divides(r, g) && Divides(g, x)
    ensures !(0 < x % 1000 < r)
  {
    DividesCombination(r, g, x / g, g, 0);
    assert x == g * (x / g) + g * 0;
    DividesCombination(r, x, 1, 1000, -(x / 1000));
    assert x % 1000 == x * 1 + 1000 * (-(x / 1000));
  }

  lemma OddTimesOdd(a: int, b: int) returns (k: int)
    requires a % 2 == 1 && b % 2 == 1
    ensures a * b == 2 * k + 1
  {
    var s, t := a / 2, b / 2;
    k := 2 * (s * t) + s + t;
    assert (2 * s + 1) * (2 * t + 1) == 2 * k + 1;
  }

  lemma OddPart(x: int) returns (p: int, odd: int)
    requires x % 16 != 0
    ensures p in {1, 2, 4, 8} && x == p * odd && odd % 2 == 1 && (x % 8 != 0 ==> p != 8)
  {
    p := if x % 2 != 0 then 1 else if x % 4 != 0 then 2 else if x % 8 != 0 then 4 else 8;
    odd := if x % 2 != 0 then x else if x % 4 != 0 then x / 2 else if x % 8 != 0 then x / 4 else x / 8;
  }

  lemma Twos(p: int, q: int)
    requires p in {1, 2, 4, 8} && q in {1, 2, 4}
    ensures p * q in {1, 2, 4, 8, 16, 32}
  {
    if p == 1 {
    } else if p == 2 {
    } else if p == 4 {
    }
  }

  lemma TooFewTwos(p: int, a: int, q: int, b: int, g: int, v: int)
    requires p in {1, 2, 4, 8} && q in {1, 2, 4} && a % 2 == 1 && b % 2 == 1 && g == p * a && v == q * b
    ensures g * v != 8000
  {
    var k := OddTimesOdd(a, b);
    Twos(p, q);
    Regroup(p, a, q, b);
    OddMultiple(p * q, a * b);
  }

  lemma OddMultiple(c: int, n: int)
    requires c in {1, 2, 4, 8, 16, 32} && n % 2 == 1
    ensures c * n != 8000
  {
    if c == 1 {
    } else if c == 2 {
    } else if c == 4 {
    } else if c == 8 {
    } else if c == 16 {
    }
  }

  lemma Regroup(p: int, a: int, q: int, b: int)
    ensures (p * a) * (q * b) == (p * q) * (a * b)
  {}

  lemma NotEightThousand(g: int, v: int)
    requires g % 16 != 0 && v % 8 != 0
    ensures g * v != 8000
  {
    var p, a := OddPart(g);
    var q, b := OddPart(v);
    TooFewTwos(p, a, q, b, g, v);
  }

  /** A divisor of 8000 that 16 does not divide divides 1000. */
  lemma SmallPowerOfTwo(g: int)
    requires g > 0 && Divides(g, 8000) && g % 16 != 0
    ensures Divides(g, 1000)
  {
    var v := 8000 / g;
    assert g * v == 8000;
    if v % 8 != 0 {
      NotEightThousand(g, v);
    }
    EighthOf(g, v, v / 8);
    Multiple(g, v / 8);
  }

  lemma EighthOf(g: int, v: int, u: int)
    requires v == 8 * u && g * v == 8000
    ensures g * u == 1000
  {
    assert g * v == 8 * (g * u);
  }

  lemma ProperDivisor(g: int, r: int)
    requires g > 0 && r > 0 && Divides(g, r) && g != r
    ensures g < r
  {
    var k := r / g;
    assert r == g * k;
    if k <= 0 { ScaleUp(g, k, 0); } else { ScaleUp(g, 1, k); }
  }

  lemma RestDivided(bps: nat, g: int)
    requires g > 0 && Divides(g, bps) && Divides(g, 1000)
    ensures Divides(g, bps % 1000)
  {
    DividesCombination(g, bps, 1, 1000, -(bps / 1000));
    assert bps * 1 + 1000 * (-(bps / 1000)) == bps % 1000;
  }

  lemma Sixteenfold(x: int, g: int)
    requires g > 0 && Divides(g, x) && g % 16 == 0
    ensures x % 16 == 0
  {
    DividesCombination(16, g, x / g, g, 0);
    assert g * (x / g) + g * 0 == x;
  }

  /** Off the multiples of sixteen, only round bandwidths are free. */
  lemma FreeIsRound(bps: nat)
    requires bps > 0 && bps % 16 != 0
    ensures !ChargesControl(bps) <==> Round(bps)
  {
    if Round(bps) {
      RoundIsFree(bps);
    } else {
      var g := Gcd(8000, bps);
      GcdDivides(8000, bps);
      if g % 16 == 0 { Sixteenfold(bps, g); }
      SmallPowerOfTwo(g);
      RestDivided(bps, g);
      ProperDivisor(g, bps % 1000);
      Multiple(g, 1);
      assert LeftOver(bps, g);
    }
  }
}
