/** What loss, latency, jitter and reordering may do to a frame (internal/impair/impair.go:113-188, 196-212). */
module Shaping {
  import opened Audio
  import opened Basics
  import opened Impair

  function ReorderExtra(p: Profile): int {
    if p.reorderDelayMs == 0 then DEFAULT_REORDER_DELAY_MS else p.reorderDelayMs
  }

  /** On an unlimited link a kept frame arrives after the added latency, at most twice the jitter later, and at most
      the reorder delay later still; never in the past. */
  lemma ArrivesWithin(p: Profile, g: Rng, q: Link, f: Frame, now: int)
    requires p.Valid() && g.Valid() && p.bandwidthBps == 0
    ensures match Delay(p, g, q, f, now).1
            case None => true
            case Some(at) =>
              && now + p.addedLatencyMs <= at <= now + p.addedLatencyMs + 2 * p.jitterMs
                 + (if p.reorderProb > 0.0 then ReorderExtra(p) else 0)
              && (p.jitterMs == 0 && p.reorderProb <= 0.0 ==> at == now + p.addedLatencyMs)
  {}

  /** A limited link only adds to that. */
  lemma LimitOnlyDelays(p: Profile, g: Rng, q: Link, f: Frame, now: int)
    requires p.bandwidthBps > 0 && q.remainder >= 0 && f.payloadLen >= 0
    ensures var unlimited := Delay(p.(bandwidthBps := 0), g, q, f, now).1;
            var limited := Delay(p, g, q, f, now).1;
            limited.Some? == unlimited.Some? && (limited.Some? ==> limited.value >= unlimited.value)
  {
    var bits := LossThenShape(p, g, q, now).0.remainder + f.payloadLen * 8;
    assert ChargeMs(bits, p.bandwidthBps) >= 0;
  }

  function LossThenShape(p: Profile, g: Rng, q: Link, now: int): (Link, int) {
    ShapeStep(p, g, LossStep(p, g, q).0, now)
  }

  /** Frames may be lost in bursts. */
  predicate Bursty(p: Profile) { p.burstToBad > 0.0 || p.burstToGood > 0.0 }

  /** How many draws the loss decision takes, whatever it decides. */
  function LossDraws(p: Profile): nat { if Bursty(p) then 2 else if p.lossProb > 0.0 then 1 else 0 }

  function ShapeDraws(p: Profile): nat { (if p.jitterMs > 0 then 1 else 0) + (if p.reorderProb > 0.0 then 1 else 0) }

  /** A frame takes a fixed number of draws, fewer only by being lost: the profile and the losses alone fix where in
      the stream the next frame draws. */
  lemma DrawsPerFrame(p: Profile, g: Rng, q: Link, f: Frame, now: int)
    ensures var (q', due) := Delay(p, g, q, f, now);
            q'.draws == q.draws + LossDraws(p) + (if due.Some? then ShapeDraws(p) else 0)
  {}

  /** Send frames one after the other. */
  function SendAll(p: Profile, g: Rng, q: Link, fs: seq<Frame>, nows: seq<int>): Link
    requires |fs| == |nows|
  {
    if fs == [] then q
    else
      var n := |fs| - 1;
      Delay(p, g, SendAll(p, g, q, fs[..n], nows[..n]), fs[n], nows[n]).0
  }

  /** What becomes of the frames: when each is due, or that it is lost. */
  function Fates(p: Profile, g: Rng, q: Link, fs: seq<Frame>, nows: seq<int>): seq<Option<int>>
    requires |fs| == |nows|
    ensures |Fates(p, g, q, fs, nows)| == |fs|
  {
    if fs == [] then []
    else
      var n := |fs| - 1;
      Fates(p, g, q, fs[..n], nows[..n]) + [Delay(p, g, SendAll(p, g, q, fs[..n], nows[..n]), fs[n], nows[n]).1]
  }

  lemma SendOneMore(p: Profile, g: Rng, q: Link, fs: seq<Frame>, nows: seq<int>, f: Frame, now: int)
    requires |fs| == |nows|
    ensures var (q', due) := Delay(p, g, SendAll(p, g, q, fs, nows), f, now);
            && SendAll(p, g, q, fs + [f], nows + [now]) == q'
            && Fates(p, g, q, fs + [f], nows + [now]) == Fates(p, g, q, fs, nows) + [due]
  {
    assert (fs + [f])[..|fs|] == fs && (nows + [now])[..|nows|] == nows;
  }

  /** Which of the frames are lost. */
  function Losses(p: Profile, g: Rng, q: Link, fs: seq<Frame>, nows: seq<int>): seq<bool>
    requires |fs| == |nows|
    ensures |Losses(p, g, q, fs, nows)| == |fs|
  {
    if fs == [] then []
    else
      var n := |fs| - 1;
      Losses(p, g, q, fs[..n], nows[..n]) + [Delay(p, g, SendAll(p, g, q, fs[..n], nows[..n]), fs[n], nows[n]).1.None?]
  }

  function Chosen(fs: seq<Frame>, lost: seq<bool>): seq<Frame>
    requires |fs| == |lost|
  {
    if fs == [] then []
    else
      var n := |fs| - 1;
      Chosen(fs[..n], lost[..n]) + (if lost[n] then [fs[n]] else [])
  }

  /** The queue remembers exactly the lost frames, in order. Which ones they are is a matter of position: other frames
      at other times through another backlog lose the same ones. */
  lemma {:induction false} LossesByPosition(p: Profile, g: Rng, q: Link, fs: seq<Frame>, nows: seq<int>,
                                            r: Link, gs: seq<Frame>, laters: seq<int>)
    requires |fs| == |nows| == |gs| == |laters| && q.draws == r.draws && q.bad == r.bad
    ensures SendAll(p, g, q, fs, nows).dropped == q.dropped + Chosen(fs, Losses(p, g, q, fs, nows))
    ensures Losses(p, g, q, fs, nows) == Losses(p, g, r, gs, laters)
    ensures var q', r' := SendAll(p, g, q, fs, nows), SendAll(p, g, r, gs, laters);
            q'.draws == r'.draws && q'.bad == r'.bad
  {
    if fs != [] {
      var n := |fs| - 1;
      LossesByPosition(p, g, q, fs[..n], nows[..n], r, gs[..n], laters[..n]);
      var q1, r1 := SendAll(p, g, q, fs[..n], nows[..n]), SendAll(p, g, r, gs[..n], laters[..n]);
      LostAlike(p, g, q1, fs[n], nows[n], r1, gs[n], laters[n]);
      var lost := Losses(p, g, q, fs, nows);
      assert lost[..n] == Losses(p, g, q, fs[..n], nows[..n]);
    }
  }

  lemma LostAlike(p: Profile, g: Rng, q: Link, f: Frame, now: int, r: Link, h: Frame, later: int)
    requires q.draws == r.draws && q.bad == r.bad
    ensures var (q', a) := Delay(p, g, q, f, now);
            var (r', b) := Delay(p, g, r, h, later);
            && a.None? == b.None? && q'.draws == r'.draws && q'.bad == r'.bad
            && q'.dropped == if a.None? then q.dropped + [f] else q.dropped
  {
    DrawsPerFrame(p, g, q, f, now);
    DrawsPerFrame(p, g, r, h, later);
  }

  lemma BurstLosesOne(p: Profile, g: Rng, q: Link, f: Frame, now: int)
    requires g.Valid() && Bursty(p) && q.bad && g.float(q.draws + 1) >= p.burstToGood
    ensures Delay(p, g, q, f, now).0 == q.(draws := q.draws + 2, dropped := q.dropped + [f])
  {
    assert g.float(q.draws) < 1.0;
  }

  /** A loss burst: from the bad state every frame is lost, for as long as the chain does not draw its way back. */
  lemma {:induction false} BurstLosesAll(p: Profile, g: Rng, q: Link, fs: seq<Frame>, nows: seq<int>)
    requires g.Valid() && Bursty(p) && q.bad && |fs| == |nows|
    requires forall k: nat | k < |fs| :: g.float(q.draws + 2 * k + 1) >= p.burstToGood
    ensures var q' := SendAll(p, g, q, fs, nows);
            q'.bad && q'.dropped == q.dropped + fs && q'.draws == q.draws + 2 * |fs|
  {
    if fs != [] {
      var n := |fs| - 1;
      BurstLosesAll(p, g, q, fs[..n], nows[..n]);
      BurstLosesOne(p, g, SendAll(p, g, q, fs[..n], nows[..n]), fs[n], nows[n]);
      assert fs == fs[..n] + [fs[n]];
    }
  }
}
