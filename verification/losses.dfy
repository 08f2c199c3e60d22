/** Which frames are lost and how the others are delayed, in terms of the draws: raising a probability only adds
    losses, and along any traffic frame k is lost or delayed by the draws at its own place in the stream
    (internal/impair/impair.go:113-212). */
module LossLaws {
  import opened Audio
  import opened Basics
  import opened Impair
  import opened Shaping

  // ---- one frame ----

  /** A frame lost at one loss probability is lost at every greater one. */
  lemma LostMore(p: Profile, lossProb: real, g: Rng, q: Link, f: Frame, now: int)
    requires lossProb >= p.lossProb
    ensures Delay(p, g, q, f, now).1.None? ==> Delay(p.(lossProb := lossProb), g, q, f, now).1.None?
  {}

  /** At probability one every frame is lost; at zero none is, outside a burst. */
  lemma AllOrNone(p: Profile, g: Rng, q: Link, f: Frame, now: int)
    requires g.Valid()
    ensures p.lossProb >= 1.0 ==> Delay(p, g, q, f, now).1.None?
    ensures p.lossProb <= 0.0 && !(Bursty(p) && q.bad) ==> Delay(p, g, q, f, now).1.Some?
  {}

  /** Without bursts the next draw decides, against the loss probability. */
  lemma LostBelow(p: Profile, g: Rng, q: Link, f: Frame, now: int)
    requires g.Valid() && !Bursty(p)
    ensures var (q', due) := Delay(p, g, q, f, now);
            (due.None? <==> g.float(q.draws) < p.lossProb) && q'.bad == q.bad
  {
    assert g.float(q.draws) >= 0.0;
  }

  /** The burst chain: the good state loses by the loss probability and turns bad by its own, the bad state loses every
      frame and turns good by its own; the loss is decided before the state changes. */
  lemma BurstChain(p: Profile, g: Rng, q: Link, f: Frame, now: int)
    requires g.Valid() && Bursty(p)
    ensures var (q', due) := Delay(p, g, q, f, now);
            && (due.None? <==> q.bad || g.float(q.draws) < p.lossProb)
            && (!q.bad ==> (q'.bad <==> g.float(q.draws + 1) < p.burstToBad))
            && (q.bad ==> (!q'.bad <==> g.float(q.draws + 1) < p.burstToGood))
  {
    assert g.float(q.draws) < 1.0;
  }

  /** The added latency, what draw x makes of the jitter, and the reorder delay if the draw after that says so. */
  function DrawnDelay(p: Profile, g: Rng, x: nat): int {
    var jitter := if p.jitterMs > 0 then g.intn(x, 2 * p.jitterMs + 1) else 0;
    var y := if p.jitterMs > 0 then x + 1 else x;
    var late := p.reorderProb > 0.0 && g.float(y) < p.reorderProb;
    p.addedLatencyMs + jitter + (if !late then 0 else if p.reorderDelayMs == 0 then 40 else p.reorderDelayMs)
  }

  /** A kept frame of an unlimited link arrives that much later; the draws follow those of the loss. */
  lemma ArrivesAsDrawn(p: Profile, g: Rng, q: Link, f: Frame, now: int)
    requires p.Valid() && g.Valid() && p.bandwidthBps == 0 && Delay(p, g, q, f, now).1.Some?
    ensures Delay(p, g, q, f, now).1.value == now + DrawnDelay(p, g, q.draws + LossDraws(p))
    ensures DrawnDelay(p, g, q.draws + LossDraws(p)) >= 0
  {}

  /** Raising the reorder probability makes no frame earlier and none later by more than the reorder delay. */
  lemma DelayedMore(p: Profile, reorderProb: real, g: Rng, q: Link, f: Frame, now: int)
    requires p.Valid() && g.Valid() && p.bandwidthBps == 0 && 0.0 < p.reorderProb <= reorderProb <= 1.0
    ensures var less, more := Delay(p, g, q, f, now).1, Delay(p.(reorderProb := reorderProb), g, q, f, now).1;
            && less.Some? == more.Some?
            && (less.Some? ==> more.value - less.value == 0 || more.value - less.value == ReorderExtra(p))
            && (less.Some? && reorderProb == 1.0 ==>
                  more.value >= now + p.addedLatencyMs + ReorderExtra(p))
  {}

  // ---- along traffic ----

  function CountTrue(bs: seq<bool>): nat {
    if bs == [] then 0 else CountTrue(bs[..|bs| - 1]) + (if bs[|bs| - 1] then 1 else 0)
  }

  /** Where in the stream frame k draws when `lost` of the k before it were lost. */
  function DrawAt(p: Profile, from: nat, k: nat, lost: nat): int {
    from + k * LossDraws(p) + (k - lost) * ShapeDraws(p)
  }

  lemma DrawNext(p: Profile, from: nat, k: nat, lost: nat, isLost: bool)
    ensures DrawAt(p, from, k + 1, lost + (if isLost then 1 else 0))
            == DrawAt(p, from, k, lost) + LossDraws(p) + (if isLost then 0 else ShapeDraws(p))
  {}

  lemma LossesPrefix(p: Profile, g: Rng, q: Link, fs: seq<Frame>, nows: seq<int>)
    requires |fs| == |nows| && fs != []
    ensures var n := |fs| - 1;
            && Losses(p, g, q, fs, nows)[..n] == Losses(p, g, q, fs[..n], nows[..n])
            && Losses(p, g, q, fs, nows)[n]
               == Delay(p, g, SendAll(p, g, q, fs[..n], nows[..n]), fs[n], nows[n]).1.None?
  {}

  /** The profile and the losses alone fix where each frame draws. */
  lemma {:induction false} DrawsSoFar(p: Profile, g: Rng, q: Link, fs: seq<Frame>, nows: seq<int>)
    requires |fs| == |nows|
    ensures SendAll(p, g, q, fs, nows).draws == DrawAt(p, q.draws, |fs|, CountTrue(Losses(p, g, q, fs, nows)))
  {
    if fs != [] {
      var n := |fs| - 1;
      DrawsSoFar(p, g, q, fs[..n], nows[..n]);
      LossesPrefix(p, g, q, fs, nows);
      var lost := Losses(p, g, q, fs, nows);
      DrawsPerFrame(p, g, SendAll(p, g, q, fs[..n], nows[..n]), fs[n], nows[n]);
      DrawNext(p, q.draws, n, CountTrue(lost[..n]), lost[n]);
    }
  }

  /** The losses among the first k frames, and the k-th one's, are a matter of those frames alone. */
  lemma {:induction false} LossesUpTo(p: Profile, g: Rng, q: Link, fs: seq<Frame>, nows: seq<int>, k: nat)
    requires |fs| == |nows| && k < |fs|
    ensures Losses(p, g, q, fs, nows)[..k] == Losses(p, g, q, fs[..k], nows[..k])
    ensures Losses(p, g, q, fs, nows)[k] == Delay(p, g, SendAll(p, g, q, fs[..k], nows[..k]), fs[k], nows[k]).1.None?
  {
    var n := |fs| - 1;
    LossesPrefix(p, g, q, fs, nows);
    if k < n {
      LossesUpTo(p, g, q, fs[..n], nows[..n], k);
      var gs, laters := fs[..n], nows[..n];
      assert gs[..k] == fs[..k] && laters[..k] == nows[..k] && gs[k] == fs[k] && laters[k] == nows[k];
      var all := Losses(p, g, q, fs, nows);
      assert all[..k] == all[..n][..k] && all[k] == all[..n][k];
    }
  }

  lemma SendNext(p: Profile, g: Rng, q: Link, fs: seq<Frame>, nows: seq<int>, k: nat)
    requires |fs| == |nows| && k < |fs|
    ensures SendAll(p, g, q, fs[..k + 1], nows[..k + 1])
            == Delay(p, g, SendAll(p, g, q, fs[..k], nows[..k]), fs[k], nows[k]).0
  {
    assert fs[..k + 1] == fs[..k] + [fs[k]] && nows[..k + 1] == nows[..k] + [nows[k]];
    SendOneMore(p, g, q, fs[..k], nows[..k], fs[k], nows[k]);
  }

  /** Along any traffic without bursts, frame k is lost exactly when the draw at its place is below the loss
      probability. */
  lemma LostByDraw(p: Profile, g: Rng, q: Link, fs: seq<Frame>, nows: seq<int>, k: nat)
    requires g.Valid() && !Bursty(p) && |fs| == |nows| && k < |fs|
    ensures var lost := Losses(p, g, q, fs, nows);
            var x := DrawAt(p, q.draws, k, CountTrue(lost[..k]));
            x >= 0 && (lost[k] <==> g.float(x) < p.lossProb)
  {
    DrawsSoFar(p, g, q, fs[..k], nows[..k]);
    LossesUpTo(p, g, q, fs, nows, k);
    LostBelow(p, g, SendAll(p, g, q, fs[..k], nows[..k]), fs[k], nows[k]);
  }

  /** What the chain does at draw x. */
  predicate ChainMoves(p: Profile, g: Rng, x: nat, bad: bool, lost: bool, after: bool) {
    && (lost <==> bad || g.float(x) < p.lossProb)
    && (if bad then !after <==> g.float(x + 1) < p.burstToGood else after <==> g.float(x + 1) < p.burstToBad)
  }

  /** The link and the loss at frame k, in the state the frames before it left. */
  lemma FrameStep(p: Profile, g: Rng, q: Link, fs: seq<Frame>, nows: seq<int>, k: nat)
    returns (r: Link, r': Link, due: Option<int>)
    requires |fs| == |nows| && k < |fs|
    ensures r == SendAll(p, g, q, fs[..k], nows[..k]) && r' == SendAll(p, g, q, fs[..k + 1], nows[..k + 1])
    ensures (r', due) == Delay(p, g, r, fs[k], nows[k]) && Losses(p, g, q, fs, nows)[k] == due.None?
  {
    LossesUpTo(p, g, q, fs, nows, k);
    SendNext(p, g, q, fs, nows, k);
    r := SendAll(p, g, q, fs[..k], nows[..k]);
    r', due := Delay(p, g, r, fs[k], nows[k]).0, Delay(p, g, r, fs[k], nows[k]).1;
  }

  lemma ChainStep(p: Profile, g: Rng, r: Link, f: Frame, now: int, r': Link, due: Option<int>, x: nat)
    requires g.Valid() && Bursty(p) && (r', due) == Delay(p, g, r, f, now) && r.draws == x
    ensures ChainMoves(p, g, x, r.bad, due.None?, r'.bad)
  {
    BurstChain(p, g, r, f, now);
  }

  /** With bursts it is also lost whenever the chain is bad by then, and the draw after decides where the chain goes. */
  lemma ChainByDraw(p: Profile, g: Rng, q: Link, fs: seq<Frame>, nows: seq<int>, k: nat)
    requires g.Valid() && Bursty(p) && |fs| == |nows| && k < |fs|
    ensures var lost := Losses(p, g, q, fs, nows);
            var x := DrawAt(p, q.draws, k, CountTrue(lost[..k]));
            && x >= 0 && SendAll(p, g, q, fs[..0], nows[..0]).bad == q.bad
            && ChainMoves(p, g, x, SendAll(p, g, q, fs[..k], nows[..k]).bad, lost[k],
                          SendAll(p, g, q, fs[..k + 1], nows[..k + 1]).bad)
  {
    var lost := Losses(p, g, q, fs, nows);
    DrawsSoFar(p, g, q, fs[..k], nows[..k]);
    LossesUpTo(p, g, q, fs, nows, k);
    var r, r', due := FrameStep(p, g, q, fs, nows, k);
    ChainStep(p, g, r, fs[k], nows[k], r', due, DrawAt(p, q.draws, k, CountTrue(lost[..k])));
  }
}
