/** What re-running a session reproduces: its losses and delays are drawn from its own generator, frame by frame,
    whatever else runs beside it (internal/impair/impair.go:97-188, internal/engine/engine.go:88-97). */
module Replays {
  import opened Audio
  import opened Basics
  import opened Impair
  import opened Shaping
  import opened LossLaws
  import opened Scenarios
  import opened CallerSession
  import opened Engine
  import opened SessionView
  import opened Streams
  import opened OfflineRun

  /** The link of session i is what its generator makes of the frames its agent sent, the n-th one numbered n and sent
      at its own time; what it let through has come when it was due. */
  lemma LinkIsFolded(sc: Scenario, w: World, i: nat)
    requires sc.Valid() && FrameMs(sc) > 0 && Reached(sc, w) && i < |w.sess|
    ensures StreamIs(sc.profile, sc.rngs(i), w.sess[i].link, w.sess[i].trace, multiset{})
  {
    SessionKeeps(sc, w, i);
    var l := View(sc.Cfg(), w, i);
    assert Streamed(sc, i, l);
    StreamIdles(sc.profile, sc.rngs(i), l.s.link, l.s.trace, l.s.trace, l.m, multiset{});
  }

  /** The frames both streams have sent are lost in both or in neither. */
  ghost predicate LoseAlike(s: Sess, s': Sess) {
    forall q: nat | q < |s.trace.sent| && q < |s'.trace.sent| ::
      s.trace.sent[q] in s.link.dropped <==> s'.trace.sent[q] in s'.link.dropped
  }

  /** The frames both have received took the same time. */
  ghost predicate DelayAlike(t: Trace, t': Trace) {
    && |t.gotAt| == |t.got| && |t'.gotAt| == |t'.got|
    && forall n: nat, m: nat | n < |t.got| && m < |t'.got| && t.got[n].seqNo == t'.got[m].seqNo ::
         t.gotAt[n] - t.got[n].ts == t'.gotAt[m] - t'.got[m].ts
  }

  /** Two sessions with one profile and one generator, in whatever scenarios, lose the same frames by position as far
      as both have sent; unlimited, they delay alike the frames both have received. */
  lemma SessionsReplay(sc: Scenario, w: World, k: nat, sc': Scenario, w': World, k': nat)
    requires sc.Valid() && FrameMs(sc) > 0 && Reached(sc, w) && k < |w.sess|
    requires sc'.Valid() && FrameMs(sc') > 0 && Reached(sc', w') && k' < |w'.sess|
    requires sc.profile == sc'.profile && sc.rngs(k) == sc'.rngs(k')
    ensures LoseAlike(w.sess[k], w'.sess[k'])
    ensures sc.profile.bandwidthBps == 0 ==> DelayAlike(w.sess[k].trace, w'.sess[k'].trace)
  {
    LinkIsFolded(sc, w, k);
    LinkIsFolded(sc', w', k');
    StreamsReplay(sc.profile, sc.rngs(k), w.sess[k], w'.sess[k']);
  }

  lemma StreamsReplay(p: Profile, g: Rng, s: Sess, s': Sess)
    requires p.Valid() && g.Valid()
    requires StreamIs(p, g, s.link, s.trace, multiset{}) && StreamIs(p, g, s'.link, s'.trace, multiset{})
    ensures LoseAlike(s, s') && (p.bandwidthBps == 0 ==> DelayAlike(s.trace, s'.trace))
  {
    var t, t' := s.trace, s'.trace;
    forall q: nat | q < |t.sent| && q < |t'.sent|
      ensures t.sent[q] in s.link.dropped <==> t'.sent[q] in s'.link.dropped
    {
      LostInBoth(p, g, s.link, t, s'.link, t', q);
    }
    if p.bandwidthBps == 0 {
      forall n: nat, m: nat | n < |t.got| && m < |t'.got| && t.got[n].seqNo == t'.got[m].seqNo
        ensures t.gotAt[n] - t.got[n].ts == t'.gotAt[m] - t'.got[m].ts
      {
        DelayedInBoth(p, g, s.link, t, n, s'.link, t', m);
      }
    }
  }

  lemma LostInBoth(p: Profile, g: Rng, l: Link, t: Trace, l': Link, t': Trace, q: nat)
    requires Folded(p, g, l, t) && InSequence(t.sent) && Folded(p, g, l', t') && InSequence(t'.sent)
    requires q < |t.sent| && q < |t'.sent|
    ensures t.sent[q] in l.dropped <==> t'.sent[q] in l'.dropped
  {
    DroppedIsLost(p, g, l, t, q);
    DroppedIsLost(p, g, l', t', q);
    FatesAlike(p, g, t.sent, t.sentAt, t'.sent, t'.sentAt, q);
  }

  lemma DelayedInBoth(p: Profile, g: Rng, l: Link, t: Trace, n: nat, l': Link, t': Trace, m: nat)
    requires p.Valid() && g.Valid() && Folded(p, g, l, t) && Folded(p, g, l', t')
    requires n < |t.got| == |t.gotAt| && DueAt(FatesOf(p, g, t), t, t.got[n], t.gotAt[n])
    requires m < |t'.got| == |t'.gotAt| && DueAt(FatesOf(p, g, t'), t', t'.got[m], t'.gotAt[m])
    requires p.bandwidthBps == 0 && t.got[n].seqNo == t'.got[m].seqNo
    ensures t.gotAt[n] - t.got[n].ts == t'.gotAt[m] - t'.got[m].ts
  {
    var q := t.got[n].seqNo;
    FatesAlike(p, g, t.sent, t.sentAt, t'.sent, t'.sentAt, q);
    NeverEarly(p, g, t, q);
    NeverEarly(p, g, t', q);
  }

  /** Unlimited, nothing is due before it was sent. */
  lemma NeverEarly(p: Profile, g: Rng, t: Trace, q: nat)
    requires p.Valid() && g.Valid() && p.bandwidthBps == 0 && |t.sentAt| == |t.sent| && q < |t.sent|
    requires FatesOf(p, g, t)[q].Some?
    ensures FatesOf(p, g, t)[q].value >= t.sentAt[q]
  {
    FateAt(p, g, FRESH_LINK, t.sent, t.sentAt, q);
    ArrivesAsDrawn(p, g, SendAll(p, g, FRESH_LINK, t.sent[..q], t.sentAt[..q]), t.sent[q], t.sentAt[q]);
  }

  // ---- draw by draw ----

  /** How many of the frames were dropped. */
  function LostAmong(fs: seq<Frame>, dropped: seq<Frame>): nat {
    if fs == [] then 0
    else LostAmong(fs[..|fs| - 1], dropped) + (if fs[|fs| - 1] in dropped then 1 else 0)
  }

  lemma {:induction false} LostIsCounted(fs: seq<Frame>, dropped: seq<Frame>, lost: seq<bool>)
    requires |fs| == |lost| && forall k | 0 <= k < |fs| :: fs[k] in dropped <==> lost[k]
    ensures LostAmong(fs, dropped) == CountTrue(lost)
  {
    if fs != [] {
      LostIsCounted(fs[..|fs| - 1], dropped, lost[..|fs| - 1]);
    }
  }

  /** What was lost before frame q, as the dropped frames show it. */
  lemma LostBefore(p: Profile, g: Rng, l: Link, t: Trace, q: nat)
    requires Folded(p, g, l, t) && InSequence(t.sent) && q < |t.sent|
    ensures CountTrue(Losses(p, g, FRESH_LINK, t.sent, t.sentAt)[..q]) == LostAmong(t.sent[..q], l.dropped)
    ensures Losses(p, g, FRESH_LINK, t.sent, t.sentAt)[q] <==> t.sent[q] in l.dropped
  {
    var lost := Losses(p, g, FRESH_LINK, t.sent, t.sentAt);
    forall k: nat | k < |t.sent| ensures t.sent[k] in l.dropped <==> lost[k] {
      DroppedIsLost(p, g, l, t, k);
      LossesAreFates(p, g, FRESH_LINK, t.sent, t.sentAt, k);
    }
    LostIsCounted(t.sent[..q], l.dropped, lost[..q]);
  }

  /** Where in session i's stream of draws its frame q draws. */
  function DrawOf(p: Profile, s: Sess, q: nat): int
    requires q < |s.trace.sent|
  {
    DrawAt(p, 0, q, LostAmong(s.trace.sent[..q], s.link.dropped))
  }

  /** Over a run without bursts a frame was dropped exactly when the draw at its place, in the session's own stream, was
      below the loss probability. */
  lemma LostAsDrawn(sc: Scenario, w: World, i: nat, q: nat)
    requires sc.Valid() && FrameMs(sc) > 0 && Reached(sc, w) && i < |w.sess| && q < |w.sess[i].trace.sent|
    requires !Bursty(sc.profile)
    ensures var s := w.sess[i];
            var x := DrawOf(sc.profile, s, q);
            x >= 0 && (s.trace.sent[q] in s.link.dropped <==> sc.rngs(i).float(x) < sc.profile.lossProb)
  {
    var s, p, g := w.sess[i], sc.profile, sc.rngs(i);
    LinkIsFolded(sc, w, i);
    LostBefore(p, g, s.link, s.trace, q);
    LostByDraw(p, g, FRESH_LINK, s.trace.sent, s.trace.sentAt, q);
  }

  /** And through an unlimited link every frame received came exactly as much later as the draws at its place say. */
  lemma DelayedAsDrawn(sc: Scenario, w: World, i: nat, n: nat)
    requires sc.Valid() && FrameMs(sc) > 0 && Reached(sc, w) && i < |w.sess| && n < |w.sess[i].trace.got|
    requires sc.profile.bandwidthBps == 0
    ensures CameAsDrawn(sc.profile, sc.rngs(i), w.sess[i], n)
  {
    LinkIsFolded(sc, w, i);
    ReceivedAsDrawn(sc.profile, sc.rngs(i), w.sess[i], n);
  }

  ghost predicate CameAsDrawn(p: Profile, g: Rng, s: Sess, n: nat)
    requires n < |s.trace.got|
  {
    var f := s.trace.got[n];
    && 0 <= f.seqNo < |s.trace.sent| && s.trace.sent[f.seqNo] == f && |s.trace.gotAt| == |s.trace.got|
    && var x := DrawOf(p, s, f.seqNo) + LossDraws(p);
       x >= 0 && s.trace.gotAt[n] == f.ts + DrawnDelay(p, g, x)
  }

  lemma ReceivedAsDrawn(p: Profile, g: Rng, s: Sess, n: nat)
    requires p.Valid() && g.Valid() && p.bandwidthBps == 0
    requires StreamIs(p, g, s.link, s.trace, multiset{}) && n < |s.trace.got|
    ensures CameAsDrawn(p, g, s, n)
  {
    assert DueAt(FatesOf(p, g, s.trace), s.trace, s.trace.got[n], s.trace.gotAt[n]);
    DelayDrawn(p, g, s, s.trace.got[n].seqNo);
  }

  lemma DelayDrawn(p: Profile, g: Rng, s: Sess, q: nat)
    requires p.Valid() && g.Valid() && p.bandwidthBps == 0
    requires Folded(p, g, s.link, s.trace) && InSequence(s.trace.sent) && q < |s.trace.sent|
    requires FatesOf(p, g, s.trace)[q].Some?
    ensures var x := DrawOf(p, s, q) + LossDraws(p);
            x >= 0 && FatesOf(p, g, s.trace)[q].value == s.trace.sentAt[q] + DrawnDelay(p, g, x) >= s.trace.sentAt[q]
  {
    var t := s.trace;
    var r, r', due := FateStep(p, g, t, q);
    DrawsBefore(p, g, s, q, r);
    KeptAsDrawn(p, g, r, t.sent[q], t.sentAt[q], r', due, DrawOf(p, s, q));
  }

  /** How the link stood when frame q was sent, and what became of it. */
  lemma FateStep(p: Profile, g: Rng, t: Trace, q: nat) returns (r: Link, r': Link, due: Option<int>)
    requires |t.sentAt| == |t.sent| && q < |t.sent|
    ensures r == SendAll(p, g, FRESH_LINK, t.sent[..q], t.sentAt[..q])
    ensures (r', due) == Delay(p, g, r, t.sent[q], t.sentAt[q]) && FatesOf(p, g, t)[q] == due
  {
    r := SendAll(p, g, FRESH_LINK, t.sent[..q], t.sentAt[..q]);
    r', due := Delay(p, g, r, t.sent[q], t.sentAt[q]).0, Delay(p, g, r, t.sent[q], t.sentAt[q]).1;
    FateAt(p, g, FRESH_LINK, t.sent, t.sentAt, q);
  }

  lemma DrawsBefore(p: Profile, g: Rng, s: Sess, q: nat, r: Link)
    requires Folded(p, g, s.link, s.trace) && InSequence(s.trace.sent) && q < |s.trace.sent|
    requires r == SendAll(p, g, FRESH_LINK, s.trace.sent[..q], s.trace.sentAt[..q])
    ensures r.draws == DrawOf(p, s, q)
  {
    var t := s.trace;
    LostBefore(p, g, s.link, t, q);
    LossesUpTo(p, g, FRESH_LINK, t.sent, t.sentAt, q);
    DrawsSoFar(p, g, FRESH_LINK, t.sent[..q], t.sentAt[..q]);
  }

  lemma KeptAsDrawn(p: Profile, g: Rng, r: Link, f: Frame, now: int, r': Link, due: Option<int>, x: int)
    requires p.Valid() && g.Valid() && p.bandwidthBps == 0 && r.draws == x
    requires (r', due) == Delay(p, g, r, f, now) && due.Some?
    ensures due.value == now + DrawnDelay(p, g, x + LossDraws(p)) >= now
  {
    ArrivesAsDrawn(p, g, r, f, now);
  }
}
