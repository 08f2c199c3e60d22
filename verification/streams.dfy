/** Over a whole run a session's downlink is its own generator, folded over the frames its agent sent: what is lost,
    delayed and reordered depends on nothing else (internal/impair/impair.go:100-188,
    internal/engine/engine.go:91-92). */
module Streams {
  import opened Audio
  import opened Basics
  import opened Impair
  import opened Shaping
  import opened Clock
  import opened Scenarios
  import opened AgentProto
  import opened CallerSession
  import opened Engine
  import opened SessionView
  import opened Soundness
  import opened TurnProtocol
  import opened Arrivals

  /** The frames sent so far, each at its own time, have taken the link from its fresh state to where it is. */
  ghost predicate Folded(p: Profile, g: Rng, q: Link, t: Trace) {
    && |t.sentAt| == |t.sent|
    && q == SendAll(p, g, FRESH_LINK, t.sent, t.sentAt)
    && forall k: nat | k < |t.sent| :: t.sentAt[k] == t.sent[k].ts
  }

  /** When the folded link lets through the frame that it was sent as number f.seqNo; at once if that is past. */
  ghost predicate DueAt(fates: seq<Option<int>>, t: Trace, f: Frame, at: int)
    requires |fates| == |t.sent| == |t.sentAt|
  {
    var q := f.seqNo;
    0 <= q < |t.sent| && t.sent[q] == f && fates[q].Some? && at == AtLeast(fates[q].value, t.sentAt[q])
  }

  ghost function FatesOf(p: Profile, g: Rng, t: Trace): (fates: seq<Option<int>>)
    requires |t.sentAt| == |t.sent|
    ensures |fates| == |t.sent|
  {
    Fates(p, g, FRESH_LINK, t.sent, t.sentAt)
  }

  /** Every frame received came when it was due; every one in flight will. */
  ghost predicate OnTime(fates: seq<Option<int>>, t: Trace, m: multiset<Pending>)
    requires |fates| == |t.sent| == |t.sentAt|
  {
    && |t.gotAt| == |t.got|
    && (forall k: nat | k < |t.got| :: DueAt(fates, t, t.got[k], t.gotAt[k]))
    && (forall e | e in m && e.fn.ToCaller? :: DueAt(fates, t, e.fn.frame, e.deliverAt))
  }

  /** The n-th frame sent carries number n. */
  ghost predicate InSequence(sent: seq<Frame>) { forall q: nat | q < |sent| :: sent[q].seqNo == q }

  ghost predicate StreamIs(p: Profile, g: Rng, q: Link, t: Trace, m: multiset<Pending>) {
    Folded(p, g, q, t) && OnTime(FatesOf(p, g, t), t, m) && InSequence(t.sent)
  }

  ghost predicate Streamed(sc: Scenario, i: nat, l: Local) {
    StreamIs(sc.profile, sc.rngs(i), l.s.link, l.s.trace, l.m)
  }

  // ---- each callback keeps it ----

  lemma StreamIdles(p: Profile, g: Rng, q: Link, t: Trace, t': Trace, m: multiset<Pending>, m': multiset<Pending>)
    requires StreamIs(p, g, q, t, m) && t'.sent == t.sent && t'.sentAt == t.sentAt
    requires t'.got == t.got && t'.gotAt == t.gotAt && forall x | x in m' && x.fn.ToCaller? :: x in m
    ensures StreamIs(p, g, q, t', m')
  {
    forall x | x in m' && x.fn.ToCaller? ensures DueAt(FatesOf(p, g, t'), t', x.fn.frame, x.deliverAt) {
      assert DueAt(FatesOf(p, g, t), t, x.fn.frame, x.deliverAt);
    }
    forall k: nat | k < |t'.got| ensures DueAt(FatesOf(p, g, t'), t', t'.got[k], t'.gotAt[k]) {
      assert DueAt(FatesOf(p, g, t), t, t.got[k], t.gotAt[k]);
    }
  }

  lemma StreamLands(p: Profile, g: Rng, q: Link, t: Trace, t': Trace, m: multiset<Pending>, e: Pending,
                    m': multiset<Pending>)
    requires StreamIs(p, g, q, t, m) && t'.sent == t.sent && t'.sentAt == t.sentAt && e in m && e.fn.ToCaller?
    requires t'.got == t.got + [e.fn.frame] && t'.gotAt == t.gotAt + [e.deliverAt]
    requires forall x | x in m' && x.fn.ToCaller? :: x in m
    ensures StreamIs(p, g, q, t', m')
  {
    forall x | x in m' && x.fn.ToCaller? ensures DueAt(FatesOf(p, g, t'), t', x.fn.frame, x.deliverAt) {
      assert DueAt(FatesOf(p, g, t), t, x.fn.frame, x.deliverAt);
    }
    forall k: nat | k < |t'.got| ensures DueAt(FatesOf(p, g, t'), t', t'.got[k], t'.gotAt[k]) {
      assert DueAt(FatesOf(p, g, t), t, e.fn.frame, e.deliverAt);
      assert k < |t.got| ==> DueAt(FatesOf(p, g, t), t, t.got[k], t.gotAt[k]);
    }
  }

  /** A frame more does not change what is due of the others. */
  lemma StillDue(fates: seq<Option<int>>, t: Trace, fates': seq<Option<int>>, t': Trace, f: Frame, at: int)
    requires |fates| == |t.sent| == |t.sentAt| && DueAt(fates, t, f, at)
    requires fates <= fates' && t.sent <= t'.sent && t.sentAt <= t'.sentAt && |fates'| == |t'.sent| == |t'.sentAt|
    ensures DueAt(fates', t', f, at)
  {}

  lemma StreamGrows(p: Profile, g: Rng, q: Link, t: Trace, t': Trace, m: multiset<Pending>, f: Frame, now: int,
                m': multiset<Pending>)
    requires StreamIs(p, g, q, t, m) && f.ts == now && f.seqNo == |t.sent|
    requires t'.sent == t.sent + [f] && t'.sentAt == t.sentAt + [now] && t'.got == t.got && t'.gotAt == t.gotAt
    requires var due := Delay(p, g, q, f, now).1;
             forall x | x in m' && x.fn.ToCaller? ::
               x in m || (due.Some? && x.fn.frame == f && x.deliverAt == AtLeast(due.value, now))
    ensures StreamIs(p, g, Delay(p, g, q, f, now).0, t', m')
  {
    var fates, fates' := FatesOf(p, g, t), FatesOf(p, g, t');
    SendOneMore(p, g, FRESH_LINK, t.sent, t.sentAt, f, now);
    forall x | x in m' && x.fn.ToCaller? ensures DueAt(fates', t', x.fn.frame, x.deliverAt) {
      if x in m {
        StillDue(fates, t, fates', t', x.fn.frame, x.deliverAt);
      }
    }
    forall k: nat | k < |t'.got| ensures DueAt(fates', t', t'.got[k], t'.gotAt[k]) {
      StillDue(fates, t, fates', t', t.got[k], t.gotAt[k]);
    }
  }

  /** The stream after session i went to s' at e, scheduling rs. */
  ghost predicate StreamedAfter(sc: Scenario, i: nat, l: Local, e: Pending, s': Sess, rs: seq<Request>) {
    StreamIs(sc.profile, sc.rngs(i), s'.link, s'.trace, After(l, e, i, rs))
  }

  lemma QuietStreams(sc: Scenario, i: nat, l: Local, e: Pending, s': Sess, rs: seq<Request>)
    requires Streamed(sc, i, l) && e in l.m && s'.link == l.s.link && forall r | r in rs :: !r.fn.ToCaller?
    requires var t, t' := l.s.trace, s'.trace;
             t'.sent == t.sent && t'.sentAt == t.sentAt && t'.got == t.got && t'.gotAt == t.gotAt
    ensures StreamedAfter(sc, i, l, e, s', rs)
  {
    forall x | x in After(l, e, i, rs) && x.fn.ToCaller? ensures x in l.m {
      PendingAfter(l.m, e, e.deliverAt, i, rs, x);
    }
    StreamIdles(sc.profile, sc.rngs(i), l.s.link, l.s.trace, s'.trace, l.m, After(l, e, i, rs));
  }

  lemma RecvStreams(sc: Scenario, i: nat, l: Local, e: Pending)
    requires FrameMs(sc) != 0 && Streamed(sc, i, l) && e in l.m && e.fn.ToCaller?
    ensures var (s', rs) := RecvFrame(sc, e.deliverAt, l.s, e.fn.frame); StreamedAfter(sc, i, l, e, s', rs)
  {
    var (s', rs) := RecvFrame(sc, e.deliverAt, l.s, e.fn.frame);
    forall x | x in After(l, e, i, rs) && x.fn.ToCaller? ensures x in l.m {
      PendingAfter(l.m, e, e.deliverAt, i, rs, x);
    }
    StreamLands(sc.profile, sc.rngs(i), l.s.link, l.s.trace, s'.trace, l.m, e, After(l, e, i, rs));
  }

  /** What Send does to the link, the trace and the clock. */
  lemma SendFolds(sc: Scenario, i: nat, now: int, s: Sess, f: Frame)
    ensures var (s', rs) := SendDown(sc, i, now, s, f);
            var (link, due) := Delay(sc.profile, sc.rngs(i), s.link, f, now);
            && s'.link == link && rs == (if due.None? then [] else [Request(due.value, f.seqNo, ToCaller(f))])
            && s'.trace.sent == s.trace.sent + [f] && s'.trace.sentAt == s.trace.sentAt + [now]
            && s'.trace.got == s.trace.got && s'.trace.gotAt == s.trace.gotAt
  {}

  lemma SendStreams(sc: Scenario, i: nat, l: Local, e: Pending, s1: Sess, f: Frame)
    requires Streamed(sc, i, l) && e in l.m && s1.link == l.s.link && s1.trace == l.s.trace.(turns := s1.trace.turns)
    requires f.seqNo == |l.s.trace.sent| && f.ts == e.deliverAt
    ensures var (s', rs) := SendDown(sc, i, e.deliverAt, s1, f); StreamedAfter(sc, i, l, e, s', rs)
  {
    var now := e.deliverAt;
    var (s', rs) := SendDown(sc, i, now, s1, f);
    var due := Delay(sc.profile, sc.rngs(i), l.s.link, f, now).1;
    SendFolds(sc, i, now, s1, f);
    forall x | x in After(l, e, i, rs) && x.fn.ToCaller?
      ensures x in l.m || (due.Some? && x.fn.frame == f && x.deliverAt == AtLeast(due.value, now))
    {
      PendingAfter(l.m, e, now, i, rs, x);
    }
    StreamGrows(sc.profile, sc.rngs(i), l.s.link, l.s.trace, s'.trace, l.m, f, now, After(l, e, i, rs));
  }

  lemma OutcomeStreams(sc: Scenario, i: nat, l: Local, e: Pending, s1: Sess, f: Option<Frame>, timers: seq<Request>,
                       s': Sess, rs: seq<Request>)
    requires Streamed(sc, i, l) && e in l.m && forall r | r in timers :: !r.fn.IsDelivery()
    requires s1 == l.s.(agent := s1.agent, trace := l.s.trace.(turns := s1.trace.turns))
    requires f.Some? ==> f.value.seqNo == |l.s.trace.sent| && f.value.ts == e.deliverAt
    requires (s', rs) == if f.None? then (s1, timers) else SendDown(sc, i, e.deliverAt, s1, f.value)
    ensures StreamedAfter(sc, i, l, e, s', rs)
  {
    if f.None? {
      QuietStreams(sc, i, l, e, s1, timers);
    } else {
      SendStreams(sc, i, l, e, s1, f.value);
    }
  }

  lemma CallbackStreams(sc: Scenario, i: nat, l: Local, e: Pending, s': Sess, rs: seq<Request>)
    requires FrameMs(sc) != 0 && sc.Cfg().Timely() && TurnsOk(sc, i, l) && Sound(sc, i, l) && Enabled(l, e)
    requires Streamed(sc, i, l) && (s', rs) == React(sc, i, e.deliverAt, l.s, e.fn)
    ensures StreamedAfter(sc, i, l, e, s', rs)
  {
    if e.fn.IsTimer() {
      var s1, f, timers := TimerNumbers(sc, i, l, e);
      OutcomeStreams(sc, i, l, e, s1, f, timers, s', rs);
    } else if e.fn.ToCaller? {
      RecvStreams(sc, i, l, e);
    } else {
      QuietStreams(sc, i, l, e, s', rs);
    }
  }

  lemma StreamedFire(sc: Scenario, i: nat, l: Local, e: Pending)
    requires FrameMs(sc) != 0 && sc.Cfg().Timely() && TurnsOk(sc, i, l) && Sound(sc, i, l) && Enabled(l, e)
    requires Streamed(sc, i, l)
    ensures Streamed(sc, i, FireLocal(Reactor(sc), sc.Cfg(), i, l, e))
  {
    var (s', rs) := React(sc, i, e.deliverAt, l.s, e.fn);
    var l' := FireLocal(Reactor(sc), sc.Cfg(), i, l, e);
    CallbackStreams(sc, i, l, e, s', rs);
    StreamIdles(sc.profile, sc.rngs(i), s'.link, s'.trace, l'.s.trace, l'.m, l'.m);
  }

  // ---- two sessions that draw alike ----

  lemma EarlierFate(p: Profile, g: Rng, q: Link, fs: seq<Frame>, nows: seq<int>, k: nat)
    requires |fs| == |nows| && k < |fs| - 1
    ensures Fates(p, g, q, fs, nows)[k] == Fates(p, g, q, fs[..|fs| - 1], nows[..|fs| - 1])[k]
  {}

  lemma LastFate(p: Profile, g: Rng, q: Link, fs: seq<Frame>, nows: seq<int>)
    requires |fs| == |nows| && fs != []
    ensures var n := |fs| - 1;
            Fates(p, g, q, fs, nows)[n] == Delay(p, g, SendAll(p, g, q, fs[..n], nows[..n]), fs[n], nows[n]).1
  {}

  /** Frame k meets the link as the ones before it left it. */
  lemma {:induction false} FateAt(p: Profile, g: Rng, q: Link, fs: seq<Frame>, nows: seq<int>, k: nat)
    requires |fs| == |nows| && k < |fs|
    ensures Fates(p, g, q, fs, nows)[k] == Delay(p, g, SendAll(p, g, q, fs[..k], nows[..k]), fs[k], nows[k]).1
  {
    var n := |fs| - 1;
    if k < n {
      FateAt(p, g, q, fs[..n], nows[..n], k);
      EarlierFate(p, g, q, fs, nows, k);
      var gs, laters := fs[..n], nows[..n];
      assert gs[..k] == fs[..k] && laters[..k] == nows[..k] && gs[k] == fs[k] && laters[k] == nows[k];
    } else {
      LastFate(p, g, q, fs, nows);
    }
  }

  lemma {:induction false} LossesAreFates(p: Profile, g: Rng, q: Link, fs: seq<Frame>, nows: seq<int>, k: nat)
    requires |fs| == |nows| && k < |fs|
    ensures Losses(p, g, q, fs, nows)[k] == Fates(p, g, q, fs, nows)[k].None?
  {
    var n := |fs| - 1;
    if k < n {
      LossesAreFates(p, g, q, fs[..n], nows[..n], k);
    }
  }

  lemma {:induction false} ChosenIs(fs: seq<Frame>, lost: seq<bool>, q: nat)
    requires |fs| == |lost| && q < |fs| && InSequence(fs)
    ensures fs[q] in Chosen(fs, lost) <==> lost[q]
    ensures forall f | f in Chosen(fs, lost) :: 0 <= f.seqNo < |fs|
  {
    var n := |fs| - 1;
    if q < n {
      ChosenIs(fs[..n], lost[..n], q);
    } else {
      ChosenBelow(fs[..n], lost[..n]);
    }
  }

  lemma {:induction false} ChosenBelow(fs: seq<Frame>, lost: seq<bool>)
    requires |fs| == |lost| && InSequence(fs)
    ensures forall f | f in Chosen(fs, lost) :: 0 <= f.seqNo < |fs|
  {
    if fs != [] {
      var n := |fs| - 1;
      ChosenBelow(fs[..n], lost[..n]);
    }
  }

  /** The link remembers exactly the frames its folding loses. */
  lemma DroppedIsLost(p: Profile, g: Rng, q: Link, t: Trace, k: nat)
    requires Folded(p, g, q, t) && InSequence(t.sent) && k < |t.sent|
    ensures t.sent[k] in q.dropped <==> FatesOf(p, g, t)[k].None?
  {
    LossesByPosition(p, g, FRESH_LINK, t.sent, t.sentAt, FRESH_LINK, t.sent, t.sentAt);
    var lost := Losses(p, g, FRESH_LINK, t.sent, t.sentAt);
    ChosenIs(t.sent, lost, k);
    LossesAreFates(p, g, FRESH_LINK, t.sent, t.sentAt, k);
    assert q.dropped == [] + Chosen(t.sent, lost);
  }

  /** Frames in the same place of two streams through links alike are lost alike. */
  lemma FatesAlike(p: Profile, g: Rng, fs: seq<Frame>, nows: seq<int>, gs: seq<Frame>, laters: seq<int>, k: nat)
    requires |fs| == |nows| && |gs| == |laters| && k < |fs| && k < |gs|
    ensures var a, b := Fates(p, g, FRESH_LINK, fs, nows)[k], Fates(p, g, FRESH_LINK, gs, laters)[k];
            && a.None? == b.None?
            && (p.bandwidthBps == 0 && p.Valid() && a.Some? ==> a.value - nows[k] == b.value - laters[k])
  {
    FateAt(p, g, FRESH_LINK, fs, nows, k);
    FateAt(p, g, FRESH_LINK, gs, laters, k);
    LossesByPosition(p, g, FRESH_LINK, fs[..k], nows[..k], FRESH_LINK, gs[..k], laters[..k]);
    ShapedAlike(p, g, SendAll(p, g, FRESH_LINK, fs[..k], nows[..k]), fs[k], nows[k],
                SendAll(p, g, FRESH_LINK, gs[..k], laters[..k]), gs[k], laters[k]);
  }

  /** Two links that will draw the same lose alike; unlimited, they delay alike. */
  lemma ShapedAlike(p: Profile, g: Rng, q: Link, f: Frame, now: int, r: Link, h: Frame, later: int)
    requires q.draws == r.draws && q.bad == r.bad
    ensures var a, b := Delay(p, g, q, f, now).1, Delay(p, g, r, h, later).1;
            && a.None? == b.None?
            && (p.bandwidthBps == 0 && p.Valid() && a.Some? ==> a.value - now == b.value - later)
  {
    LostAlike(p, g, q, f, now, r, h, later);
  }
}
