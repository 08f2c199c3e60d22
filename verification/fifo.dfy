/** When the downlink is first in, first out (internal/impair/impair.go:167-188). */
module FifoDownlink {
  import opened Audio
  import opened Basics
  import opened Impair
  import opened Clock
  import opened Scenarios
  import opened AgentProto
  import opened CallerSession
  import opened Engine
  import opened SessionView
  import opened Soundness
  import opened TurnProtocol

  /** Either the bandwidth backlog orders deliveries, or nothing varies the delay. */
  predicate OrderingProfile(p: Profile) {
    p.bandwidthBps > 0 || (p.jitterMs == 0 && p.reorderProb <= 0.0)
  }

  /** An ordering profile, with frame sizes that make sense of its bandwidth: no other orders them, as
      BandwidthBound.OrderNeedsSizes shows. */
  predicate OrderingLink(sc: Scenario) {
    OrderingProfile(sc.profile) && (sc.profile.bandwidthBps > 0 ==> sc.agent.payloadLen >= 0)
  }

  /** Kept frame k, on its way. */
  function Flight(i: nat, kept: seq<Frame>, due: seq<int>, k: nat): Pending
    requires k < |kept| == |due|
  {
    Event(due[k], kept[k].seqNo, i, ToCaller(kept[k]))
  }

  /** Kept frames are numbered and due in send order; the received ones are a prefix. */
  ghost predicate InOrderSoFar(t: Trace) {
    && |t.due| == |t.kept| && |t.got| <= |t.kept|
    && t.got == t.kept[..|t.got|] && t.gotAt == t.due[..|t.got|]
    && (forall j, k | 0 <= j < k < |t.kept| :: t.kept[j].seqNo < t.kept[k].seqNo && t.due[j] <= t.due[k])
    && (forall k | 0 <= k < |t.kept| :: 0 <= t.kept[k].seqNo < |t.sent|)
  }

  /** The next frame cannot be due before the last one kept. */
  ghost predicate Backlogged(p: Profile, now: int, q: Link, due: seq<int>) {
    && q.remainder >= 0
    && (p.bandwidthBps > 0 ==> q.hasLast == (due != []) && (due != [] ==> q.lastDelivery == due[|due| - 1]))
    && (p.bandwidthBps == 0 ==> forall k | 0 <= k < |due| :: due[k] <= now + p.addedLatencyMs)
  }

  /** The deliveries on the heap are exactly the kept frames not yet received, once each. */
  ghost predicate InFlight(i: nat, t: Trace, m: multiset<Pending>)
    requires |t.due| == |t.kept|
  {
    && (forall k: nat | |t.got| <= k < |t.kept| :: Flight(i, t.kept, t.due, k) in m)
    && (forall e | e in m && e.fn.ToCaller? ::
          m[e] == 1 && exists k: nat :: |t.got| <= k < |t.kept| && e == Flight(i, t.kept, t.due, k))
  }

  ghost predicate Fifo(sc: Scenario, i: nat, l: Local) {
    && InOrderSoFar(l.s.trace)
    && Backlogged(sc.profile, l.now, l.s.link, l.s.trace.due)
    && InFlight(i, l.s.trace, l.m)
  }

  lemma ChargeIsNonNegative(bits: int, bps: int)
    requires bits >= 0 && bps > 0
    ensures ChargeMs(bits, bps) >= 0 && CarryBits(bits, bps) >= 0
  {
    var d := bits * 1000 / bps;
    assert d * bps <= bits * 1000;
    assert d * bps >= 0;
    assert d * bps / 1000 <= bits;
  }

  /** A delivery time is never before the send, nor before the previous delivery. */
  lemma DueInOrder(p: Profile, g: Rng, q: Link, f: Frame, now: int, due: seq<int>)
    requires p.Valid() && OrderingProfile(p) && (p.bandwidthBps > 0 ==> f.payloadLen >= 0) && Backlogged(p, now, q, due)
    ensures var (q', at) := Delay(p, g, q, f, now);
            match at
            case None => Backlogged(p, now, q', due)
            case Some(d) => d >= now && (due != [] && p.bandwidthBps > 0 ==> due[|due| - 1] <= d)
                            && (p.bandwidthBps == 0 ==> d == now + p.addedLatencyMs)
                            && Backlogged(p, now, q', due + [d])
  {
    var (q1, lost) := LossStep(p, g, q);
    if !lost {
      var (q2, at) := ShapeStep(p, g, q1, now);
      if p.bandwidthBps > 0 {
        ChargeIsNonNegative(q2.remainder + f.payloadLen * 8, p.bandwidthBps);
      }
    }
  }

  /** From m to m', deliveries to the caller change by losing e and gaining `added`; each is there once. */
  ghost predicate DeliveriesMove(m: multiset<Pending>, e: Pending, added: seq<Pending>, m': multiset<Pending>) {
    forall x: Pending | x.fn.ToCaller? ::
      && (x in m' <==> (x in m && x != e) || x in added)
      && (x in m' ==> m'[x] == 1)
  }

  lemma DeliveriesMoveBy(i: nat, t: Trace, m: multiset<Pending>, e: Pending, added: seq<Pending>)
    requires |t.due| == |t.kept| && InFlight(i, t, m) && e in m
    requires (forall x | x in added :: !x.fn.ToCaller?) || (|added| == 1 && added[0] !in m)
    ensures DeliveriesMove(m, e, added, m - multiset{e} + multiset(added))
  {
    var m' := m - multiset{e} + multiset(added);
    forall x: Pending | x.fn.ToCaller?
      ensures (x in m' <==> (x in m && x != e) || x in added) && (x in m' ==> m'[x] == 1)
    {
      assert x in multiset(added) <==> x in added;
      if x in added {
        assert added == [x];
      }
    }
  }

  /** Deliveries stand still when neither the fired event nor the new ones are deliveries. */
  lemma FlightIdle(i: nat, t: Trace, t': Trace, m: multiset<Pending>, e: Pending, added: seq<Pending>)
    requires |t.due| == |t.kept| && InFlight(i, t, m) && e in m && !e.fn.ToCaller?
    requires t'.kept == t.kept && t'.due == t.due && t'.got == t.got
    requires forall x | x in added :: !x.fn.ToCaller?
    ensures InFlight(i, t', m - multiset{e} + multiset(added))
  {
    var m' := m - multiset{e} + multiset(added);
    DeliveriesMoveBy(i, t, m, e, added);
    assert forall k: nat | k < |t.kept| :: Flight(i, t'.kept, t'.due, k) == Flight(i, t.kept, t.due, k);
    forall x | x in m' && x.fn.ToCaller?
      ensures m'[x] == 1 && exists k: nat :: |t'.got| <= k < |t'.kept| && x == Flight(i, t'.kept, t'.due, k)
    {
      var k: nat :| |t.got| <= k < |t.kept| && x == Flight(i, t.kept, t.due, k);
      assert x == Flight(i, t'.kept, t'.due, k);
    }
  }

  lemma FlightNumbers(i: nat, t: Trace, m: multiset<Pending>)
    requires InOrderSoFar(t) && InFlight(i, t, m)
    ensures forall x | x in m && x.fn.ToCaller? :: x.seqNo < |t.sent|
  {
    forall x | x in m && x.fn.ToCaller? ensures x.seqNo < |t.sent| {
      var k: nat :| |t.got| <= k < |t.kept| && x == Flight(i, t.kept, t.due, k);
    }
  }

  /** A kept frame joins the deliveries. */
  lemma FlightGrows(i: nat, t: Trace, t': Trace, m: multiset<Pending>, e: Pending, f: Frame, d: int)
    requires InOrderSoFar(t) && InFlight(i, t, m) && e in m && !e.fn.ToCaller? && f.seqNo == |t.sent|
    requires t'.kept == t.kept + [f] && t'.due == t.due + [d] && t'.got == t.got
    ensures InFlight(i, t', m - multiset{e} + multiset([Event(d, f.seqNo, i, ToCaller(f))]))
  {
    var x0 := Event(d, f.seqNo, i, ToCaller(f));
    var m' := m - multiset{e} + multiset([x0]);
    FlightNumbers(i, t, m);
    DeliveriesMoveBy(i, t, m, e, [x0]);
    assert forall k: nat | k < |t.kept| :: Flight(i, t'.kept, t'.due, k) == Flight(i, t.kept, t.due, k);
    assert Flight(i, t'.kept, t'.due, |t.kept|) == x0;
    forall x | x in m' && x.fn.ToCaller?
      ensures m'[x] == 1 && exists k: nat :: |t'.got| <= k < |t'.kept| && x == Flight(i, t'.kept, t'.due, k)
    {
      if x != x0 {
        var k: nat :| |t.got| <= k < |t.kept| && x == Flight(i, t.kept, t.due, k);
        assert x == Flight(i, t'.kept, t'.due, k);
      }
    }
  }

  lemma NextInFlight(i: nat, t: Trace, m: multiset<Pending>)
    requires |t.due| == |t.kept| && InFlight(i, t, m)
    ensures |t.got| < |t.kept| ==> Flight(i, t.kept, t.due, |t.got|) in m
  {}

  lemma OlderSortsFirst(i: nat, t: Trace, j: nat, k: nat)
    requires InOrderSoFar(t) && j <= k < |t.kept|
    ensures j == k || Less(Flight(i, t.kept, t.due, j), Flight(i, t.kept, t.due, k))
  {}

  /** The delivery that fires is the oldest kept frame not yet received. */
  lemma OldestArrives(i: nat, t: Trace, m: multiset<Pending>, e: Pending)
    requires InOrderSoFar(t) && InFlight(i, t, m) && e in m && e.fn.ToCaller? && forall x | x in m :: !Less(x, e)
    ensures |t.got| < |t.kept| && e == Flight(i, t.kept, t.due, |t.got|)
  {
    var k: nat :| |t.got| <= k < |t.kept| && e == Flight(i, t.kept, t.due, k);
    NextInFlight(i, t, m);
    OlderSortsFirst(i, t, |t.got|, k);
  }

  lemma OrderLands(i: nat, t: Trace, t': Trace, e: Pending)
    requires InOrderSoFar(t) && |t.got| < |t.kept| && e == Flight(i, t.kept, t.due, |t.got|)
    requires t'.kept == t.kept && t'.due == t.due && t'.sent == t.sent
    requires t'.got == t.got + [e.fn.frame] && t'.gotAt == t.gotAt + [e.deliverAt]
    ensures InOrderSoFar(t')
  {
    assert t.kept[..|t.got| + 1] == t.kept[..|t.got|] + [t.kept[|t.got|]];
    assert t.due[..|t.got| + 1] == t.due[..|t.got|] + [t.due[|t.got|]];
  }

  lemma FlightLands(i: nat, t: Trace, t': Trace, m: multiset<Pending>, e: Pending, added: seq<Pending>)
    requires |t.due| == |t.kept| && |t.got| < |t.kept| && e == Flight(i, t.kept, t.due, |t.got|)
    requires InFlight(i, t, m) && e in m
    requires forall j, k | 0 <= j < k < |t.kept| :: t.kept[j].seqNo < t.kept[k].seqNo
    requires t'.kept == t.kept && t'.due == t.due && |t'.got| == |t.got| + 1
    requires forall x | x in added :: !x.fn.ToCaller?
    ensures InFlight(i, t', m - multiset{e} + multiset(added))
  {
    var m' := m - multiset{e} + multiset(added);
    DeliveriesMoveBy(i, t, m, e, added);
    forall k: nat | |t'.got| <= k < |t'.kept| ensures Flight(i, t'.kept, t'.due, k) in m' {
      assert Flight(i, t.kept, t.due, k) in m;
    }
    forall x | x in m' && x.fn.ToCaller?
      ensures m'[x] == 1 && exists k: nat :: |t'.got| <= k < |t'.kept| && x == Flight(i, t'.kept, t'.due, k)
    {
      var k: nat :| |t.got| <= k < |t.kept| && x == Flight(i, t.kept, t.due, k);
      assert x == Flight(i, t'.kept, t'.due, k);
    }
  }

  // ---- each callback keeps the order ----

  ghost predicate FifoAfter(sc: Scenario, i: nat, l: Local, e: Pending, s': Sess, rs: seq<Request>) {
    && InOrderSoFar(s'.trace)
    && Backlogged(sc.profile, e.deliverAt, s'.link, s'.trace.due)
    && InFlight(i, s'.trace, l.m - multiset{e} + multiset(Stamped(e.deliverAt, i, rs)))
  }

  lemma NoDeliveries(now: int, i: nat, rs: seq<Request>)
    requires forall r | r in rs :: !r.fn.ToCaller?
    ensures forall x | x in Stamped(now, i, rs) :: !x.fn.ToCaller?
  {
    forall x | x in Stamped(now, i, rs) ensures !x.fn.ToCaller? {
      StampedIn(now, i, rs, x);
    }
  }

  lemma IdleFifo(sc: Scenario, i: nat, l: Local, e: Pending, s': Sess, rs: seq<Request>)
    requires Fifo(sc, i, l) && e in l.m && l.now <= e.deliverAt && !e.fn.ToCaller?
    requires s'.link == l.s.link
    requires s'.trace == l.s.trace.(heard := s'.trace.heard, heardAt := s'.trace.heardAt, turns := s'.trace.turns)
    requires forall r | r in rs :: !r.fn.ToCaller?
    ensures FifoAfter(sc, i, l, e, s', rs)
  {
    NoDeliveries(e.deliverAt, i, rs);
    FlightIdle(i, l.s.trace, s'.trace, l.m, e, Stamped(e.deliverAt, i, rs));
  }

  lemma RecvFifo(sc: Scenario, i: nat, l: Local, e: Pending)
    requires FrameMs(sc) != 0 && Fifo(sc, i, l) && Enabled(l, e) && l.now <= e.deliverAt && e.fn.ToCaller?
    ensures var r := RecvFrame(sc, e.deliverAt, l.s, e.fn.frame); FifoAfter(sc, i, l, e, r.0, r.1)
  {
    var (s', rs) := RecvFrame(sc, e.deliverAt, l.s, e.fn.frame);
    assert forall r | r in rs :: r.fn.CallerSpeaks?;
    NoDeliveries(e.deliverAt, i, rs);
    OldestArrives(i, l.s.trace, l.m, e);
    OrderLands(i, l.s.trace, s'.trace, e);
    FlightLands(i, l.s.trace, s'.trace, l.m, e, Stamped(e.deliverAt, i, rs));
  }

  /** A kept frame numbered after the others and due no earlier keeps the order. */
  lemma KeptInOrder(t: Trace, t': Trace, f: Frame, d: int)
    requires InOrderSoFar(t) && f.seqNo == |t.sent| && (t.due != [] ==> t.due[|t.due| - 1] <= d)
    requires t'.sent == t.sent + [f] && t'.kept == t.kept + [f] && t'.due == t.due + [d]
    requires t'.got == t.got && t'.gotAt == t.gotAt
    ensures InOrderSoFar(t')
  {
    var n := |t.kept|;
    assert t'.kept[..n] == t.kept && t'.due[..n] == t.due;
    assert t'.kept[..|t.got|] == t.kept[..|t.got|] && t'.due[..|t.got|] == t.due[..|t.got|];
    forall j, k | 0 <= j < k < n + 1 ensures t'.kept[j].seqNo < t'.kept[k].seqNo && t'.due[j] <= t'.due[k] {
      if k == n {
        assert t.due[j] <= t.due[n - 1];
      }
    }
  }

  lemma LostInOrder(t: Trace, t': Trace, f: Frame)
    requires InOrderSoFar(t) && t'.sent == t.sent + [f] && t'.kept == t.kept && t'.due == t.due
    requires t'.got == t.got && t'.gotAt == t.gotAt
    ensures InOrderSoFar(t')
  {}

  lemma OrderSends(sc: Scenario, i: nat, now: int, s: Sess, f: Frame)
    requires sc.profile.Valid() && OrderingProfile(sc.profile) && (sc.profile.bandwidthBps > 0 ==> f.payloadLen >= 0)
    requires InOrderSoFar(s.trace) && Backlogged(sc.profile, now, s.link, s.trace.due) && f.seqNo == |s.trace.sent|
    requires sc.profile.bandwidthBps == 0
             ==> forall k | 0 <= k < |s.trace.due| :: s.trace.due[k] <= now + sc.profile.addedLatencyMs
    ensures var (s', rs) := SendDown(sc, i, now, s, f);
            && InOrderSoFar(s'.trace) && Backlogged(sc.profile, now, s'.link, s'.trace.due)
            && s'.trace.got == s.trace.got
            && (if rs == [] then s'.trace.kept == s.trace.kept && s'.trace.due == s.trace.due
                else var due := Delay(sc.profile, sc.rngs(i), s.link, f, now).1;
                     && due.Some? && due.value >= now && rs == [Request(due.value, f.seqNo, ToCaller(f))]
                     && s'.trace.kept == s.trace.kept + [f] && s'.trace.due == s.trace.due + [due.value])
  {
    var (link, due) := Delay(sc.profile, sc.rngs(i), s.link, f, now);
    DueInOrder(sc.profile, sc.rngs(i), s.link, f, now, s.trace.due);
    var t' := SendDown(sc, i, now, s, f).0.trace;
    if due.Some? {
      KeptInOrder(s.trace, t', f, due.value);
    } else {
      LostInOrder(s.trace, t', f);
    }
  }

  /** Sending a frame numbered after all earlier ones keeps the order. */
  lemma SendFifo(sc: Scenario, i: nat, l: Local, e: Pending, s: Sess, f: Frame)
    requires sc.profile.Valid() && OrderingProfile(sc.profile) && (sc.profile.bandwidthBps > 0 ==> f.payloadLen >= 0)
    requires Fifo(sc, i, l) && e in l.m && l.now <= e.deliverAt && !e.fn.ToCaller?
    requires s.link == l.s.link && s.trace == l.s.trace.(turns := s.trace.turns) && f.seqNo == |s.trace.sent|
    ensures var r := SendDown(sc, i, e.deliverAt, s, f); FifoAfter(sc, i, l, e, r.0, r.1)
  {
    var now := e.deliverAt;
    var (s', rs) := SendDown(sc, i, now, s, f);
    OrderSends(sc, i, now, s, f);
    if rs == [] {
      assert Stamped(now, i, rs) == [];
      FlightIdle(i, l.s.trace, s'.trace, l.m, e, []);
    } else {
      var d := Delay(sc.profile, sc.rngs(i), s.link, f, now).1.value;
      KeptFlies(i, l, e, l.s.trace, s'.trace, f, d, rs);
    }
  }

  lemma KeptFlies(i: nat, l: Local, e: Pending, t: Trace, t': Trace, f: Frame, d: int, rs: seq<Request>)
    requires InOrderSoFar(t) && InFlight(i, t, l.m) && e in l.m && !e.fn.ToCaller? && f.seqNo == |t.sent|
    requires d >= e.deliverAt && rs == [Request(d, f.seqNo, ToCaller(f))]
    requires t'.kept == t.kept + [f] && t'.due == t.due + [d] && t'.got == t.got
    ensures InFlight(i, t', l.m - multiset{e} + multiset(Stamped(e.deliverAt, i, rs)))
  {
    assert Stamped(e.deliverAt, i, rs) == [Event(d, f.seqNo, i, ToCaller(f))];
    FlightGrows(i, t, t', l.m, e, f, d);
  }

  lemma TimerFifo(sc: Scenario, i: nat, l: Local, e: Pending)
    requires sc.Valid() && FrameMs(sc) != 0 && OrderingLink(sc)
    requires Fifo(sc, i, l) && Sound(sc, i, l) && TurnsOk(sc, i, l) && Enabled(l, e) && e.fn.IsTimer()
    ensures var r := React(sc, i, e.deliverAt, l.s, e.fn); FifoAfter(sc, i, l, e, r.0, r.1)
  {
    ValidIsTimely(sc);
    SendsAreNumbered(sc, i, l, e);
    assert SoundEvent(sc, i, l.now, l.s, e);
    match e.fn
    case Respond(gen, at) => RespondFifo(sc, i, l, e);
    case OpenTurn(seqNo, ts) =>
      SendFifo(sc, i, l, e, l.s.(trace := MarkStarted(l.s.trace)), Control(TurnStart, seqNo, ts));
    case EmitFrame(turn, _, ts) => EmitFrameFifo(sc, i, l, e);
    case EmitEnd(turn, endTs) => EmitEndFifo(sc, i, l, e);
  }

  lemma EmitEndFifo(sc: Scenario, i: nat, l: Local, e: Pending)
    requires sc.Valid() && OrderingLink(sc) && l.now <= e.deliverAt
    requires Fifo(sc, i, l) && Enabled(l, e) && e.fn.EmitEnd?
    requires e.fn.turn == l.s.agent.turn && !l.s.agent.ended ==> l.s.agent.seqNo == |l.s.trace.sent|
    ensures var r := EmitEndNow(sc, i, e.deliverAt, l.s, e.fn.turn, e.fn.endTs); FifoAfter(sc, i, l, e, r.0, r.1)
  {
    var (a, f) := EmitTurnEnd(l.s.agent, e.fn.turn, e.fn.endTs);
    if f.Some? {
      SendFifo(sc, i, l, e, l.s.(agent := a), f.value);
    } else {
      IdleFifo(sc, i, l, e, l.s.(agent := a), []);
    }
  }

  lemma RespondFifo(sc: Scenario, i: nat, l: Local, e: Pending)
    requires l.now <= e.deliverAt && Fifo(sc, i, l) && e in l.m && e.fn.Respond?
    ensures var r := StartTurn(sc, l.s, e.fn.gen, e.fn.at); FifoAfter(sc, i, l, e, r.0, r.1)
  {
    var (s', rs) := StartTurn(sc, l.s, e.fn.gen, e.fn.at);
    StartTouches(sc, l.s, e.fn.gen, e.fn.at);
    IdleFifo(sc, i, l, e, s', rs);
  }

  lemma EmitFrameFifo(sc: Scenario, i: nat, l: Local, e: Pending)
    requires sc.Valid() && OrderingLink(sc) && l.now <= e.deliverAt
    requires Fifo(sc, i, l) && Enabled(l, e) && e.fn.EmitFrame?
    requires e.fn.turn == l.s.agent.turn && l.s.agent.talking ==> l.s.agent.seqNo == |l.s.trace.sent|
    ensures var r := EmitFrameNow(sc, i, e.deliverAt, l.s, e.fn.turn, e.fn.ts); FifoAfter(sc, i, l, e, r.0, r.1)
  {
    var (a, f) := EmitAgentFrame(sc.Cfg(), l.s.agent, e.fn.turn, e.fn.ts);
    var s := l.s.(agent := a, trace := MarkFired(l.s.trace, l.s.agent, e.fn.turn));
    if f.Some? {
      SendFifo(sc, i, l, e, s, f.value);
    } else {
      IdleFifo(sc, i, l, e, s, []);
    }
  }

  lemma CallbackFifo(sc: Scenario, i: nat, l: Local, e: Pending)
    requires sc.Valid() && FrameMs(sc) != 0 && OrderingLink(sc)
    requires Fifo(sc, i, l) && Sound(sc, i, l) && TurnsOk(sc, i, l) && Enabled(l, e)
    ensures var r := React(sc, i, e.deliverAt, l.s, e.fn); FifoAfter(sc, i, l, e, r.0, r.1)
  {
    assert SoundEvent(sc, i, l.now, l.s, e);
    if e.fn.IsTimer() {
      TimerFifo(sc, i, l, e);
    } else if e.fn.ToCaller? {
      RecvFifo(sc, i, l, e);
    } else if e.fn.ToAgent? {
      var r := HearFrame(sc, e.deliverAt, l.s, e.fn.frame);
      IdleFifo(sc, i, l, e, r.0, r.1);
    } else {
      var r := React(sc, i, e.deliverAt, l.s, e.fn);
      IdleFifo(sc, i, l, e, r.0, r.1);
    }
  }

  lemma CountingIsIrrelevant(i: nat, t: Trace, n: nat, m: multiset<Pending>)
    requires InOrderSoFar(t) && InFlight(i, t, m)
    ensures InOrderSoFar(t.(fired := n)) && InFlight(i, t.(fired := n), m)
  {
    var t' := t.(fired := n);
    forall x | x in m && x.fn.ToCaller?
      ensures m[x] == 1 && exists k: nat :: |t'.got| <= k < |t'.kept| && x == Flight(i, t'.kept, t'.due, k)
    {
      var k: nat :| |t.got| <= k < |t.kept| && x == Flight(i, t.kept, t.due, k);
      assert x == Flight(i, t'.kept, t'.due, k);
    }
  }

  lemma FifoFire(sc: Scenario, i: nat, l: Local, e: Pending)
    requires sc.Valid() && FrameMs(sc) != 0 && OrderingLink(sc)
    requires Fifo(sc, i, l) && Sound(sc, i, l) && TurnsOk(sc, i, l) && Enabled(l, e)
    ensures Fifo(sc, i, FireLocal(Reactor(sc), sc.Cfg(), i, l, e))
  {
    CallbackFifo(sc, i, l, e);
    var r := React(sc, i, e.deliverAt, l.s, e.fn);
    var l' := FireLocal(Reactor(sc), sc.Cfg(), i, l, e);
    CountingIsIrrelevant(i, r.0.trace, l'.s.trace.fired, l'.m);
  }

  lemma FifoWait(sc: Scenario, i: nat, l: Local, t: int)
    requires Fifo(sc, i, l) && Waits(l, t)
    ensures Fifo(sc, i, l.(now := t))
  {}

  /** Without loss every frame sent is kept. */
  ghost predicate AllKept(sc: Scenario, l: Local) {
    sc.profile.Lossless() ==> l.s.trace.kept == l.s.trace.sent
  }

  lemma LosslessSend(sc: Scenario, i: nat, now: int, s: Sess, f: Frame)
    requires sc.profile.Lossless()
    ensures SendDown(sc, i, now, s, f).0.trace.kept == s.trace.kept + [f]
    ensures SendDown(sc, i, now, s, f).0.trace.sent == s.trace.sent + [f]
  {}

  lemma AllKeptTimer(sc: Scenario, i: nat, now: int, s: Sess, cb: Callback)
    requires FrameMs(sc) != 0 && sc.profile.Lossless() && s.trace.kept == s.trace.sent && cb.IsTimer()
    ensures var t := React(sc, i, now, s, cb).0.trace; t.kept == t.sent
  {
    match cb
    case Respond(_, _) =>
    case OpenTurn(seqNo, ts) =>
      LosslessSend(sc, i, now, s.(trace := MarkStarted(s.trace)), Control(TurnStart, seqNo, ts));
    case EmitFrame(turn, _, ts) =>
      var (a, f) := EmitAgentFrame(sc.Cfg(), s.agent, turn, ts);
      if f.Some? {
        LosslessSend(sc, i, now, s.(agent := a, trace := MarkFired(s.trace, s.agent, turn)), f.value);
      }
    case EmitEnd(turn, endTs) =>
      var (a, f) := EmitTurnEnd(s.agent, turn, endTs);
      if f.Some? {
        LosslessSend(sc, i, now, s.(agent := a), f.value);
      }
  }

  lemma AllKeptFire(sc: Scenario, i: nat, l: Local, e: Pending)
    requires FrameMs(sc) != 0 && AllKept(sc, l)
    ensures AllKept(sc, FireLocal(Reactor(sc), sc.Cfg(), i, l, e))
  {
    if sc.profile.Lossless() {
      AllKeptReact(sc, i, e.deliverAt, l.s, e.fn);
    }
  }

  lemma AllKeptReact(sc: Scenario, i: nat, now: int, s: Sess, cb: Callback)
    requires FrameMs(sc) != 0 && sc.profile.Lossless() && s.trace.kept == s.trace.sent
    ensures var t := React(sc, i, now, s, cb).0.trace; t.kept == t.sent
  {
    if cb.IsTimer() {
      AllKeptTimer(sc, i, now, s, cb);
    }
  }
}
