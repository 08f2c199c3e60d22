/** In which order frames arrive, on any link: by time, and within a millisecond by number
    (internal/clock/clock.go:55-64, internal/transport/loopback.go:94-114). */
module Arrivals {
  import opened Audio
  import opened Basics
  import opened Clock
  import opened Scenarios
  import opened AgentProto
  import opened CallerSession
  import opened Engine
  import opened SessionView
  import opened Soundness
  import opened TurnProtocol
  import opened Conservation

  predicate NotLater(at: int, n: int, at': int, n': int) { at < at' || (at == at' && n <= n') }

  /** What was received came by time and number, and is ahead of every delivery still pending. */
  ghost predicate Arrived(now: int, t: Trace, m: multiset<Pending>) {
    && |t.gotAt| == |t.got|
    && (forall k | 0 <= k < |t.got| :: t.got[k].seqNo < |t.sent| && t.gotAt[k] <= now)
    && (forall j, k | 0 <= j < k < |t.got| :: NotLater(t.gotAt[j], t.got[j].seqNo, t.gotAt[k], t.got[k].seqNo))
    && (forall e | e in m && e.fn.ToCaller? ::
          && e.seqNo == e.fn.frame.seqNo < |t.sent|
          && forall k | 0 <= k < |t.got| :: NotLater(t.gotAt[k], t.got[k].seqNo, e.deliverAt, e.seqNo))
  }

  ghost predicate ArrivedBy(l: Local) { Arrived(l.now, l.s.trace, l.m) }

  /** Nothing is received; a delivery that is new carries the number of the frame just sent. */
  lemma Departs(now: int, now': int, t: Trace, t': Trace, m: multiset<Pending>, m': multiset<Pending>)
    requires Arrived(now, t, m) && now <= now' && t'.got == t.got && t'.gotAt == t.gotAt && |t.sent| <= |t'.sent|
    requires forall x | x in m' && x.fn.ToCaller? ::
               x in m || (x.deliverAt >= now' && x.seqNo == x.fn.frame.seqNo == |t.sent| < |t'.sent|)
    ensures Arrived(now', t', m')
  {}

  /** The least pending event delivers its frame. */
  lemma Arrives(now: int, t: Trace, t': Trace, m: multiset<Pending>, e: Pending, m': multiset<Pending>)
    requires Arrived(now, t, m) && now <= e.deliverAt && e in m && (forall x | x in m :: !Less(x, e)) && e.fn.ToCaller?
    requires t'.sent == t.sent && t'.got == t.got + [e.fn.frame] && t'.gotAt == t.gotAt + [e.deliverAt]
    requires forall x | x in m' && x.fn.ToCaller? :: x in m
    ensures Arrived(e.deliverAt, t', m')
  {}

  /** What is pending after e gave way to the requests rs was pending before, or was requested. */
  lemma PendingAfter(m: multiset<Pending>, e: Pending, now: int, i: nat, rs: seq<Request>, x: Pending)
    requires e in m && x in m - multiset{e} + multiset(Stamped(now, i, rs))
    ensures x in m || exists r :: r in rs && x == Stamp(now, i, r)
  {
    if x !in m {
      assert x in Stamped(now, i, rs);
      StampedIn(now, i, rs, x);
      var k :| 0 <= k < |rs| && x == Stamp(now, i, rs[k]);
      assert rs[k] in rs;
    }
  }

  ghost function After(l: Local, e: Pending, i: nat, rs: seq<Request>): multiset<Pending> {
    l.m - multiset{e} + multiset(Stamped(e.deliverAt, i, rs))
  }

  lemma QuietArrives(i: nat, l: Local, e: Pending, t': Trace, rs: seq<Request>)
    requires ArrivedBy(l) && e in l.m && l.now <= e.deliverAt && forall r | r in rs :: !r.fn.ToCaller?
    requires t'.got == l.s.trace.got && t'.gotAt == l.s.trace.gotAt && t'.sent == l.s.trace.sent
    ensures Arrived(e.deliverAt, t', After(l, e, i, rs))
  {
    forall x | x in After(l, e, i, rs) && x.fn.ToCaller? ensures x in l.m {
      PendingAfter(l.m, e, e.deliverAt, i, rs, x);
    }
    Departs(l.now, e.deliverAt, l.s.trace, t', l.m, After(l, e, i, rs));
  }

  lemma RecvArrives(sc: Scenario, i: nat, l: Local, e: Pending)
    requires FrameMs(sc) != 0 && ArrivedBy(l) && Enabled(l, e) && l.now <= e.deliverAt && e.fn.ToCaller?
    ensures var (s', rs) := RecvFrame(sc, e.deliverAt, l.s, e.fn.frame);
            Arrived(e.deliverAt, s'.trace, After(l, e, i, rs))
  {
    var (s', rs) := RecvFrame(sc, e.deliverAt, l.s, e.fn.frame);
    forall x | x in After(l, e, i, rs) && x.fn.ToCaller? ensures x in l.m {
      PendingAfter(l.m, e, e.deliverAt, i, rs, x);
    }
    Arrives(l.now, l.s.trace, s'.trace, l.m, e, After(l, e, i, rs));
  }

  lemma SendArrives(sc: Scenario, i: nat, l: Local, e: Pending, s1: Sess, f: Frame)
    requires ArrivedBy(l) && e in l.m && l.now <= e.deliverAt
    requires s1.trace == l.s.trace.(turns := s1.trace.turns) && f.seqNo == |l.s.trace.sent|
    ensures var (s', rs) := SendDown(sc, i, e.deliverAt, s1, f);
            Arrived(e.deliverAt, s'.trace, After(l, e, i, rs))
  {
    var (s', rs) := SendDown(sc, i, e.deliverAt, s1, f);
    SendKinds(sc, i, e.deliverAt, s1, f);
    forall x | x in After(l, e, i, rs) && x.fn.ToCaller?
      ensures x in l.m || (x.deliverAt >= e.deliverAt
                           && x.seqNo == x.fn.frame.seqNo == |l.s.trace.sent| < |s'.trace.sent|)
    {
      PendingAfter(l.m, e, e.deliverAt, i, rs, x);
    }
    Departs(l.now, e.deliverAt, l.s.trace, s'.trace, l.m, After(l, e, i, rs));
  }

  /** The frame a timer sends, if it sends one, is numbered after all sent before. */
  lemma TimerNumbers(sc: Scenario, i: nat, l: Local, e: Pending)
    returns (s1: Sess, f: Option<Frame>, timers: seq<Request>)
    requires FrameMs(sc) != 0 && sc.Cfg().Timely() && TurnsOk(sc, i, l) && Sound(sc, i, l) && Enabled(l, e)
             && e.fn.IsTimer()
    ensures s1 == l.s.(agent := s1.agent, trace := l.s.trace.(turns := s1.trace.turns))
    ensures forall r | r in timers :: !r.fn.IsDelivery()
    ensures React(sc, i, e.deliverAt, l.s, e.fn)
            == if f.None? then (s1, timers) else SendDown(sc, i, e.deliverAt, s1, f.value)
    ensures f.Some? ==> f.value.seqNo == |l.s.trace.sent| && f.value.ts == e.deliverAt
  {
    s1, f, timers := TimerShape(sc, i, e.deliverAt, l.s, e.fn);
    assert SoundEvent(sc, i, l.now, l.s, e);
    if f.Some? {
      NextNumber(sc, i, l, e, f.value.seqNo);
    }
  }

  lemma NextNumber(sc: Scenario, i: nat, l: Local, e: Pending, n: int)
    requires sc.Cfg().Timely() && TurnsOk(sc, i, l) && Sound(sc, i, l) && Enabled(l, e) && Numbers(l.s.agent, e.fn, n)
    ensures n == |l.s.trace.sent|
  {
    SendsAreNumbered(sc, i, l, e);
  }

  lemma OutcomeArrives(sc: Scenario, i: nat, l: Local, e: Pending, s1: Sess, f: Option<Frame>, timers: seq<Request>,
                       s': Sess, rs: seq<Request>)
    requires ArrivedBy(l) && e in l.m && l.now <= e.deliverAt && forall r | r in timers :: !r.fn.IsDelivery()
    requires s1 == l.s.(agent := s1.agent, trace := l.s.trace.(turns := s1.trace.turns))
    requires f.Some? ==> f.value.seqNo == |l.s.trace.sent|
    requires (s', rs) == if f.None? then (s1, timers) else SendDown(sc, i, e.deliverAt, s1, f.value)
    ensures Arrived(e.deliverAt, s'.trace, After(l, e, i, rs))
  {
    if f.None? {
      QuietArrives(i, l, e, s1.trace, timers);
    } else {
      SendArrives(sc, i, l, e, s1, f.value);
    }
  }

  lemma CallbackArrives(sc: Scenario, i: nat, l: Local, e: Pending, s': Sess, rs: seq<Request>)
    requires FrameMs(sc) != 0 && sc.Cfg().Timely() && TurnsOk(sc, i, l) && Sound(sc, i, l) && Enabled(l, e)
             && ArrivedBy(l)
    requires (s', rs) == React(sc, i, e.deliverAt, l.s, e.fn)
    ensures Arrived(e.deliverAt, s'.trace, After(l, e, i, rs))
  {
    assert SoundEvent(sc, i, l.now, l.s, e);
    if e.fn.IsTimer() {
      var s1, f, timers := TimerNumbers(sc, i, l, e);
      OutcomeArrives(sc, i, l, e, s1, f, timers, s', rs);
    } else if e.fn.ToCaller? {
      RecvArrives(sc, i, l, e);
    } else {
      QuietArrives(i, l, e, s'.trace, rs);
    }
  }

  lemma ArrivedFire(sc: Scenario, i: nat, l: Local, e: Pending)
    requires FrameMs(sc) != 0 && sc.Cfg().Timely() && TurnsOk(sc, i, l) && Sound(sc, i, l) && Enabled(l, e)
             && ArrivedBy(l)
    ensures ArrivedBy(FireLocal(Reactor(sc), sc.Cfg(), i, l, e))
  {
    var (s', rs) := React(sc, i, e.deliverAt, l.s, e.fn);
    CallbackArrives(sc, i, l, e, s', rs);
    var l' := FireLocal(Reactor(sc), sc.Cfg(), i, l, e);
    Departs(e.deliverAt, e.deliverAt, s'.trace, l'.s.trace, l'.m, l'.m);
  }

  lemma ArrivedWait(l: Local, t: int)
    requires ArrivedBy(l) && Waits(l, t)
    ensures ArrivedBy(l.(now := t))
  {}
}
