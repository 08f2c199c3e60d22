/** What is true of every pending event of a session, whatever the run. */
module Soundness {
  import opened Audio
  import opened Basics
  import opened Impair
  import opened Clock
  import opened Scenarios
  import opened AgentProto
  import opened CallerSession
  import opened Engine
  import opened SessionView

  predicate TimerSeq(a: Agent, n: int) {
    TIMER_SEQ_BASE <= n < TIMER_SEQ_BASE + a.schedSeq
  }

  predicate SoundEvent(sc: Scenario, i: nat, now: int, s: Sess, e: Pending) {
    && e.session == i && e.deliverAt >= now
    && match e.fn
       case CallerSpeaks(f, b) =>
         f.ts == e.deliverAt && e.seqNo == f.seqNo && 0 <= f.seqNo < s.caller.callerSeq && f.kind.Speech?
         && f.durMs == FrameMs(sc)
       case ToAgent(f) =>
         f.ts == e.deliverAt == now && e.seqNo == f.seqNo && 0 <= f.seqNo < s.caller.callerSeq && f.kind.Speech?
       case ToCaller(f) =>
         e.seqNo == f.seqNo && 0 <= f.seqNo < s.agent.seqNo && f.kind in {AgentAudio, TurnStart, TurnEnd}
       case Respond(_, at) => at == e.deliverAt && TimerSeq(s.agent, e.seqNo)
       case OpenTurn(q, ts) => ts == e.deliverAt && TimerSeq(s.agent, e.seqNo) && 0 <= q < s.agent.seqNo
       case EmitFrame(turn, _, ts) => ts == e.deliverAt && TimerSeq(s.agent, e.seqNo) && 1 <= turn <= s.agent.turn
       case EmitEnd(turn, end) => end == e.deliverAt && TimerSeq(s.agent, e.seqNo) && 1 <= turn <= s.agent.turn
  }

  /** Every agent timer on the heap has a sequence number of its own. */
  ghost predicate TimersDistinct(m: multiset<Pending>) {
    && (forall e | e in m && e.fn.IsTimer() :: m[e] == 1)
    && (forall e, e' | e in m && e' in m && e.fn.IsTimer() && e'.fn.IsTimer() && e.seqNo == e'.seqNo :: e == e')
  }

  ghost predicate Sound(sc: Scenario, i: nat, l: Local) {
    && (forall e | e in l.m :: SoundEvent(sc, i, l.now, l.s, e))
    && TimersDistinct(l.m)
    && 0 <= l.s.agent.seqNo && 0 <= l.s.agent.schedSeq && 0 <= l.s.agent.turn && 0 <= l.s.caller.callerSeq
    && (l.s.agent.talking ==> l.s.agent.turn >= 1)
  }

  predicate SoundRequest(sc: Scenario, i: nat, now: int, s: Sess, r: Request) {
    SoundEvent(sc, i, now, s, Stamp(now, i, r))
  }

  /** Requests carry the timer numbers from lo up to hi, each at most once. */
  predicate Numbered(rs: seq<Request>, lo: int, hi: int) {
    && lo <= hi
    && (forall r | r in rs && r.fn.IsTimer() :: TIMER_SEQ_BASE + lo <= r.seqNo < TIMER_SEQ_BASE + hi)
    && (forall j, k | 0 <= j < k < |rs| && rs[j].fn.IsTimer() && rs[k].fn.IsTimer() :: rs[j].seqNo < rs[k].seqNo)
  }

  /** The counters only grow. */
  predicate Grows(s: Sess, s': Sess) {
    && s.agent.seqNo <= s'.agent.seqNo && s.agent.schedSeq <= s'.agent.schedSeq && s.agent.turn <= s'.agent.turn
    && s.caller.callerSeq <= s'.caller.callerSeq
  }

  /** A fired callback schedules only sound requests, with fresh timer numbers. */
  ghost predicate FiresSoundly(sc: Scenario, i: nat, now: int, s: Sess, s': Sess, rs: seq<Request>) {
    && Grows(s, s') && Numbered(rs, s.agent.schedSeq, s'.agent.schedSeq)
    && forall r | r in rs :: SoundRequest(sc, i, now, s', r)
  }

  lemma FrameTsAfter(c: AgentConfig, t0: int, k: nat)
    requires c.Timely()
    ensures t0 <= FrameTs(c, t0, k) < FullEnd(c, t0) || k >= Frames(c)
    ensures t0 <= FullEnd(c, t0) && t0 <= FrameTs(c, t0, k)
  {
    assert k * c.frameMs >= 0;
    FrameTsMonotone(c, t0, 0, Frames(c) - 1);
    if k < Frames(c) {
      FrameTsMonotone(c, t0, k, Frames(c) - 1);
    }
  }

  lemma FrameTsMonotone(c: AgentConfig, t0: int, j: nat, k: nat)
    requires c.Timely() && j <= k
    ensures FrameTs(c, t0, j) <= FrameTs(c, t0, k)
    ensures FrameTs(c, t0, 0) >= t0
  {
    assert j * c.frameMs <= k * c.frameMs by {
      assert (k - j) * c.frameMs >= 0;
      assert k * c.frameMs == j * c.frameMs + (k - j) * c.frameMs;
    }
  }

  lemma SendFires(sc: Scenario, i: nat, now: int, s: Sess, s1: Sess, f: Frame)
    requires Grows(s, s1)
    requires 0 <= f.seqNo < s1.agent.seqNo && f.kind in {AgentAudio, TurnStart, TurnEnd}
    ensures FiresSoundly(sc, i, now, s, SendDown(sc, i, now, s1, f).0, SendDown(sc, i, now, s1, f).1)
  {}

  lemma TimerAt(c: AgentConfig, turn: int, t0: int, seqNo: int, s: int, j: nat)
    requires j < Frames(c) + 2
    ensures var ts := TurnTimers(c, turn, t0, seqNo, s);
            && |ts| == Frames(c) + 2
            && ts[j] == (if j == 0 then Timer(t0, s, OpenTurn(seqNo, t0))
                         else if j <= Frames(c) then
                           Timer(FrameTs(c, t0, j - 1), s + j, EmitFrame(turn, j - 1, FrameTs(c, t0, j - 1)))
                         else Timer(FullEnd(c, t0), s + j, EmitEnd(turn, FullEnd(c, t0))))
  {}

  lemma TurnFires(sc: Scenario, i: nat, s: Sess, gen: int, at: int)
    requires sc.Cfg().Timely() && s.agent.turn >= 0 && s.agent.seqNo >= 0 && s.agent.schedSeq >= 0
    ensures FiresSoundly(sc, i, at, s, StartTurn(sc, s, gen, at).0, StartTurn(sc, s, gen, at).1)
  {
    if Responds(s.agent, gen) {
      var c := sc.Cfg();
      var (s', rs) := StartTurn(sc, s, gen, at);
      TimerAt(c, s.agent.turn + 1, at, s.agent.seqNo, s.agent.schedSeq, 0);
      forall j: nat | j < |rs|
        ensures SoundRequest(sc, i, at, s', rs[j]) && rs[j].seqNo == TIMER_SEQ_BASE + s.agent.schedSeq + j
      {
        TimerAt(c, s.agent.turn + 1, at, s.agent.seqNo, s.agent.schedSeq, j);
        FrameTsAfter(c, at, if j == 0 then 0 else j - 1);
      }
    }
  }

  lemma RecvFires(sc: Scenario, i: nat, now: int, s: Sess, f: Frame)
    requires sc.Valid() && FrameMs(sc) != 0 && s.caller.callerSeq >= 0
    ensures FiresSoundly(sc, i, now, s, RecvFrame(sc, now, s, f).0, RecvFrame(sc, now, s, f).1)
  {
    var (s', rs) := RecvFrame(sc, now, s, f);
    forall r | r in rs ensures SoundRequest(sc, i, now, s', r) {
      var k :| 0 <= k < |rs| && rs[k] == r;
      assert k * FrameMs(sc) >= 0;
    }
  }

  lemma EmitFrameFires(sc: Scenario, i: nat, now: int, s: Sess, turn: int, ts: int)
    requires s.agent.seqNo >= 0
    ensures var r := EmitFrameNow(sc, i, now, s, turn, ts); FiresSoundly(sc, i, now, s, r.0, r.1)
  {
    var (a, f) := EmitAgentFrame(sc.Cfg(), s.agent, turn, ts);
    if f.Some? {
      SendFires(sc, i, now, s, s.(agent := a, trace := MarkFired(s.trace, s.agent, turn)), f.value);
    }
  }

  lemma EmitEndFires(sc: Scenario, i: nat, now: int, s: Sess, turn: int, endTs: int)
    requires s.agent.seqNo >= 0
    ensures var r := EmitEndNow(sc, i, now, s, turn, endTs); FiresSoundly(sc, i, now, s, r.0, r.1)
  {
    var (a, f) := EmitTurnEnd(s.agent, turn, endTs);
    if f.Some? {
      SendFires(sc, i, now, s, s.(agent := a), f.value);
    }
  }

  lemma HearFires(sc: Scenario, i: nat, now: int, s: Sess, f: Frame)
    requires sc.Cfg().Timely() && 0 <= s.agent.schedSeq && 0 <= s.agent.turn && (s.agent.talking ==> s.agent.turn >= 1)
    ensures var r := HearFrame(sc, now, s, f); FiresSoundly(sc, i, now, s, r.0, r.1)
  {}

  lemma TimerFires(sc: Scenario, i: nat, s: Sess, e: Pending)
    requires sc.Valid() && FrameMs(sc) != 0 && sc.Cfg().Timely()
    requires SoundEvent(sc, i, e.deliverAt, s, e) && e.fn.IsTimer()
    requires 0 <= s.agent.seqNo && 0 <= s.agent.schedSeq && 0 <= s.agent.turn
    ensures var (s', rs) := React(sc, i, e.deliverAt, s, e.fn);
            FiresSoundly(sc, i, e.deliverAt, s, s', rs)
  {
    var now := e.deliverAt;
    match e.fn
    case Respond(gen, at) => TurnFires(sc, i, s, gen, at);
    case OpenTurn(seqNo, ts) =>
      SendFires(sc, i, now, s, s.(trace := MarkStarted(s.trace)), Control(TurnStart, seqNo, ts));
    case EmitFrame(turn, idx, ts) => EmitFrameFires(sc, i, now, s, turn, ts);
    case EmitEnd(turn, endTs) => EmitEndFires(sc, i, now, s, turn, endTs);
  }

  lemma CallbackFires(sc: Scenario, i: nat, s: Sess, e: Pending)
    requires sc.Valid() && FrameMs(sc) != 0 && sc.Cfg().Timely()
    requires SoundEvent(sc, i, e.deliverAt, s, e)
    requires 0 <= s.agent.seqNo && 0 <= s.agent.schedSeq && 0 <= s.agent.turn && 0 <= s.caller.callerSeq
    requires s.agent.talking ==> s.agent.turn >= 1
    ensures var (s', rs) := React(sc, i, e.deliverAt, s, e.fn);
            FiresSoundly(sc, i, e.deliverAt, s, s', rs)
  {
    if e.fn.IsTimer() {
      TimerFires(sc, i, s, e);
    } else if e.fn.ToAgent? {
      HearFires(sc, i, e.deliverAt, s, e.fn.frame);
    } else if e.fn.ToCaller? {
      RecvFires(sc, i, e.deliverAt, s, e.fn.frame);
    }
  }

  /** Counting the fired event changes nothing here. */
  lemma CountFires(sc: Scenario, i: nat, s: Sess, e: Pending)
    requires FrameMs(sc) != 0
    requires var (s', rs) := React(sc, i, e.deliverAt, s, e.fn); FiresSoundly(sc, i, e.deliverAt, s, s', rs)
    ensures var (s', rs) := Fire(sc, i, e.deliverAt, s, e.fn); FiresSoundly(sc, i, e.deliverAt, s, s', rs)
  {
    var (s', rs) := React(sc, i, e.deliverAt, s, e.fn);
    var t := Fire(sc, i, e.deliverAt, s, e.fn).0;
    assert forall r | r in rs :: SoundRequest(sc, i, e.deliverAt, s', r) == SoundRequest(sc, i, e.deliverAt, t, r);
  }

  lemma ValidIsTimely(sc: Scenario)
    requires sc.Valid()
    ensures FrameMs(sc) == sc.Cfg().frameMs > 0 && sc.Cfg().Timely()
  {}

  lemma StampedIn(now: int, i: nat, rs: seq<Request>, e: Pending)
    requires e in Stamped(now, i, rs)
    ensures exists k :: 0 <= k < |rs| && e == Stamp(now, i, rs[k])
  {
    var k :| 0 <= k < |Stamped(now, i, rs)| && Stamped(now, i, rs)[k] == e;
    assert e == Stamp(now, i, rs[k]);
  }

  /** Fresh timer numbers appear once among the new events. */
  lemma {:induction false} FreshOnce(now: int, i: nat, rs: seq<Request>, lo: int, hi: int, e: Pending)
    requires Numbered(rs, lo, hi) && e.fn.IsTimer()
    ensures multiset(Stamped(now, i, rs))[e] <= 1
    ensures e in Stamped(now, i, rs) ==> TIMER_SEQ_BASE + lo <= e.seqNo < TIMER_SEQ_BASE + hi
  {
    var st := Stamped(now, i, rs);
    if rs == [] {
      assert st == [];
    } else {
      var head, tail := Stamp(now, i, rs[0]), Stamped(now, i, rs[1..]);
      assert st == [head] + tail;
      assert multiset(st) == multiset{head} + multiset(tail);
      if e == head {
        forall x | x in tail ensures x != e {
          StampedIn(now, i, rs[1..], x);
          var k :| 0 <= k < |rs[1..]| && x == Stamp(now, i, rs[1..][k]);
          assert rs[1..][k] == rs[k + 1];
        }
        assert multiset(tail)[e] == 0;
      } else {
        FreshOnce(now, i, rs[1..], lo, hi, e);
      }
    }
  }

  lemma OldStaysSound(sc: Scenario, i: nat, l: Local, e: Pending, s': Sess, x: Pending)
    requires Sound(sc, i, l) && Enabled(l, e) && Grows(l.s, s') && x in l.m
    ensures SoundEvent(sc, i, e.deliverAt, s', x)
  {
    assert !Less(x, e);
    assert SoundEvent(sc, i, l.now, l.s, x) && SoundEvent(sc, i, l.now, l.s, e);
  }

  lemma TimersStayDistinct(l: Local, e: Pending, now: int, i: nat, rs: seq<Request>, lo: int, hi: int)
    requires TimersDistinct(l.m) && Numbered(rs, lo, hi) && e in l.m
    requires forall x | x in l.m && x.fn.IsTimer() :: x.seqNo < TIMER_SEQ_BASE + lo
    ensures TimersDistinct(l.m - multiset{e} + multiset(Stamped(now, i, rs)))
  {
    var st := Stamped(now, i, rs);
    var m' := l.m - multiset{e} + multiset(st);
    forall x | x in m' && x.fn.IsTimer() ensures m'[x] == 1 {
      FreshOnce(now, i, rs, lo, hi, x);
      assert x in multiset(st) <==> x in st;
    }
    forall x, y | x in m' && y in m' && x.fn.IsTimer() && y.fn.IsTimer() && x.seqNo == y.seqNo ensures x == y {
      FreshOnce(now, i, rs, lo, hi, x);
      FreshOnce(now, i, rs, lo, hi, y);
      assert (x in st || x in l.m) && (y in st || y in l.m);
      if x in st && y in st {
        StampedIn(now, i, rs, x);
        StampedIn(now, i, rs, y);
      }
    }
  }

  lemma NewIsSound(sc: Scenario, i: nat, now: int, s: Sess, s': Sess, rs: seq<Request>, x: Pending)
    requires FiresSoundly(sc, i, now, s, s', rs) && x in Stamped(now, i, rs)
    ensures SoundEvent(sc, i, now, s', x)
  {
    StampedIn(now, i, rs, x);
    var k :| 0 <= k < |rs| && x == Stamp(now, i, rs[k]);
    assert SoundRequest(sc, i, now, s', rs[k]);
  }

  /** Any sound reaction keeps the session sound. */
  lemma SoundReplace(sc: Scenario, i: nat, l: Local, e: Pending, s': Sess, rs: seq<Request>)
    requires Sound(sc, i, l) && Enabled(l, e)
    requires FiresSoundly(sc, i, e.deliverAt, l.s, s', rs)
    requires s'.agent.talking ==> s'.agent.turn >= 1
    ensures Sound(sc, i, Replaced(sc.Cfg(), i, l, e, s', Stamped(e.deliverAt, i, rs)))
  {
    EventsStaySound(sc, i, l, e, s', rs);
    forall x | x in l.m && x.fn.IsTimer() ensures x.seqNo < TIMER_SEQ_BASE + l.s.agent.schedSeq {
      assert SoundEvent(sc, i, l.now, l.s, x);
    }
    TimersStayDistinct(l, e, e.deliverAt, i, rs, l.s.agent.schedSeq, s'.agent.schedSeq);
  }

  lemma EventsStaySound(sc: Scenario, i: nat, l: Local, e: Pending, s': Sess, rs: seq<Request>)
    requires Sound(sc, i, l) && Enabled(l, e) && FiresSoundly(sc, i, e.deliverAt, l.s, s', rs)
    ensures forall x | x in l.m - multiset{e} + multiset(Stamped(e.deliverAt, i, rs)) ::
              SoundEvent(sc, i, e.deliverAt, s', x)
  {
    var now := e.deliverAt;
    forall x | x in l.m - multiset{e} + multiset(Stamped(now, i, rs)) ensures SoundEvent(sc, i, now, s', x) {
      if x in Stamped(now, i, rs) {
        NewIsSound(sc, i, now, l.s, s', rs, x);
      } else {
        OldStaysSound(sc, i, l, e, s', x);
      }
    }
  }

  lemma SoundFire(sc: Scenario, i: nat, l: Local, e: Pending)
    requires sc.Valid() && FrameMs(sc) != 0 && Sound(sc, i, l) && Enabled(l, e)
    ensures Sound(sc, i, FireLocal(Reactor(sc), sc.Cfg(), i, l, e))
  {
    ValidIsTimely(sc);
    OldStaysSound(sc, i, l, e, l.s, e);
    CallbackFires(sc, i, l.s, e);
    CountFires(sc, i, l.s, e);
    TalkingHasTurn(sc, i, e.deliverAt, l.s, e.fn);
    var r := Fire(sc, i, e.deliverAt, l.s, e.fn);
    SoundReplace(sc, i, l, e, r.0, r.1);
  }

  lemma TalkingHasTurn(sc: Scenario, i: nat, now: int, s: Sess, cb: Callback)
    requires FrameMs(sc) != 0 && s.agent.turn >= 0 && (s.agent.talking ==> s.agent.turn >= 1)
    ensures var a := Fire(sc, i, now, s, cb).0.agent; a.talking ==> a.turn >= 1
  {}

  lemma SoundWait(sc: Scenario, i: nat, l: Local, t: int)
    requires Sound(sc, i, l) && Waits(l, t)
    ensures Sound(sc, i, l.(now := t))
  {}
}
