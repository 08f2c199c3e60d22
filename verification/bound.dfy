/** Every run is finite: each fired event pays for the events it causes. */
module RunBound {
  import opened Audio
  import opened Basics
  import opened Clock
  import opened Scenarios
  import opened AgentProto
  import opened CallerSession
  import opened Engine
  import opened SessionView
  import opened Sums

  function BargeLen(sc: Scenario, turn: int): nat
    requires FrameMs(sc) != 0
  {
    var b := ScriptedBargeIn(sc, turn);
    if b.None? then 0 else BurstLen(sc, b.value.durMs)
  }

  /** Barge-in frames still to come once n agent turns have been observed. */
  function BargeFrames(sc: Scenario, n: nat): nat
    requires FrameMs(sc) != 0
    decreases |sc.turns| - n
  {
    if n >= |sc.turns| then 0 else BargeLen(sc, n + 1) + BargeFrames(sc, n + 1)
  }

  function PromptFrames(sc: Scenario, turns: seq<CallerTurn>): nat
    requires FrameMs(sc) != 0
  {
    if turns == [] then 0 else BurstLen(sc, turns[0].durMs) + PromptFrames(sc, turns[1..])
  }

  /** C: every frame a caller may ever speak, prompts and barge-ins. */
  function SpeechFrames(sc: Scenario): nat
    requires FrameMs(sc) != 0
  {
    PromptFrames(sc, sc.turns) + BargeFrames(sc, 0)
  }

  /** Events one caller speech frame can cause. */
  function PerFrame(sc: Scenario): nat { 2 * Frames(sc.Cfg()) + 7 }

  /** 3C + 2C(F + 2): the most events a session fires. */
  function EventBudget(sc: Scenario): (n: nat)
    requires FrameMs(sc) != 0
    ensures n == 3 * SpeechFrames(sc) + 2 * SpeechFrames(sc) * (Frames(sc.Cfg()) + 2)
  {
    BudgetForms(Frames(sc.Cfg()), SpeechFrames(sc));
    PerFrame(sc) * SpeechFrames(sc)
  }

  lemma BudgetForms(f: nat, c: nat)
    ensures (2 * f + 7) * c == 3 * c + 2 * c * (f + 2) >= 0
  {
    assert (2 * f + 7) * c == 2 * (c * f) + 7 * c;
    assert 2 * c * (f + 2) == 2 * (c * f) + 4 * c;
  }

  ghost predicate Bounded(sc: Scenario, l: Local)
    requires FrameMs(sc) != 0
  {
    && l.s.caller.obsTurn >= 0
    && l.s.trace.fired + l.weight + PerFrame(sc) * BargeFrames(sc, l.s.caller.obsTurn) <= EventBudget(sc)
    && l.s.caller.callerSeq + BargeFrames(sc, l.s.caller.obsTurn) == SpeechFrames(sc)
    && 0 <= l.s.agent.seqNo <= l.s.trace.fired
    && 0 <= l.s.caller.callerSeq && 0 <= l.weight
  }

  function Weighing(c: AgentConfig): Callback -> nat { (cb: Callback) => Weight(c, cb) }

  function Voicing(c: AgentConfig): Callback -> nat { (cb: Callback) => Voices(c, cb) }

  function CostSum(cost: Callback -> nat, rs: seq<Request>): nat {
    if rs == [] then 0 else cost(rs[0].fn) + CostSum(cost, rs[1..])
  }

  lemma {:induction false} CostUniform(cost: Callback -> nat, rs: seq<Request>, w: nat)
    requires forall r | r in rs :: cost(r.fn) == w
    ensures CostSum(cost, rs) == |rs| * w
  {
    if rs != [] {
      CostUniform(cost, rs[1..], w);
    }
  }

  lemma {:induction false} StampedCost(cost: Callback -> nat, f: Pending -> int, now: int, i: nat, rs: seq<Request>)
    requires forall r | r in rs :: f(Stamp(now, i, r)) == cost(r.fn)
    ensures SumOf(Stamped(now, i, rs), f) == CostSum(cost, rs)
  {
    if rs != [] {
      assert Stamped(now, i, rs)[1..] == Stamped(now, i, rs[1..]);
      StampedCost(cost, f, now, i, rs[1..]);
    }
  }

  /** A barge-in burst uses up barge-in frames of the turns still to be observed. */
  lemma RecvBurst(sc: Scenario, c: Caller, f: Frame, now: int)
    requires FrameMs(sc) != 0 && c.obsTurn >= 0
    ensures var (c', rs) := OnRecv(sc, c, f, now);
            && c'.obsTurn >= 0 && c'.callerSeq == c.callerSeq + |rs|
            && |rs| + BargeFrames(sc, c'.obsTurn) == BargeFrames(sc, c.obsTurn)
            && forall r | r in rs :: r.fn.CallerSpeaks?
  {
    if f.kind == TurnStart {
      assert |OnRecv(sc, c, f, now).1| == BargeLen(sc, c.obsTurn + 1);
    }
  }

  lemma Spread(p: nat, n: nat, b: nat)
    ensures p * (n + b) == n * p + p * b
  {}

  /** A barge-in burst is paid for, at any price a frame, by the observed-turn count it uses up. */
  lemma BurstPays(sc: Scenario, c: Caller, f: Frame, now: int, cost: Callback -> nat, price: nat)
    requires FrameMs(sc) != 0 && c.obsTurn >= 0 && forall cb: Callback | cb.CallerSpeaks? :: cost(cb) == price
    ensures var (c', rs) := OnRecv(sc, c, f, now);
            CostSum(cost, rs) + price * BargeFrames(sc, c'.obsTurn) == price * BargeFrames(sc, c.obsTurn)
  {
    var (c', rs) := OnRecv(sc, c, f, now);
    RecvBurst(sc, c, f, now);
    CostUniform(cost, rs, price);
    Spread(price, |rs|, BargeFrames(sc, c'.obsTurn));
  }

  lemma TurnPays(c: AgentConfig, turn: int, t0: int, seqNo: int, s: int)
    ensures CostSum(Weighing(c), TurnTimers(c, turn, t0, seqNo, s)) == 2 * Frames(c) + 4
  {
    var ts := TurnTimers(c, turn, t0, seqNo, s);
    CostUniform(Weighing(c), ts, 2);
  }

  lemma SendPays(sc: Scenario, i: nat, now: int, s: Sess, f: Frame)
    ensures CostSum(Weighing(sc.Cfg()), SendDown(sc, i, now, s, f).1) <= 1
    ensures SendDown(sc, i, now, s, f).0.(link := s.link, trace := s.trace) == s
    ensures SendDown(sc, i, now, s, f).0.trace.fired == s.trace.fired
  {
    CostUniform(Weighing(sc.Cfg()), SendDown(sc, i, now, s, f).1, 1);
  }

  ghost predicate Pays(sc: Scenario, i: nat, now: int, s: Sess, cb: Callback)
    requires FrameMs(sc) != 0 && s.caller.obsTurn >= 0
  {
    var (s', rs) := Fire(sc, i, now, s, cb);
    && s'.caller.obsTurn >= 0 && s'.caller.callerSeq >= s.caller.callerSeq
    && s'.trace.fired == s.trace.fired + 1
    && s.agent.seqNo <= s'.agent.seqNo <= s.agent.seqNo + 1
    && s'.caller.callerSeq + BargeFrames(sc, s'.caller.obsTurn)
       == s.caller.callerSeq + BargeFrames(sc, s.caller.obsTurn)
    && 1 + CostSum(Weighing(sc.Cfg()), rs) + PerFrame(sc) * BargeFrames(sc, s'.caller.obsTurn)
       <= Weight(sc.Cfg(), cb) + PerFrame(sc) * BargeFrames(sc, s.caller.obsTurn)
  }

  lemma EmitFramePays(sc: Scenario, i: nat, now: int, s: Sess, turn: int, idx: nat, ts: int)
    requires FrameMs(sc) != 0 && s.caller.obsTurn >= 0
    ensures Pays(sc, i, now, s, EmitFrame(turn, idx, ts))
  {
    var (a, f) := EmitAgentFrame(sc.Cfg(), s.agent, turn, ts);
    if f.Some? {
      SendPays(sc, i, now, s.(agent := a, trace := MarkFired(s.trace, s.agent, turn)), f.value);
    }
  }

  lemma EmitEndPays(sc: Scenario, i: nat, now: int, s: Sess, turn: int, endTs: int)
    requires FrameMs(sc) != 0 && s.caller.obsTurn >= 0
    ensures Pays(sc, i, now, s, EmitEnd(turn, endTs))
  {
    var (a, f) := EmitTurnEnd(s.agent, turn, endTs);
    if f.Some? {
      SendPays(sc, i, now, s.(agent := a), f.value);
    }
  }

  lemma CallbackPays(sc: Scenario, i: nat, now: int, s: Sess, cb: Callback)
    requires FrameMs(sc) != 0 && s.caller.obsTurn >= 0
    ensures Pays(sc, i, now, s, cb)
  {
    match cb
    case CallerSpeaks(f, b) =>
      CostUniform(Weighing(sc.Cfg()), [Request(now, f.seqNo, ToAgent(f))], 2 * Frames(sc.Cfg()) + 6);
    case ToAgent(f) =>
      var rs := HearFrame(sc, now, s, f).1;
      assert |rs| <= 1;
      assert rs != [] ==>
               CostSum(Weighing(sc.Cfg()), rs) == Weight(sc.Cfg(), rs[0].fn) + CostSum(Weighing(sc.Cfg()), rs[1..]);
    case ToCaller(f) =>
      RecvBurst(sc, s.caller, f, now);
      BurstPays(sc, s.caller, f, now, Weighing(sc.Cfg()), PerFrame(sc));
    case Respond(gen, at) =>
      TurnPays(sc.Cfg(), s.agent.turn + 1, at, s.agent.seqNo, s.agent.schedSeq);
    case OpenTurn(seqNo, ts) =>
      SendPays(sc, i, now, s.(trace := MarkStarted(s.trace)), Control(TurnStart, seqNo, ts));
    case EmitFrame(turn, idx, ts) => EmitFramePays(sc, i, now, s, turn, idx, ts);
    case EmitEnd(turn, endTs) => EmitEndPays(sc, i, now, s, turn, endTs);
  }

  lemma BoundedFire(sc: Scenario, i: nat, l: Local, e: Pending)
    requires FrameMs(sc) != 0 && Bounded(sc, l)
    requires Weight(sc.Cfg(), e.fn) <= l.weight
    ensures Bounded(sc, FireLocal(Reactor(sc), sc.Cfg(), i, l, e))
  {
    CallbackPays(sc, i, e.deliverAt, l.s, e.fn);
    StampedCost(Weighing(sc.Cfg()), WeightOf(sc.Cfg(), i), e.deliverAt, i, Fire(sc, i, e.deliverAt, l.s, e.fn).1);
  }

  // ---- how many frames the agent numbers ----

  /** Frames of a turn, its two markers included. */
  function PerTurn(sc: Scenario): nat { Frames(sc.Cfg()) + 2 }

  /** C(F + 2): the most frames the agent numbers. */
  function VoiceBudget(sc: Scenario): (n: nat)
    requires FrameMs(sc) != 0
    ensures n == SpeechFrames(sc) * (Frames(sc.Cfg()) + 2) && n >= SpeechFrames(sc)
  {
    Spread(SpeechFrames(sc), Frames(sc.Cfg()) + 1, 1);
    PerTurn(sc) * SpeechFrames(sc)
  }

  /** Every frame the agent numbers was paid for by a speech frame, PerTurn for each. */
  ghost predicate Voiced(sc: Scenario, l: Local)
    requires FrameMs(sc) != 0
  {
    && l.s.caller.obsTurn >= 0 && l.voices >= 0
    && l.s.agent.seqNo + l.voices + PerTurn(sc) * BargeFrames(sc, l.s.caller.obsTurn) <= PerTurn(sc) * SpeechFrames(sc)
  }

  ghost predicate PaysVoices(sc: Scenario, s: Sess, cb: Callback, s': Sess, rs: seq<Request>)
    requires FrameMs(sc) != 0
  {
    && s.caller.obsTurn >= 0 && s'.caller.obsTurn >= 0
    && s'.agent.seqNo + CostSum(Voicing(sc.Cfg()), rs) + PerTurn(sc) * BargeFrames(sc, s'.caller.obsTurn)
       <= s.agent.seqNo + Voices(sc.Cfg(), cb) + PerTurn(sc) * BargeFrames(sc, s.caller.obsTurn)
  }

  lemma SendVoices(sc: Scenario, i: nat, now: int, s: Sess, f: Frame)
    ensures var (s', rs) := SendDown(sc, i, now, s, f);
            CostSum(Voicing(sc.Cfg()), rs) == 0 && s'.agent == s.agent && s'.caller == s.caller
  {
    CostUniform(Voicing(sc.Cfg()), SendDown(sc, i, now, s, f).1, 0);
  }

  lemma TurnVoices(c: AgentConfig, turn: int, t0: int, seqNo: int, s: int)
    ensures CostSum(Voicing(c), TurnTimers(c, turn, t0, seqNo, s)) == Frames(c) + 1
  {
    var rs := TurnTimers(c, turn, t0, seqNo, s);
    assert rs[0].fn.OpenTurn?;
    CostUniform(Voicing(c), rs[1..], 1);
  }

  lemma SpeechVoices(sc: Scenario, now: int, s: Sess, cb: Callback)
    requires FrameMs(sc) != 0 && s.caller.obsTurn >= 0 && (cb.CallerSpeaks? || cb.ToAgent?)
    ensures var (s', rs) := React(sc, 0, now, s, cb); PaysVoices(sc, s, cb, s', rs)
  {
    var rs := React(sc, 0, now, s, cb).1;
    if rs != [] {
      assert rs == [rs[0]];
      CostUniform(Voicing(sc.Cfg()), rs, Voices(sc.Cfg(), rs[0].fn));
    }
  }

  lemma TimerVoices(sc: Scenario, i: nat, now: int, s: Sess, cb: Callback)
    requires FrameMs(sc) != 0 && s.caller.obsTurn >= 0 && cb.IsTimer()
    ensures var (s', rs) := React(sc, i, now, s, cb); PaysVoices(sc, s, cb, s', rs)
  {
    match cb
    case Respond(gen, at) => TurnVoices(sc.Cfg(), s.agent.turn + 1, at, s.agent.seqNo, s.agent.schedSeq);
    case OpenTurn(seqNo, ts) => SendVoices(sc, i, now, s.(trace := MarkStarted(s.trace)),
                                           Control(TurnStart, seqNo, ts));
    case EmitFrame(turn, idx, ts) =>
      var (a, f) := EmitAgentFrame(sc.Cfg(), s.agent, turn, ts);
      if f.Some? {
        SendVoices(sc, i, now, s.(agent := a, trace := MarkFired(s.trace, s.agent, turn)), f.value);
      }
    case EmitEnd(turn, endTs) =>
      var (a, f) := EmitTurnEnd(s.agent, turn, endTs);
      if f.Some? {
        SendVoices(sc, i, now, s.(agent := a), f.value);
      }
  }

  lemma CallbackVoices(sc: Scenario, i: nat, now: int, s: Sess, cb: Callback)
    requires FrameMs(sc) != 0 && s.caller.obsTurn >= 0
    ensures var (s', rs) := React(sc, i, now, s, cb); PaysVoices(sc, s, cb, s', rs)
  {
    if cb.IsTimer() {
      TimerVoices(sc, i, now, s, cb);
    } else if cb.ToCaller? {
      RecvBurst(sc, s.caller, cb.frame, now);
      BurstPays(sc, s.caller, cb.frame, now, Voicing(sc.Cfg()), PerTurn(sc));
    } else {
      SpeechVoices(sc, now, s, cb);
    }
  }

  lemma VoicedFire(sc: Scenario, i: nat, l: Local, e: Pending)
    requires FrameMs(sc) != 0 && Voiced(sc, l) && Voices(sc.Cfg(), e.fn) <= l.voices
    ensures Voiced(sc, FireLocal(Reactor(sc), sc.Cfg(), i, l, e))
  {
    CallbackVoices(sc, i, e.deliverAt, l.s, e.fn);
    StampedCost(Voicing(sc.Cfg()), VoicesOf(sc.Cfg(), i), e.deliverAt, i, Fire(sc, i, e.deliverAt, l.s, e.fn).1);
  }
}
