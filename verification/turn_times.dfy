/** Turns do not overlap in time, and timers of turns gone by do nothing (internal/agentproto/fake.go:113-226). */
module TurnTimes {
  import opened Audio
  import opened Basics
  import opened Clock
  import opened Scenarios
  import opened AgentProto
  import opened CallerSession
  import opened Engine
  import opened SessionView
  import opened Soundness
  import opened TurnProtocol

  // ---- stale timers ----

  /** A timer of a turn that is no longer being spoken, or of speech the caller has resumed since. */
  predicate Stale(a: Agent, cb: Callback) {
    match cb
    case Respond(gen, _) => !Responds(a, gen)
    case EmitFrame(turn, _, _) => turn != a.turn || !a.talking
    case EmitEnd(turn, _) => turn != a.turn || a.ended
    case _ => false
  }

  /** It changes nothing and schedules nothing. */
  lemma StaleTimersDoNothing(sc: Scenario, i: nat, now: int, s: Sess, cb: Callback)
    requires FrameMs(sc) != 0 && Stale(s.agent, cb)
    ensures React(sc, i, now, s, cb) == (s, [])
  {
    match cb
    case Respond(_, _) =>
    case EmitFrame(_, _, _) =>
    case EmitEnd(_, _) =>
  }

  // ---- turns in time ----

  ghost predicate StopsLate(r: TurnRec) { r.stop.Some? ==> r.stop.value >= r.t0 }

  /** Each turn is over before the next is opened, the last one before now unless it is being spoken. */
  ghost predicate Spaced(c: AgentConfig, now: int, a: Agent, turns: seq<TurnRec>) {
    && (forall k: nat | k < |turns| :: StopsLate(turns[k]))
    && (forall k: nat | 0 < k < |turns| :: EndTs(c, turns[k - 1]) <= turns[k].t0)
    && (!a.talking && turns != [] ==> EndTs(c, Last(turns)) <= now)
  }

  ghost predicate SpacedBy(sc: Scenario, l: Local) {
    Spaced(sc.Cfg(), l.now, l.s.agent, l.s.trace.turns)
  }

  lemma LastMoves(c: AgentConfig, now: int, now': int, a: Agent, a': Agent, turns: seq<TurnRec>, r: TurnRec,
                  turns': seq<TurnRec>)
    requires Spaced(c, now, a, turns) && turns != [] && turns' == turns[|turns| - 1 := r]
    requires r.t0 == Last(turns).t0 && StopsLate(r) && (!a'.talking ==> EndTs(c, r) <= now')
    ensures Spaced(c, now', a', turns')
  {}

  lemma HearSpaced(sc: Scenario, i: nat, l: Local, e: Pending)
    requires sc.Cfg().Timely() && TurnsOk(sc, i, l) && SpacedBy(sc, l) && l.now <= e.deliverAt && e.fn.ToAgent?
    ensures var s' := HearFrame(sc, e.deliverAt, l.s, e.fn.frame).0;
            Spaced(sc.Cfg(), e.deliverAt, s'.agent, s'.trace.turns)
  {
    var a, t := l.s.agent, l.s.trace;
    if e.fn.frame.kind.Speech? && a.talking && !a.interrupted && !sc.Cfg().ignoreBargeIn {
      BargeInShape(sc, e.deliverAt, l.s, e.fn.frame);
      var stop := e.deliverAt + sc.Cfg().stopLatencyMs;
      var s' := HearFrame(sc, e.deliverAt, l.s, e.fn.frame).0;
      LastMoves(sc.Cfg(), l.now, e.deliverAt, a, s'.agent, t.turns, Last(t.turns).(stop := Some(stop)), s'.trace.turns);
    }
  }

  lemma RespondSpaced(sc: Scenario, l: Local, e: Pending)
    requires SpacedBy(sc, l) && l.now <= e.deliverAt && e.fn.Respond? && e.fn.at == e.deliverAt
    ensures var s' := StartTurn(sc, l.s, e.fn.gen, e.fn.at).0;
            Spaced(sc.Cfg(), e.deliverAt, s'.agent, s'.trace.turns)
  {
    if Responds(l.s.agent, e.fn.gen) {
      StartShape(sc, l.s, e.fn.gen, e.fn.at);
    }
  }

  lemma OpenSpaced(sc: Scenario, i: nat, l: Local, e: Pending)
    requires SpacedBy(sc, l) && l.now <= e.deliverAt && e.fn.OpenTurn?
    ensures var s' := OpenTurnNow(sc, i, e.deliverAt, l.s, e.fn.seqNo, e.fn.ts).0;
            Spaced(sc.Cfg(), e.deliverAt, s'.agent, s'.trace.turns)
  {
    var s := l.s.(trace := MarkStarted(l.s.trace));
    SendShape(sc, i, e.deliverAt, s, Control(TurnStart, e.fn.seqNo, e.fn.ts));
    var turns := l.s.trace.turns;
    if turns != [] {
      LastMoves(sc.Cfg(), l.now, e.deliverAt, l.s.agent, l.s.agent, turns, Last(turns).(started := true),
                s.trace.turns);
    }
  }

  lemma SpokeSpaced(sc: Scenario, now: int, now': int, s: Sess, turn: int, ts: int, s': Sess, f: Option<Frame>,
                    rs: seq<Request>)
    requires s.agent.talking && s.trace.turns != [] && Spaced(sc.Cfg(), now, s.agent, s.trace.turns)
    requires Spoke(sc, s, turn, ts, s', f, rs)
    ensures Spaced(sc.Cfg(), now', s'.agent, s'.trace.turns)
  {
    var r := Last(s.trace.turns);
    LastMoves(sc.Cfg(), now, now', s.agent, s'.agent, s.trace.turns, r.(fired := r.fired + 1), s'.trace.turns);
  }

  lemma FrameSpaced(sc: Scenario, i: nat, l: Local, e: Pending)
    requires SpacedBy(sc, l) && l.now <= e.deliverAt && e.fn.EmitFrame? && (l.s.agent.talking ==> l.s.trace.turns != [])
    ensures var s' := EmitFrameNow(sc, i, e.deliverAt, l.s, e.fn.turn, e.fn.ts).0;
            Spaced(sc.Cfg(), e.deliverAt, s'.agent, s'.trace.turns)
  {
    if !Stale(l.s.agent, e.fn) {
      var (s', rs) := EmitFrameNow(sc, i, e.deliverAt, l.s, e.fn.turn, e.fn.ts);
      var f := EmitAgentFrame(sc.Cfg(), l.s.agent, e.fn.turn, e.fn.ts).1;
      EmitShape(sc, i, e.deliverAt, l.s, e.fn.turn, e.fn.ts);
      SpokeSpaced(sc, l.now, e.deliverAt, l.s, e.fn.turn, e.fn.ts, s', f, rs);
    }
  }

  lemma EndSpaced(sc: Scenario, i: nat, l: Local, e: Pending)
    requires sc.Cfg().Timely() && TurnsOk(sc, i, l) && SpacedBy(sc, l) && Enabled(l, e) && l.now <= e.deliverAt
    requires e.fn.EmitEnd? && e.fn.turn >= 1
    ensures var s' := EmitEndNow(sc, i, e.deliverAt, l.s, e.fn.turn, e.fn.endTs).0;
            Spaced(sc.Cfg(), e.deliverAt, s'.agent, s'.trace.turns)
  {
    var (a, f) := EmitTurnEnd(l.s.agent, e.fn.turn, e.fn.endTs);
    if f.Some? {
      SendShape(sc, i, e.deliverAt, l.s.(agent := a), f.value);
      EndIsDue(sc.Cfg(), i, l.now, l.s.agent, l.s.trace.sent, l.s.trace.turns, l.m, e);
    }
  }

  lemma CallbackSpaced(sc: Scenario, i: nat, l: Local, e: Pending)
    requires FrameMs(sc) != 0 && sc.Cfg().Timely() && TurnsOk(sc, i, l) && Sound(sc, i, l) && Enabled(l, e)
             && SpacedBy(sc, l)
    ensures var s' := React(sc, i, e.deliverAt, l.s, e.fn).0;
            Spaced(sc.Cfg(), e.deliverAt, s'.agent, s'.trace.turns)
  {
    assert SoundEvent(sc, i, l.now, l.s, e);
    match e.fn
    case CallerSpeaks(_, _) =>
    case ToCaller(_) =>
    case ToAgent(_) => HearSpaced(sc, i, l, e);
    case Respond(_, _) => RespondSpaced(sc, l, e);
    case OpenTurn(_, _) => OpenSpaced(sc, i, l, e);
    case EmitFrame(_, _, _) => FrameSpaced(sc, i, l, e);
    case EmitEnd(_, _) => EndSpaced(sc, i, l, e);
  }

  lemma SpacedFire(sc: Scenario, i: nat, l: Local, e: Pending)
    requires FrameMs(sc) != 0 && sc.Cfg().Timely() && TurnsOk(sc, i, l) && Sound(sc, i, l) && Enabled(l, e)
             && SpacedBy(sc, l)
    ensures SpacedBy(sc, FireLocal(Reactor(sc), sc.Cfg(), i, l, e))
  {
    CallbackSpaced(sc, i, l, e);
  }

  lemma SpacedWait(sc: Scenario, l: Local, t: int)
    requires SpacedBy(sc, l) && Waits(l, t)
    ensures SpacedBy(sc, l.(now := t))
  {}

  // ---- what that says about the frames ----

  /** The frame lies between the opening and the end of its turn. */
  predicate Within(c: AgentConfig, r: TurnRec, f: Frame) {
    r.t0 <= f.ts && f.End() <= EndTs(c, r)
  }

  lemma {:induction false} SpokenWithin(c: AgentConfig, r: TurnRec, k: nat)
    requires c.Timely() && k <= Frames(c)
    ensures forall ts | ts in SpokenTs(c, r.t0, r.stop, k) :: r.t0 <= ts && ts + c.frameMs <= EndTs(c, r)
  {
    if k > 0 {
      SpokenWithin(c, r, k - 1);
      FrameTsAfter(c, r.t0, k - 1);
      FrameTsMonotone(c, r.t0, k - 1, Frames(c) - 1);
    }
  }

  /** All a turn sends lies between its opening and its end, the frames to their last millisecond. */
  lemma TurnWithin(c: AgentConfig, r: TurnRec, s0: int)
    requires c.Timely() && StopsLate(r)
    ensures r.t0 <= EndTs(c, r) && forall f | f in TurnScript(c, r, s0) :: Within(c, r, f)
  {
    var tss := SpokenTs(c, r.t0, r.stop, Frames(c));
    SpokenWithin(c, r, Frames(c));
    FrameTsAfter(c, r.t0, 0);
    var script := TurnScript(c, r, s0);
    forall f | f in script ensures Within(c, r, f) {
      var k :| 0 <= k < |script| && script[k] == f;
      if 0 < k < |script| - 1 { assert tss[k - 1] in tss; }
    }
  }

  /** Turn j is over before a later turn k is opened. */
  lemma {:induction false} EndsBefore(c: AgentConfig, turns: seq<TurnRec>, j: nat, k: nat)
    requires c.Timely() && j < k < |turns| && forall n: nat | n < |turns| :: StopsLate(turns[n])
    requires forall n: nat | 0 < n < |turns| :: EndTs(c, turns[n - 1]) <= turns[n].t0
    ensures EndTs(c, turns[j]) <= turns[k].t0
  {
    if j + 1 < k {
      EndsBefore(c, turns, j, k - 1);
      TurnWithin(c, turns[k - 1], 0);
    }
  }

  lemma SpacedTurnsDisjoint(c: AgentConfig, now: int, a: Agent, turns: seq<TurnRec>)
    requires c.Timely() && Spaced(c, now, a, turns)
    ensures forall j: nat, k: nat | j < k < |turns| :: EndTs(c, turns[j]) <= turns[k].t0
    ensures forall k: nat, s0: int, f | k < |turns| && f in TurnScript(c, turns[k], s0) :: Within(c, turns[k], f)
  {
    forall j: nat, k: nat | j < k < |turns| ensures EndTs(c, turns[j]) <= turns[k].t0 {
      EndsBefore(c, turns, j, k);
    }
    forall k: nat, s0: int, f | k < |turns| && f in TurnScript(c, turns[k], s0) ensures Within(c, turns[k], f) {
      TurnWithin(c, turns[k], s0);
    }
  }
}
