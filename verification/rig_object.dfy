/** One session's wiring and how its callbacks run on it (internal/engine/engine.go:57-63, 88-97). */
module Rigs {
  import opened Audio
  import opened Clock
  import opened Impair
  import opened EventLog
  import opened Scenarios
  import AgentProto
  import CallerSession
  import opened Engine
  import opened FakeAgents
  import opened Sessions

  class Rig {
    const sc: Scenario
    const index: nat
    const clock: ManualClock<Callback>
    const agent: FakeAgent
    const caller: Session
    const downlink: Queue
    ghost var trace: Trace

    ghost predicate Valid()
      reads this, clock, agent, caller, downlink
    {
      && clock.Valid() && agent.clock == clock && agent.downlink == downlink && agent.session == index
      && agent.cfg == sc.Cfg() && downlink.profile == sc.profile && downlink.rng == sc.rngs(index)
      && sc.profile.jitterMs >= 0
      && caller.clock == clock && caller.index == index && caller.sc == sc
         && caller.frameMs == CallerSession.FrameMs(sc) != 0
    }

    ghost function State(): Sess
      reads this, agent, caller, downlink
    {
      Sess(agent.State(), caller.State(), downlink.State(), trace)
    }

    constructor (sc: Scenario, index: nat, clock: ManualClock<Callback>)
      requires CallerSession.FrameMs(sc) != 0 && sc.profile.jitterMs >= 0 && clock.Valid()
      ensures Valid() && this.sc == sc && this.index == index && this.clock == clock
      ensures fresh(agent) && fresh(caller) && fresh(downlink)
      ensures State() == Sess(AgentProto.IDLE_AGENT, CallerSession.Caller([], 0, 0, 0), FRESH_LINK, EMPTY_TRACE)
    {
      var q := new Queue(sc.profile, sc.rngs(index));
      var a := new FakeAgent(sc.agent, clock, q, index);
      var c := new Session(index, clock, sc);
      this.sc, this.index, this.clock, agent, caller, downlink := sc, index, clock, a, c, q;
      trace := EMPTY_TRACE;
    }

    /** What the callback leaves: the session as React says, and on the clock what React schedules. */
    twostate predicate Reacted(cb: Callback)
      requires CallerSession.FrameMs(sc) != 0
      reads this, clock, agent, caller, downlink
    {
      var (s, rs) := React(sc, index, clock.now, old(State()), cb);
      && s.agent == agent.State() && s.caller == caller.State() && s.link == downlink.State()
      && clock.now == old(clock.now) && clock.history == old(clock.history) + Pushes(clock.now, index, rs)
    }

    method Speak(f: Frame, bargeIn: bool)
      requires Valid()
      modifies clock, caller
      ensures Valid() && Reacted(CallerSpeaks(f, bargeIn))
    {
      caller.Speak(f, bargeIn);
    }

    /** A frame reaches the agent's read pump (fake.go:94-108). */
    method Hear(f: Frame)
      requires Valid()
      modifies clock, agent
      ensures Valid() && Reacted(ToAgent(f))
    {
      if f.kind == Speech {
        agent.OnCallerSpeech();
      }
    }

    /** A frame reaches the caller's read pump (session.go:105-116). */
    method Receive(f: Frame)
      requires Valid()
      modifies clock, caller
      ensures Valid() && Reacted(ToCaller(f))
    {
      caller.OnRecv(f);
    }

    method MaybeRespond(gen: int, at: int)
      requires Valid()
      modifies clock, agent
      ensures Valid() && Reacted(Respond(gen, at))
    {
      agent.MaybeRespond(gen, at);
    }

    method OpenTurnNow(seqNo: int, ts: int)
      requires Valid()
      modifies clock, downlink
      ensures Valid() && Reacted(OpenTurn(seqNo, ts))
    {
      agent.Send(AgentProto.Control(TurnStart, seqNo, ts));
    }

    method EmitFrameNow(turn: int, idx: nat, ts: int)
      requires Valid()
      modifies clock, agent, downlink
      ensures Valid() && Reacted(EmitFrame(turn, idx, ts))
    {
      ghost var sent := agent.EmitAgentFrame(turn, ts);
    }

    method EmitEndNow(turn: int, endTs: int)
      requires Valid()
      modifies clock, agent, downlink
      ensures Valid() && Reacted(EmitEnd(turn, endTs))
    {
      ghost var sent := agent.EmitTurnEnd(turn, endTs);
    }

    method Run(cb: Callback)
      requires Valid()
      modifies clock, agent, caller, downlink
      ensures Valid() && Reacted(cb)
    {
      match cb
      case CallerSpeaks(f, b) => Speak(f, b);
      case ToAgent(f) => Hear(f);
      case ToCaller(f) => Receive(f);
      case Respond(gen, at) => MaybeRespond(gen, at);
      case OpenTurn(seqNo, ts) => OpenTurnNow(seqNo, ts);
      case EmitFrame(turn, idx, ts) => EmitFrameNow(turn, idx, ts);
      case EmitEnd(turn, endTs) => EmitEndNow(turn, endTs);
    }

    /** Run a callback of this session to completion, the consumer's reaction included. */
    method Handle(cb: Callback)
      requires Valid()
      modifies this, clock, agent, caller, downlink
      ensures Valid() && clock.now == old(clock.now)
      ensures var r := Fire(sc, index, clock.now, old(State()), cb);
              State() == r.0 && clock.history == old(clock.history) + Pushes(clock.now, index, r.1)
    {
      Run(cb);
      trace := Fire(sc, index, clock.now, old(State()), cb).0.trace;
    }
  }
}
