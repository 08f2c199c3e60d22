/** The agent object and the end of the loopback it sends through (internal/agentproto/fake.go,
    internal/transport/loopback.go:94-114). */
module FakeAgents {
  import opened Audio
  import opened Basics
  import opened Clock
  import opened Impair
  import opened Scenarios
  import AgentProto
  import opened Engine

  /** Session i's requests, as the clock takes them at time now. */
  function Pushes(now: int, i: nat, rs: seq<Request>): seq<HeapOp<Callback>> {
    seq(|rs|, k requires 0 <= k < |rs| => Pushed(Stamp(now, i, rs[k])))
  }

  lemma PushesOneMore(now: int, i: nat, rs: seq<Request>, k: nat)
    requires k < |rs|
    ensures Pushes(now, i, rs[..k + 1]) == Pushes(now, i, rs[..k]) + [Pushed(Stamp(now, i, rs[k]))]
  {}

  lemma {:induction false} RebuildPushes(ops: seq<HeapOp<Callback>>, now: int, i: nat, rs: seq<Request>)
    ensures Rebuild(ops + Pushes(now, i, rs)) == PushAll(Rebuild(ops), now, i, rs)
    decreases |rs|
  {
    if rs == [] {
      assert ops + Pushes(now, i, rs) == ops;
    } else {
      var first := ops + [Pushed(Stamp(now, i, rs[0]))];
      assert ops + Pushes(now, i, rs) == first + Pushes(now, i, rs[1..]);
      RebuildOne(ops, Pushed(Stamp(now, i, rs[0])));
      RebuildPushes(first, now, i, rs[1..]);
    }
  }

  /** What sending f through the downlink schedules. */
  function SendRequests(p: Profile, g: Rng, q: Link, f: Frame, now: int): seq<Request> {
    var due := Delay(p, g, q, f, now).1;
    if due.None? then [] else [Request(due.value, f.seqNo, ToCaller(f))]
  }

  class FakeAgent {
    const cfg: AgentConfig
    const clock: ManualClock<Callback>
    const downlink: Queue
    const session: nat
    var seqNo: int
    var schedSeq: int
    var turn: int
    var talking: bool
    var speechGen: int
    var stopAt: int
    var interrupted: bool
    var ended: bool

    ghost function State(): AgentProto.Agent
      reads this
    {
      AgentProto.Agent(seqNo, schedSeq, turn, talking, speechGen, stopAt, interrupted, ended)
    }

    constructor (cfg: AgentConfig, clock: ManualClock<Callback>, downlink: Queue, session: nat)
      ensures this.cfg == cfg.Effective() && this.clock == clock && this.downlink == downlink && this.session == session
      ensures State() == AgentProto.IDLE_AGENT
    {
      this.cfg, this.clock, this.downlink, this.session := cfg.Effective(), clock, downlink, session;
      seqNo, schedSeq, turn, talking := 0, 0, 0, false;
      speechGen, stopAt, interrupted, ended := 0, 0, false, false;
    }

    method NextSchedSeq() returns (s: int)
      modifies this`schedSeq
      ensures s == AgentProto.TIMER_SEQ_BASE + old(schedSeq) && schedSeq == old(schedSeq) + 1
    {
      s := AgentProto.TIMER_SEQ_BASE + schedSeq;
      schedSeq := schedSeq + 1;
    }

    method NextSeq() returns (s: int)
      modifies this`seqNo
      ensures s == old(seqNo) && seqNo == old(seqNo) + 1
    {
      s := seqNo;
      seqNo := seqNo + 1;
    }

    /** scheduleAt (fake.go:259-261): the agent's timers are numbered in their own band. */
    method ScheduleAt(ts: int, fn: Callback)
      requires clock.Valid()
      modifies this`schedSeq, clock
      ensures clock.Valid() && clock.now == old(clock.now) && schedSeq == old(schedSeq) + 1
      ensures clock.history == old(clock.history)
              + Pushes(clock.now, session, [AgentProto.Timer(ts, old(schedSeq), fn)])
    {
      var s := NextSchedSeq();
      clock.Schedule(ts, s, session, fn);
    }

    /** Send (loopback.go:94-114) on an open end: shape, and schedule the delivery unless dropped. */
    method Send(f: Frame)
      requires clock.Valid() && downlink.profile.jitterMs >= 0
      modifies clock, downlink
      ensures clock.Valid() && clock.now == old(clock.now)
      ensures downlink.State() == Delay(downlink.profile, downlink.rng, old(downlink.State()), f, clock.now).0
      ensures clock.history == old(clock.history)
                + Pushes(clock.now, session, SendRequests(downlink.profile, downlink.rng, old(downlink.State()), f,
                                                          clock.now))
    {
      var due := downlink.DelayFrame(f, clock.now);
      if due.Some? {
        clock.Schedule(due.value, f.seqNo, session, ToCaller(f));
      }
    }

    /** onCallerSpeech (fake.go:113-139). */
    method OnCallerSpeech()
      requires clock.Valid()
      modifies this, clock
      ensures clock.Valid() && clock.now == old(clock.now)
      ensures var (a, rs) := AgentProto.OnCallerSpeech(cfg, old(State()), clock.now);
              State() == a && clock.history == old(clock.history) + Pushes(clock.now, session, rs)
    {
      if talking {
        if !cfg.ignoreBargeIn && !interrupted {
          interrupted := true;
          stopAt := clock.now + cfg.stopLatencyMs;
          var endAt := stopAt + cfg.frameMs;
          ScheduleAt(endAt, EmitEnd(turn, endAt));
        }
        return;
      }
      speechGen := speechGen + 1;
      var respondAt := clock.now + cfg.endpointMs;
      ScheduleAt(respondAt, Respond(speechGen, respondAt));
    }

    /** maybeRespond (fake.go:144-157). */
    method MaybeRespond(gen: int, at: int)
      requires clock.Valid()
      modifies this, clock
      ensures clock.Valid() && clock.now == old(clock.now)
      ensures var (a, rs) := AgentProto.MaybeRespond(cfg, old(State()), gen, at);
              State() == a && clock.history == old(clock.history) + Pushes(clock.now, session, rs)
    {
      if talking || speechGen != gen {
        return;
      }
      turn := turn + 1;
      talking := true;
      interrupted := false;
      ended := false;
      StartTurn(turn, at);
    }

    /** startTurn (fake.go:163-189): TurnStart, one timer a frame, TurnEnd. */
    method StartTurn(turnNo: int, t0: int)
      requires clock.Valid()
      modifies this`seqNo, this`schedSeq, clock
      ensures clock.Valid() && clock.now == old(clock.now)
      ensures seqNo == old(seqNo) + 1 && schedSeq == old(schedSeq) + AgentProto.Frames(cfg) + 2
      ensures clock.history == old(clock.history)
                + Pushes(clock.now, session, AgentProto.TurnTimers(cfg, turnNo, t0, old(seqNo), old(schedSeq)))
    {
      ArmTurn(turnNo, t0, AgentProto.TurnTimers(cfg, turnNo, t0, seqNo, schedSeq));
    }

    /** When frame i of a turn opened at t0 is due (fake.go:176-181). */
    method FrameTime(t0: int, i: nat) returns (ts: int)
      ensures ts == AgentProto.FrameTs(cfg, t0, i)
    {
      var offset := i * cfg.frameMs;
      if cfg.stallBeforeFrame > 0 && i >= cfg.stallBeforeFrame {
        offset := offset + cfg.stallMs;
      }
      ts := t0 + offset;
    }

    /** The body of startTurn; rs names the timers it arms, in order. */
    method ArmTurn(turnNo: int, t0: int, ghost rs: seq<Request>)
      requires clock.Valid() && |rs| == AgentProto.Frames(cfg) + 2
      requires rs[0] == AgentProto.Timer(t0, schedSeq, OpenTurn(seqNo, t0))
      requires forall k: nat | k < AgentProto.Frames(cfg) ::
                 var ts := AgentProto.FrameTs(cfg, t0, k);
                 rs[k + 1] == AgentProto.Timer(ts, schedSeq + 1 + k, EmitFrame(turnNo, k, ts))
      requires var n, end := AgentProto.Frames(cfg), AgentProto.FullEnd(cfg, t0);
               rs[n + 1] == AgentProto.Timer(end, schedSeq + 1 + n, EmitEnd(turnNo, end))
      modifies this`seqNo, this`schedSeq, clock
      ensures clock.Valid() && clock.now == old(clock.now)
      ensures seqNo == old(seqNo) + 1 && schedSeq == old(schedSeq) + AgentProto.Frames(cfg) + 2
      ensures clock.history == old(clock.history) + Pushes(clock.now, session, rs)
    {
      ghost var s0 := schedSeq;
      var startSeq := NextSeq();
      ScheduleAt(t0, OpenTurn(startSeq, t0));
      assert rs[..1] == [rs[0]];
      var lastFrameTs := t0;
      var i := 0;
      while i < cfg.framesPerTurn
        invariant 0 <= i <= AgentProto.Frames(cfg) && clock.Valid() && clock.now == old(clock.now)
        invariant seqNo == old(seqNo) + 1 && schedSeq == s0 + 1 + i
        invariant lastFrameTs == if i == 0 then t0 else AgentProto.FrameTs(cfg, t0, i - 1)
        invariant clock.history == old(clock.history) + Pushes(clock.now, session, rs[..i + 1])
      {
        lastFrameTs := FrameTime(t0, i);
        PushesOneMore(clock.now, session, rs, i + 1);
        ScheduleAt(lastFrameTs, EmitFrame(turnNo, i, lastFrameTs));
        i := i + 1;
      }
      PushesOneMore(clock.now, session, rs, i + 1);
      assert rs[..i + 2] == rs;
      ScheduleAt(lastFrameTs + cfg.frameMs, EmitEnd(turnNo, lastFrameTs + cfg.frameMs));
    }

    /** emitAgentFrame (fake.go:193-207): the frame sent, or nothing when stale or past the stop deadline. */
    method EmitAgentFrame(turnNo: int, ts: int) returns (ghost sent: Option<Frame>)
      requires clock.Valid() && downlink.profile.jitterMs >= 0
      modifies this, clock, downlink
      ensures clock.Valid() && clock.now == old(clock.now)
      ensures (State(), sent) == AgentProto.EmitAgentFrame(cfg, old(State()), turnNo, ts)
      ensures SentOrNot(old(downlink.State()), old(clock.history), sent)
    {
      sent := None;
      if turn != turnNo || !talking {
        return;
      }
      if interrupted && ts > stopAt {
        return;
      }
      var s := NextSeq();
      var f := Frame(s, ts, cfg.frameMs, AgentAudio, cfg.payloadLen);
      sent := Some(f);
      Send(f);
    }

    /** emitTurnEnd (fake.go:214-226): close the turn once. */
    method EmitTurnEnd(turnNo: int, endTs: int) returns (ghost sent: Option<Frame>)
      requires clock.Valid() && downlink.profile.jitterMs >= 0
      modifies this, clock, downlink
      ensures clock.Valid() && clock.now == old(clock.now)
      ensures (State(), sent) == AgentProto.EmitTurnEnd(old(State()), turnNo, endTs)
      ensures SentOrNot(old(downlink.State()), old(clock.history), sent)
    {
      sent := None;
      if turn != turnNo || ended {
        return;
      }
      ended := true;
      talking := false;
      var f := AgentProto.Control(TurnEnd, seqNo, endTs);
      seqNo := seqNo + 1;
      sent := Some(f);
      Send(f);
    }

    /** The downlink and the clock after sending the frame, if there was one. */
    ghost predicate SentOrNot(q: Link, h: seq<HeapOp<Callback>>, f: Option<Frame>)
      reads clock, downlink
    {
      if f.None? then downlink.State() == q && clock.history == h
      else
        && downlink.State() == Delay(downlink.profile, downlink.rng, q, f.value, clock.now).0
        && clock.history == h + Pushes(clock.now, session,
                                       SendRequests(downlink.profile, downlink.rng, q, f.value, clock.now))
    }
  }
}
