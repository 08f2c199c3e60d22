/** The scripted agent (internal/agentproto/fake.go) as functions on its fields. */
module AgentProto {
  import opened Audio
  import opened Basics
  import opened Scenarios

  /** Base of the sequence band of the agent's own timers. */
  const TIMER_SEQ_BASE := 0x100_0000_0000

  datatype Agent = Agent(
    seqNo: int,
    schedSeq: int,
    turn: int,
    talking: bool,
    speechGen: int,
    stopAt: int,
    interrupted: bool,
    ended: bool)

  const IDLE_AGENT := Agent(0, 0, 0, false, 0, 0, false, false)

  function Control(kind: Kind, seqNo: int, ts: int): Frame {
    Frame(seqNo, ts, 0, kind, 0)
  }

  /** When frame idx of a turn opened at t0 is due. */
  function FrameTs(c: AgentConfig, t0: int, idx: int): int {
    t0 + idx * c.frameMs + (if c.stallBeforeFrame > 0 && idx >= c.stallBeforeFrame then c.stallMs else 0)
  }

  function Frames(c: AgentConfig): nat { if c.framesPerTurn < 0 then 0 else c.framesPerTurn }

  /** When a turn opened at t0 ends if nobody interrupts it. */
  function FullEnd(c: AgentConfig, t0: int): int {
    (if Frames(c) == 0 then t0 else FrameTs(c, t0, Frames(c) - 1)) + c.frameMs
  }

  /** The n-th timer the agent has armed. */
  function Timer(at: int, n: int, fn: Callback): Request {
    Request(at, TIMER_SEQ_BASE + n, fn)
  }

  /** onCallerSpeech: a barge-in while talking, otherwise (re)arm endpointing. */
  function OnCallerSpeech(c: AgentConfig, a: Agent, now: int): (Agent, seq<Request>) {
    if a.talking then
      if !c.ignoreBargeIn && !a.interrupted then
        var stop := now + c.stopLatencyMs;
        var endAt := stop + c.frameMs;
        (a.(interrupted := true, stopAt := stop, schedSeq := a.schedSeq + 1),
         [Timer(endAt, a.schedSeq, EmitEnd(a.turn, endAt))])
      else (a, [])
    else
      var gen := a.speechGen + 1;
      var at := now + c.endpointMs;
      (a.(speechGen := gen, schedSeq := a.schedSeq + 1), [Timer(at, a.schedSeq, Respond(gen, at))])
  }

  /** The timers of turn `turn` opened at t0, numbered from s; its TurnStart frame carries seqNo. */
  function TurnTimers(c: AgentConfig, turn: int, t0: int, seqNo: int, s: int): seq<Request> {
    [Timer(t0, s, OpenTurn(seqNo, t0))]
    + seq(Frames(c), k requires 0 <= k => Timer(FrameTs(c, t0, k), s + 1 + k, EmitFrame(turn, k, FrameTs(c, t0, k))))
    + [Timer(FullEnd(c, t0), s + 1 + Frames(c), EmitEnd(turn, FullEnd(c, t0)))]
  }

  predicate Responds(a: Agent, gen: int) { !a.talking && a.speechGen == gen }

  /** maybeRespond and startTurn. */
  function MaybeRespond(c: AgentConfig, a: Agent, gen: int, at: int): (Agent, seq<Request>) {
    if !Responds(a, gen) then (a, [])
    else
      (a.(turn := a.turn + 1, talking := true, interrupted := false, ended := false,
          seqNo := a.seqNo + 1, schedSeq := a.schedSeq + Frames(c) + 2),
       TurnTimers(c, a.turn + 1, at, a.seqNo, a.schedSeq))
  }

  predicate Emits(a: Agent, turn: int, ts: int) {
    a.turn == turn && a.talking && !(a.interrupted && ts > a.stopAt)
  }

  /** emitAgentFrame: the frame handed to Send, unless stale or past the stop deadline. */
  function EmitAgentFrame(c: AgentConfig, a: Agent, turn: int, ts: int): (Agent, Option<Frame>) {
    if !Emits(a, turn, ts) then (a, None)
    else (a.(seqNo := a.seqNo + 1), Some(Frame(a.seqNo, ts, c.frameMs, AgentAudio, c.payloadLen)))
  }

  /** emitTurnEnd: close the turn once. */
  function EmitTurnEnd(a: Agent, turn: int, endTs: int): (Agent, Option<Frame>) {
    if a.turn != turn || a.ended then (a, None)
    else (a.(ended := true, talking := false, seqNo := a.seqNo + 1), Some(Control(TurnEnd, a.seqNo, endTs)))
  }
}
