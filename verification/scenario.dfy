/** Scenarios and the callbacks they put on the clock (internal/script/script.go). */
module Scenarios {
  import opened Audio
  import opened Basics
  import opened Impair

  datatype AgentConfig = AgentConfig(
    framesPerTurn: int,
    frameMs: int,
    payloadLen: int,
    stopLatencyMs: int,
    ignoreBargeIn: bool,
    stallBeforeFrame: int,
    stallMs: int,
    endpointMs: int)
  {
    /** The defaults NewFakeAgent fills in (internal/agentproto/fake.go:77-88). */
    function Effective(): AgentConfig {
      var ms := if frameMs == 0 then DEFAULT_FRAME_MS else frameMs;
      this.(frameMs := ms,
            framesPerTurn := if framesPerTurn == 0 then 1 else framesPerTurn,
            endpointMs := if endpointMs == 0 then ms else endpointMs)
    }

    /** Non-negative timings, which scenario validation leaves to its callers. */
    predicate Timely() {
      frameMs > 0 && stopLatencyMs >= 0 && stallMs >= 0 && endpointMs > 0 && framesPerTurn > 0
    }
  }

  datatype BargeIn = BargeIn(intoMs: int, durMs: int, payloadLen: int)

  datatype CallerTurn = CallerTurn(atMs: int, durMs: int, payloadLen: int, bargeIn: Option<BargeIn>)

  datatype Scenario = Scenario(
    callers: nat,
    profile: Profile,
    agent: AgentConfig,
    turns: seq<CallerTurn>,
    rngs: nat -> Rng)
  {
    function Cfg(): AgentConfig { agent.Effective() }

    /** Validate (internal/script/script.go:101-123), with the agent timings it does not look at. */
    ghost predicate Valid() {
      && callers > 0 && turns != [] && agent.framesPerTurn > 0 && profile.Valid()
      && agent.frameMs >= 0 && agent.stopLatencyMs >= 0 && agent.stallMs >= 0 && agent.endpointMs >= 0
      && (forall t | t in turns :: t.atMs >= 0 && t.durMs >= 0 && (t.bargeIn.Some? ==> t.bargeIn.value.intoMs >= 0))
      && (forall i :: rngs(i).Valid())
    }
  }

  /** The frame cadence of both ends: the scripted one, or 20 ms. */
  function CadenceMs(sc: Scenario): int { if sc.agent.frameMs == 0 then 20 else sc.agent.frameMs }

  /** How long the agent listens before it answers: as scripted, or one frame. */
  function EndpointMs(sc: Scenario): int { if sc.agent.endpointMs == 0 then CadenceMs(sc) else sc.agent.endpointMs }

  /** When frame k of a turn opened at t0 is due: frame after frame, all from the stalled one on later by the stall. */
  function DueMs(sc: Scenario, t0: int, k: nat): int {
    t0 + k * CadenceMs(sc) + (if 0 < sc.agent.stallBeforeFrame <= k then sc.agent.stallMs else 0)
  }

  /** Everything that can sit on the clock for one session. */
  datatype Callback =
    | CallerSpeaks(frame: Frame, bargeIn: bool)
    | ToAgent(frame: Frame)
    | ToCaller(frame: Frame)
    | Respond(gen: int, at: int)
    | OpenTurn(seqNo: int, ts: int)
    | EmitFrame(turn: int, idx: nat, ts: int)
    | EmitEnd(turn: int, endTs: int)
  {
    predicate IsTimer() { Respond? || OpenTurn? || EmitFrame? || EmitEnd? }
    /** Timers that belong to a turn. */
    predicate IsTurnTimer() { OpenTurn? || EmitFrame? || EmitEnd? }
    predicate IsDelivery() { ToAgent? || ToCaller? }
  }

  /** A Schedule call: time, sequence number and callback. */
  datatype Request = Request(at: int, seqNo: int, fn: Callback)
}
