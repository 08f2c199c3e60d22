/** The synthetic caller (internal/session/session.go) as functions on its fields. */
module CallerSession {
  import opened Audio
  import opened Basics
  import opened Scenarios
  import opened EventLog

  datatype Caller = Caller(log: seq<Entry>, callerSeq: int, obsTurn: int, startMs: int)

  /** The caller's own frame cadence (internal/session/session.go:54-67). */
  function FrameMs(sc: Scenario): int {
    if sc.agent.frameMs == 0 then DEFAULT_FRAME_MS else sc.agent.frameMs
  }

  /** How many frames a speech burst takes; at least one. */
  function BurstLen(sc: Scenario, durMs: int): (n: nat)
    requires FrameMs(sc) != 0
    ensures n >= 1
  {
    var n := Quot(durMs, FrameMs(sc));
    if n <= 0 then 1 else n
  }

  function SpeechFrame(sc: Scenario, seqNo: int, ts: int, payloadLen: int): Frame {
    Frame(seqNo, ts, FrameMs(sc), Speech, payloadLen)
  }

  /** scheduleSpeechBurst: frames numbered from s, the first marked when it barges in. */
  function Burst(sc: Scenario, s: int, start: int, durMs: int, payloadLen: int, bargeIn: bool): seq<Request>
    requires FrameMs(sc) != 0
  {
    seq(BurstLen(sc, durMs), k requires 0 <= k =>
      var ts := start + k * FrameMs(sc);
      Request(ts, s + k, CallerSpeaks(SpeechFrame(sc, s + k, ts, payloadLen), bargeIn && k == 0)))
  }

  /** The prompts of the turns, numbered from s (scheduleCallerPrompts). */
  function Prompts(sc: Scenario, turns: seq<CallerTurn>, s: int, startMs: int): seq<Request>
    requires FrameMs(sc) != 0
  {
    if turns == [] then []
    else
      var t := turns[0];
      Burst(sc, s, startMs + t.atMs, t.durMs, t.payloadLen, false)
      + Prompts(sc, turns[1..], s + BurstLen(sc, t.durMs), startMs)
  }

  /** Prime at virtual time now. */
  function Prime(sc: Scenario, now: int): (Caller, seq<Request>)
    requires FrameMs(sc) != 0
  {
    var rs := Prompts(sc, sc.turns, 0, now);
    (Caller([], |rs|, 0, now), rs)
  }

  /** The barge-in scripted for an observed agent turn, if any. */
  function ScriptedBargeIn(sc: Scenario, turn: int): Option<BargeIn> {
    if 0 <= turn - 1 < |sc.turns| then sc.turns[turn - 1].bargeIn else None
  }

  /** A scheduled send fires: log it (and the barge-in it starts). */
  function OnSpeak(c: Caller, f: Frame, bargeIn: bool): Caller {
    c.(log := c.log
         + (if bargeIn then [Entry(BargedIn, f.ts, c.obsTurn, f)] else [])
         + [Entry(Send, f.ts, c.obsTurn, f)])
  }

  /** The log entry a received frame becomes, given the turn count after it. */
  function Received(f: Frame, now: int, turn: int): Entry {
    match f.kind
    case TurnStart => Entry(TurnStarted, now, turn, NO_FRAME)
    case TurnEnd => Entry(TurnEnded, now, turn, NO_FRAME)
    case _ => Entry(Recv, now, turn, f)
  }

  /** onRecv: record the frame; a TurnStart may schedule the scripted barge-in. */
  function OnRecv(sc: Scenario, c: Caller, f: Frame, now: int): (Caller, seq<Request>)
    requires FrameMs(sc) != 0
  {
    var turn := if f.kind == TurnStart then c.obsTurn + 1 else c.obsTurn;
    var logged := c.(obsTurn := turn, log := c.log + [Received(f, now, turn)]);
    var b := ScriptedBargeIn(sc, turn);
    if f.kind == TurnStart && b.Some? then
      var rs := Burst(sc, c.callerSeq, now + b.value.intoMs, b.value.durMs, b.value.payloadLen, true);
      (logged.(callerSeq := c.callerSeq + |rs|), rs)
    else (logged, [])
  }
}
