/** The caller object (internal/session/session.go). */
module Sessions {
  import opened Audio
  import opened Basics
  import opened Clock
  import opened EventLog
  import opened Scenarios
  import CallerSession
  import opened Engine
  import opened FakeAgents

  lemma {:induction false} PromptsOneMore(sc: Scenario, turns: seq<CallerTurn>, s: int, startMs: int, k: nat)
    requires CallerSession.FrameMs(sc) != 0 && k < |turns|
    ensures var before := CallerSession.Prompts(sc, turns[..k], s, startMs);
            var t := turns[k];
            CallerSession.Prompts(sc, turns[..k + 1], s, startMs)
            == before + CallerSession.Burst(sc, s + |before|, startMs + t.atMs, t.durMs, t.payloadLen, false)
    decreases k
  {
    if k == 0 {
      assert turns[..1][1..] == [];
      assert turns[..0] == [];
    } else {
      var n := CallerSession.BurstLen(sc, turns[0].durMs);
      assert turns[..k + 1][1..] == turns[1..][..k] && turns[..k][1..] == turns[1..][..k - 1];
      PromptsOneMore(sc, turns[1..], s + n, startMs, k - 1);
    }
  }

  lemma PushesConcat(now: int, i: nat, a: seq<Request>, b: seq<Request>)
    ensures Pushes(now, i, a + b) == Pushes(now, i, a) + Pushes(now, i, b)
  {}

  class Session {
    const index: nat
    const clock: ManualClock<Callback>
    const sc: Scenario
    const frameMs: int
    var log: seq<Entry>
    var callerSeq: int
    var obsTurn: int
    var startMs: int

    ghost predicate Valid()
      reads this, clock
    {
      frameMs == CallerSession.FrameMs(sc) != 0 && clock.Valid()
    }

    ghost function State(): CallerSession.Caller
      reads this
    {
      CallerSession.Caller(log, callerSeq, obsTurn, startMs)
    }

    constructor (index: nat, clock: ManualClock<Callback>, sc: Scenario)
      ensures this.index == index && this.clock == clock && this.sc == sc && frameMs == CallerSession.FrameMs(sc)
      ensures State() == CallerSession.Caller([], 0, 0, 0)
    {
      this.index, this.clock, this.sc := index, clock, sc;
      frameMs := if sc.agent.frameMs == 0 then DEFAULT_FRAME_MS else sc.agent.frameMs;
      log, callerSeq, obsTurn, startMs := [], 0, 0, 0;
    }

    method AppendEvent(e: Entry)
      modifies this`log
      ensures log == old(log) + [e]
    {
      log := log + [e];
    }

    method NextCallerSeq() returns (v: int)
      modifies this`callerSeq
      ensures v == old(callerSeq) && callerSeq == old(callerSeq) + 1
    {
      v := callerSeq;
      callerSeq := callerSeq + 1;
    }

    /** scheduleSpeechBurst (session.go:176-195). */
    method ScheduleSpeechBurst(start: int, durMs: int, payload: int, isBargeIn: bool)
      requires Valid()
      modifies this`callerSeq, clock
      ensures Valid() && clock.now == old(clock.now)
      ensures callerSeq == old(callerSeq) + CallerSession.BurstLen(sc, durMs)
      ensures clock.history == old(clock.history)
                + Pushes(clock.now, index, CallerSession.Burst(sc, old(callerSeq), start, durMs, payload, isBargeIn))
    {
      ghost var rs := CallerSession.Burst(sc, callerSeq, start, durMs, payload, isBargeIn);
      var n := Quot(durMs, frameMs);
      if n <= 0 {
        n := 1;
      }
      var i := 0;
      while i < n
        invariant 0 <= i <= n == |rs| && Valid() && clock.now == old(clock.now)
        invariant callerSeq == old(callerSeq) + i
        invariant clock.history == old(clock.history) + Pushes(clock.now, index, rs[..i])
      {
        var ts := start + i * frameMs;
        var seqNo := NextCallerSeq();
        var f := Frame(seqNo, ts, frameMs, Speech, payload);
        PushesOneMore(clock.now, index, rs, i);
        clock.Schedule(ts, seqNo, index, CallerSpeaks(f, isBargeIn && i == 0));
        i := i + 1;
      }
      assert rs[..n] == rs;
    }

    /** Prime and scheduleCallerPrompts (session.go:96-99, 128-133). */
    method Prime()
      requires Valid()
      modifies this`startMs, this`callerSeq, clock
      ensures Valid() && clock.now == old(clock.now)
      ensures callerSeq == old(callerSeq) + |CallerSession.Prompts(sc, sc.turns, old(callerSeq), clock.now)|
      ensures startMs == clock.now
      ensures clock.history == old(clock.history)
                + Pushes(clock.now, index, CallerSession.Prompts(sc, sc.turns, old(callerSeq), clock.now))
    {
      startMs := clock.now;
      var k := 0;
      ghost var rs: seq<Request> := [];
      while k < |sc.turns|
        invariant 0 <= k <= |sc.turns| && Valid() && clock.now == old(clock.now) == startMs
        invariant rs == CallerSession.Prompts(sc, sc.turns[..k], old(callerSeq), startMs)
        invariant callerSeq == old(callerSeq) + |rs|
                  && clock.history == old(clock.history) + Pushes(clock.now, index, rs)
      {
        PromptsOneMore(sc, sc.turns, old(callerSeq), startMs, k);
        rs := PromptTurn(sc.turns[k], rs, old(clock.history));
        k := k + 1;
      }
      assert sc.turns[..k] == sc.turns;
    }

    /** One turn's prompt, after those that scheduled rs. */
    method PromptTurn(t: CallerTurn, ghost rs: seq<Request>, ghost before: seq<HeapOp<Callback>>)
      returns (ghost rs': seq<Request>)
      requires Valid() && clock.history == before + Pushes(clock.now, index, rs)
      modifies this`callerSeq, clock
      ensures Valid() && clock.now == old(clock.now)
      ensures rs' == rs + CallerSession.Burst(sc, old(callerSeq), startMs + t.atMs, t.durMs, t.payloadLen, false)
      ensures callerSeq == old(callerSeq) + |rs'| - |rs| && clock.history == before + Pushes(clock.now, index, rs')
    {
      ghost var burst := CallerSession.Burst(sc, callerSeq, startMs + t.atMs, t.durMs, t.payloadLen, false);
      PushesConcat(clock.now, index, rs, burst);
      ScheduleSpeechBurst(startMs + t.atMs, t.durMs, t.payloadLen, false);
      rs' := rs + burst;
    }

    /** The scheduled callback of one speech frame (session.go:183-193), its Send on the clean uplink included. */
    method Speak(f: Frame, bargeIn: bool)
      requires Valid()
      modifies this`log, clock
      ensures Valid() && clock.now == old(clock.now)
      ensures State() == CallerSession.OnSpeak(old(State()), f, bargeIn)
      ensures clock.history == old(clock.history) + Pushes(clock.now, index, [Request(clock.now, f.seqNo, ToAgent(f))])
    {
      var turn := obsTurn;
      if bargeIn {
        AppendEvent(Entry(BargedIn, f.ts, turn, f));
      }
      AppendEvent(Entry(Send, f.ts, turn, f));
      clock.Schedule(clock.now, f.seqNo, index, ToAgent(f));
    }

    /** maybeScheduleBargeIn (session.go:157-168). */
    method MaybeScheduleBargeIn(turn: int, turnStartTs: int)
      requires Valid()
      modifies this`callerSeq, clock
      ensures Valid() && clock.now == old(clock.now)
      ensures match CallerSession.ScriptedBargeIn(sc, turn)
              case None => callerSeq == old(callerSeq) && clock.history == old(clock.history)
              case Some(b) =>
                var rs := CallerSession.Burst(sc, old(callerSeq), turnStartTs + b.intoMs, b.durMs, b.payloadLen, true);
                callerSeq == old(callerSeq) + |rs| && clock.history == old(clock.history) + Pushes(clock.now, index, rs)
    {
      var idx := turn - 1;
      if idx < 0 || idx >= |sc.turns| {
        return;
      }
      match sc.turns[idx].bargeIn
      case None =>
      case Some(b) => ScheduleSpeechBurst(turnStartTs + b.intoMs, b.durMs, b.payloadLen, true);
    }

    /** onRecv (session.go:138-153). */
    method OnRecv(f: Frame)
      requires Valid()
      modifies this, clock
      ensures Valid() && clock.now == old(clock.now)
      ensures var (c, rs) := CallerSession.OnRecv(sc, old(State()), f, clock.now);
              State() == c && clock.history == old(clock.history) + Pushes(clock.now, index, rs)
    {
      var now := clock.now;
      match f.kind
      case TurnStart =>
        obsTurn := obsTurn + 1;
        AppendEvent(Entry(TurnStarted, now, obsTurn, NO_FRAME));
        MaybeScheduleBargeIn(obsTurn, now);
      case TurnEnd => AppendEvent(Entry(TurnEnded, now, obsTurn, NO_FRAME));
      case _ => AppendEvent(Entry(Recv, now, obsTurn, f));
    }
  }
}
