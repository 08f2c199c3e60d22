/** What a turn of the agent is, frame by frame, in terms of the scenario (internal/agentproto/fake.go:163-226). */
module SpokenTurns {
  import opened Audio
  import opened Basics
  import opened Scenarios
  import opened AgentProto
  import opened Engine
  import opened Soundness
  import opened TurnProtocol

  /** One cadence after the last of F frames, or after the stop deadline if that is sooner. */
  function TurnOverMs(sc: Scenario, r: TurnRec): int
    requires sc.agent.framesPerTurn > 0
  {
    var full := DueMs(sc, r.t0, sc.agent.framesPerTurn - 1);
    (if r.stop.Some? && r.stop.value < full then r.stop.value else full) + CadenceMs(sc)
  }

  /** TurnStart when the turn opens, its frames as they are due up to the stop deadline, TurnEnd when it is over;
      numbered from s0. */
  ghost predicate IsTurn(sc: Scenario, r: TurnRec, s0: int, fs: seq<Frame>) {
    var n := |fs| - 2;
    && 0 <= n <= sc.agent.framesPerTurn && 0 < sc.agent.framesPerTurn
    && fs[0] == Frame(s0, r.t0, 0, TurnStart, 0)
    && (forall k: nat | k < n ::
          fs[k + 1] == Frame(s0 + 1 + k, DueMs(sc, r.t0, k), CadenceMs(sc), AgentAudio, sc.agent.payloadLen))
    && (forall k: nat | k < sc.agent.framesPerTurn :: k < n <==> r.stop.None? || DueMs(sc, r.t0, k) <= r.stop.value)
    && fs[n + 1] == Frame(s0 + 1 + n, TurnOverMs(sc, r), 0, TurnEnd, 0)
  }

  lemma DueIs(sc: Scenario, t0: int, k: nat)
    requires sc.Valid()
    ensures FrameTs(sc.Cfg(), t0, k) == DueMs(sc, t0, k) && sc.Cfg().Timely() && sc.Cfg().frameMs == CadenceMs(sc)
    ensures Frames(sc.Cfg()) == sc.agent.framesPerTurn && sc.Cfg().payloadLen == sc.agent.payloadLen
  {}

  /** The frames not after the deadline are the first ones. */
  lemma {:induction false} SpokenAreFirst(c: AgentConfig, t0: int, stop: Option<int>, k: nat)
    requires c.Timely()
    ensures var n := |SpokenTs(c, t0, stop, k)|;
            && n <= k && (forall j: nat | j < n :: SpokenTs(c, t0, stop, k)[j] == FrameTs(c, t0, j))
            && (forall j: nat | j < k :: j < n <==> !Silenced(c, t0, stop, j))
  {
    if k > 0 {
      SpokenAreFirst(c, t0, stop, k - 1);
      forall j: nat | j < k - 1 ensures Silenced(c, t0, stop, j) ==> Silenced(c, t0, stop, k - 1) {
        FrameTsMonotone(c, t0, j, k - 1);
      }
    }
  }

  lemma OverIs(sc: Scenario, r: TurnRec)
    requires sc.Valid()
    ensures EndTs(sc.Cfg(), r) == TurnOverMs(sc, r)
  {
    DueIs(sc, r.t0, Frames(sc.Cfg()) - 1);
  }

  /** What a turn's script looks like, given the times of its frames. */
  lemma ScriptFrames(c: AgentConfig, r: TurnRec, s0: int)
    ensures var fs, tss := TurnScript(c, r, s0), SpokenTs(c, r.t0, r.stop, Frames(c));
            && |fs| == |tss| + 2 && fs[0] == Frame(s0, r.t0, 0, TurnStart, 0)
            && (forall k: nat | k < |tss| ::
                  fs[k + 1] == Frame(s0 + 1 + k, tss[k], c.frameMs, AgentAudio, c.payloadLen))
            && fs[|tss| + 1] == Frame(s0 + 1 + |tss|, EndTs(c, r), 0, TurnEnd, 0)
  {}

  lemma FrameIsDue(sc: Scenario, r: TurnRec, k: nat, tss: seq<int>)
    requires sc.Valid() && (k < |tss| <==> !Silenced(sc.Cfg(), r.t0, r.stop, k))
    requires k < |tss| ==> tss[k] == FrameTs(sc.Cfg(), r.t0, k)
    ensures k < |tss| <==> r.stop.None? || DueMs(sc, r.t0, k) <= r.stop.value
    ensures k < |tss| ==> tss[k] == DueMs(sc, r.t0, k)
  {
    DueIs(sc, r.t0, k);
  }

  lemma SpokenWhenDue(sc: Scenario, r: TurnRec)
    requires sc.Valid()
    ensures var c := sc.Cfg();
            var tss := SpokenTs(c, r.t0, r.stop, Frames(c));
            && |tss| <= Frames(c) && (forall k: nat | k < |tss| :: tss[k] == DueMs(sc, r.t0, k))
            && (forall k: nat | k < Frames(c) :: k < |tss| <==> r.stop.None? || DueMs(sc, r.t0, k) <= r.stop.value)
  {
    var c := sc.Cfg();
    var tss := SpokenTs(c, r.t0, r.stop, Frames(c));
    SpokenAreFirst(c, r.t0, r.stop, Frames(c));
    forall k: nat | k < Frames(c)
      ensures k < |tss| <==> r.stop.None? || DueMs(sc, r.t0, k) <= r.stop.value
      ensures k < |tss| ==> tss[k] == DueMs(sc, r.t0, k)
    {
      FrameIsDue(sc, r, k, tss);
    }
  }

  lemma ScriptIsTurn(sc: Scenario, r: TurnRec, s0: int)
    requires sc.Valid()
    ensures IsTurn(sc, r, s0, TurnScript(sc.Cfg(), r, s0))
  {
    DueIs(sc, r.t0, 0);
    OverIs(sc, r);
    ScriptFrames(sc.Cfg(), r, s0);
    SpokenWhenDue(sc, r);
    FramesAreTurn(sc, r, s0, TurnScript(sc.Cfg(), r, s0), SpokenTs(sc.Cfg(), r.t0, r.stop, Frames(sc.Cfg())));
  }

  lemma FramesAreTurn(sc: Scenario, r: TurnRec, s0: int, fs: seq<Frame>, tss: seq<int>)
    requires sc.agent.framesPerTurn > 0 && |fs| == |tss| + 2 <= sc.agent.framesPerTurn + 2
    requires fs[0] == Frame(s0, r.t0, 0, TurnStart, 0)
    requires fs[|tss| + 1] == Frame(s0 + 1 + |tss|, TurnOverMs(sc, r), 0, TurnEnd, 0)
    requires forall k: nat | k < |tss| ::
               fs[k + 1] == Frame(s0 + 1 + k, tss[k], CadenceMs(sc), AgentAudio, sc.agent.payloadLen)
               && tss[k] == DueMs(sc, r.t0, k)
    requires forall k: nat | k < sc.agent.framesPerTurn ::
               k < |tss| <==> r.stop.None? || DueMs(sc, r.t0, k) <= r.stop.value
    ensures IsTurn(sc, r, s0, fs)
  {}

  /** The part of a conversation that is its k-th turn. */
  lemma {:induction false} TurnInConversation(c: AgentConfig, turns: seq<TurnRec>, k: nat)
    requires k < |turns|
    ensures var before, upTo := Conversation(c, turns[..k]), Conversation(c, turns[..k + 1]);
            upTo == before + TurnScript(c, turns[k], |before|) && upTo <= Conversation(c, turns)
  {
    var n := |turns| - 1;
    if k < n {
      TurnInConversation(c, turns[..n], k);
      assert turns[..n][..k] == turns[..k] && turns[..n][..k + 1] == turns[..k + 1];
    } else {
      assert turns[..k + 1] == turns;
    }
  }
}
