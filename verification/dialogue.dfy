/** The conversation of a whole run, in the scenario's own numbers: what each turn says, when it opens and when it
    stops (internal/agentproto/fake.go:113-226). */
module Dialogue {
  import opened Basics
  import opened Scenarios
  import opened AgentProto
  import opened CallerSession
  import opened Engine
  import opened SessionView
  import opened TurnProtocol
  import opened SpokenTurns
  import opened Endpointing
  import opened OfflineRun

  /** Turn k is one stretch of what was sent, after the turns before it: TurnStart, a frame whenever one is due up to
      the stop deadline, TurnEnd. */
  lemma TurnIsSpoken(sc: Scenario, w: World, i: nat, k: nat)
    requires sc.Valid() && FrameMs(sc) > 0 && Ended(sc, w) && i < |w.sess| && k < |w.sess[i].trace.turns|
    ensures var t := w.sess[i].trace;
            var from, to := |Conversation(sc.Cfg(), t.turns[..k])|, |Conversation(sc.Cfg(), t.turns[..k + 1])|;
            && from <= to <= |t.sent| && IsTurn(sc, t.turns[k], from, t.sent[from..to])
            && (k == 0 ==> from == 0) && (k == |t.turns| - 1 ==> to == |t.sent|)
  {
    TurnsAreWhole(sc, w, i);
    TurnOfConversation(sc, w.sess[i].trace.turns, k);
  }

  lemma TurnOfConversation(sc: Scenario, turns: seq<TurnRec>, k: nat)
    requires sc.Valid() && k < |turns|
    ensures var all := Conversation(sc.Cfg(), turns);
            var from, to := |Conversation(sc.Cfg(), turns[..k])|, |Conversation(sc.Cfg(), turns[..k + 1])|;
            && from <= to <= |all| && IsTurn(sc, turns[k], from, all[from..to])
            && (k == 0 ==> from == 0) && (k == |turns| - 1 ==> to == |all|)
  {
    var c := sc.Cfg();
    var before := Conversation(c, turns[..k]);
    TurnInConversation(c, turns, k);
    ScriptIsTurn(sc, turns[k], |before|);
    assert Conversation(c, turns)[|before|..|before| + |TurnScript(c, turns[k], |before|)|]
           == TurnScript(c, turns[k], |before|);
    assert k == |turns| - 1 ==> turns[..k + 1] == turns;
  }

  lemma EndpointIs(sc: Scenario)
    requires sc.Valid()
    ensures sc.Cfg().endpointMs == EndpointMs(sc) > 0
  {}

  lemma EndpointedSession(sc: Scenario, w: World, i: nat)
    requires sc.Valid() && FrameMs(sc) > 0 && Reached(sc, w) && i < |w.sess|
    ensures EndpointedBy(sc, View(sc.Cfg(), w, i)) && sc.Cfg().endpointMs == EndpointMs(sc)
  {
    SessionKeeps(sc, w, i);
    EndpointIs(sc);
  }

  /** The agent answers after silence, and only then: every turn opens exactly the endpointing time after the last
      speech heard before it, with none in between. */
  lemma AnswersAfterSilence(sc: Scenario, w: World, i: nat)
    requires sc.Valid() && FrameMs(sc) > 0 && Reached(sc, w) && i < |w.sess|
    ensures var t := w.sess[i].trace;
            && HeardOnTime(t) && HeardInOrder(w.now, t.heardAt)
            && forall k: nat | k < |t.turns| :: AnswersSpeech(EndpointMs(sc), t.heardAt, t.turns[k])
  {
    EndpointedSession(sc, w, i);
  }

  /** Speech at x fell in one of the turns, its first and last instant included. */
  ghost predicate InATurn(sc: Scenario, turns: seq<TurnRec>, x: int)
    requires sc.agent.framesPerTurn > 0
  {
    exists k: nat :: k < |turns| && turns[k].t0 <= x <= TurnOverMs(sc, turns[k])
  }

  /** And always then: at quiescence all speech heard fell in a turn, was followed by more within the endpointing time,
      or opened a turn exactly that time later. */
  lemma SilenceIsAnswered(sc: Scenario, w: World, i: nat, n: nat)
    requires sc.Valid() && FrameMs(sc) > 0 && Ended(sc, w) && i < |w.sess| && n < |w.sess[i].trace.heardAt|
    ensures var t := w.sess[i].trace;
            || InATurn(sc, t.turns, t.heardAt[n])
            || (n + 1 < |t.heardAt| && t.heardAt[n + 1] <= t.heardAt[n] + EndpointMs(sc))
            || OpensTurn(t.turns, t.heardAt[n] + EndpointMs(sc))
  {
    EndpointedSession(sc, w, i);
    EndedSession(sc, w, i);
    var l := View(sc.Cfg(), w, i);
    EndIsPending(sc, i, l);
    AllAccounted(sc, l, n);
  }

  lemma AllAccounted(sc: Scenario, l: Local, n: nat)
    requires sc.Valid() && EndpointedBy(sc, l) && sc.Cfg().endpointMs == EndpointMs(sc)
    requires !l.s.agent.talking && l.m == multiset{} && n < |l.s.trace.heardAt|
    ensures var t := l.s.trace;
            || InATurn(sc, t.turns, t.heardAt[n])
            || (n + 1 < |t.heardAt| && t.heardAt[n + 1] <= t.heardAt[n] + EndpointMs(sc))
            || OpensTurn(t.turns, t.heardAt[n] + EndpointMs(sc))
  {
    var t, c, a := l.s.trace, sc.Cfg(), l.s.agent;
    assert Accounted(c, a, t.heardAt, t.turns, l.m, n);
    if InSomeTurn(c, a, t.turns, t.heardAt[n]) {
      var k: nat :| k < |t.turns| && During(c, t.turns[k], Speaking(a, t.turns, k), t.heardAt[n]);
      OverIs(sc, t.turns[k]);
    }
  }

  /** When speech heard at the given times stops turn r, if any does: the stop latency after the first heard in it. */
  ghost predicate StoppedAsHeard(sc: Scenario, at: seq<int>, r: TurnRec)
    requires sc.agent.framesPerTurn > 0
  {
    if sc.agent.ignoreBargeIn then r.stop.None?
    else if r.stop.Some? then
      exists n: nat :: n < |at| && FirstHeard(at, r, n) && r.stop.value == at[n] + sc.agent.stopLatencyMs
    else forall k | 0 <= k < |at| :: at[k] <= r.t0 || at[k] >= TurnOverMs(sc, r)
  }

  /** The first speech heard in a turn stops it, exactly the stop latency later; a turn in which none is heard, or whose
      agent ignores barge-ins, is not stopped. */
  lemma TurnsStopOnSpeech(sc: Scenario, w: World, i: nat, k: nat)
    requires sc.Valid() && FrameMs(sc) > 0 && Ended(sc, w) && i < |w.sess| && k < |w.sess[i].trace.turns|
    ensures StoppedAsHeard(sc, w.sess[i].trace.heardAt, w.sess[i].trace.turns[k])
  {
    EndpointedSession(sc, w, i);
    EndedSession(sc, w, i);
    var l := View(sc.Cfg(), w, i);
    EndIsPending(sc, i, l);
    var t := l.s.trace;
    assert StoppedBySpeech(sc.Cfg(), t.heardAt, t.turns[k], Speaking(l.s.agent, t.turns, k));
    StopIsHeard(sc, t.heardAt, t.turns[k]);
  }

  lemma StopIsHeard(sc: Scenario, at: seq<int>, r: TurnRec)
    requires sc.Valid() && StoppedBySpeech(sc.Cfg(), at, r, false)
    ensures StoppedAsHeard(sc, at, r)
  {
    OverIs(sc, r);
    if !sc.agent.ignoreBargeIn && r.stop.Some? {
      var n: nat :| n < |at| && Stops(sc.Cfg(), at, r, n);
    }
  }
}
