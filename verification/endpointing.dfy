/** When the agent answers and when it stops: exactly the endpointing silence after the last speech it heard, and
    exactly the stop latency after the first it heard of a barge-in (internal/agentproto/fake.go:113-157). */
module Endpointing {
  import opened Audio
  import opened Basics
  import opened Clock
  import opened Scenarios
  import opened AgentProto
  import opened CallerSession
  import opened Engine
  import opened SessionView
  import opened Soundness
  import opened TurnProtocol
  import opened TurnTimes
  import opened Arrivals

  /** Speech is heard as time goes by. */
  ghost predicate HeardInOrder(now: int, at: seq<int>) {
    && (forall j, k | 0 <= j < k < |at| :: at[j] <= at[k])
    && (forall k | 0 <= k < |at| :: at[k] <= now)
  }

  /** Turn r answers the n-th speech frame heard: it opens `endpoint` milliseconds later, none heard in between. */
  ghost predicate Answers(endpoint: int, at: seq<int>, r: TurnRec, n: nat)
    requires n < |at|
  {
    r.t0 == at[n] + endpoint && forall k | n < k < |at| :: at[k] >= r.t0
  }

  ghost predicate AnswersSpeech(endpoint: int, at: seq<int>, r: TurnRec) {
    exists n: nat :: n < |at| && Answers(endpoint, at, r, n)
  }

  /** The n-th speech frame heard is the first one heard in turn r. */
  ghost predicate FirstHeard(at: seq<int>, r: TurnRec, n: nat)
    requires n < |at|
  {
    at[n] >= r.t0 && forall k | 0 <= k < n :: at[k] <= r.t0
  }

  /** The n-th speech frame heard sets the stop deadline of turn r. */
  ghost predicate Stops(c: AgentConfig, at: seq<int>, r: TurnRec, n: nat)
    requires n < |at|
  {
    r.stop == Some(at[n] + c.stopLatencyMs) && FirstHeard(at, r, n)
  }

  /** The turn was stopped by the first speech heard in it; or none was, from when it opened to when it ended. */
  ghost predicate StoppedBySpeech(c: AgentConfig, at: seq<int>, r: TurnRec, speaking: bool) {
    if c.ignoreBargeIn then r.stop.None?
    else if r.stop.Some? then exists n: nat :: n < |at| && Stops(c, at, r, n)
    else forall k | 0 <= k < |at| :: at[k] <= r.t0 || (!speaking && at[k] >= EndTs(c, r))
  }

  /** Speech at time x falls in turn r. */
  predicate During(c: AgentConfig, r: TurnRec, speaking: bool, x: int) {
    r.t0 <= x && (speaking || x <= EndTs(c, r))
  }

  ghost predicate Speaking(a: Agent, turns: seq<TurnRec>, k: nat) { a.talking && k == |turns| - 1 }

  ghost predicate InSomeTurn(c: AgentConfig, a: Agent, turns: seq<TurnRec>, x: int) {
    exists k: nat :: k < |turns| && During(c, turns[k], Speaking(a, turns, k), x)
  }

  ghost predicate OpensTurn(turns: seq<TurnRec>, t0: int) { exists k: nat :: k < |turns| && turns[k].t0 == t0 }

  /** The endpointing timer that counts: the latest one armed. */
  predicate IsArmed(a: Agent, e: Pending) { e.fn.Respond? && e.fn.gen == a.speechGen }

  ghost predicate Armed(a: Agent, m: multiset<Pending>) { exists e :: e in m && IsArmed(a, e) }

  /** Speech heard as number n fell in a turn, was followed by more within the endpointing time, opened a turn, or is
      waited on. */
  ghost predicate Accounted(c: AgentConfig, a: Agent, at: seq<int>, turns: seq<TurnRec>, m: multiset<Pending>, n: nat)
    requires n < |at|
  {
    || InSomeTurn(c, a, turns, at[n])
    || (n + 1 < |at| && at[n + 1] <= at[n] + c.endpointMs)
    || OpensTurn(turns, at[n] + c.endpointMs)
    || (n == |at| - 1 && Armed(a, m))
  }

  /** The latest timer armed waits on the last speech heard, while the agent is silent; there is only one. */
  ghost predicate Waiting(c: AgentConfig, a: Agent, at: seq<int>, m: multiset<Pending>) {
    && (forall e | e in m && e.fn.Respond? :: e.fn.gen <= a.speechGen)
    && (forall e | e in m && IsArmed(a, e) :: !a.talking && at != [] && e.deliverAt == at[|at| - 1] + c.endpointMs)
    && (forall e, e' | e in m && e' in m && IsArmed(a, e) && IsArmed(a, e') :: e == e')
  }

  ghost predicate Endpointed(c: AgentConfig, now: int, a: Agent, at: seq<int>, turns: seq<TurnRec>,
                             m: multiset<Pending>)
  {
    && HeardInOrder(now, at)
    && Waiting(c, a, at, m)
    && (forall k: nat | k < |turns| :: turns[k].t0 <= now && AnswersSpeech(c.endpointMs, at, turns[k]))
    && (forall k: nat | k < |turns| :: StoppedBySpeech(c, at, turns[k], Speaking(a, turns, k)))
    && (forall k: nat | k < |turns| && !Speaking(a, turns, k) :: EndTs(c, turns[k]) <= now)
    && (forall n: nat | n < |at| :: Accounted(c, a, at, turns, m, n))
  }

  /** Frames are heard at their own times. */
  ghost predicate HeardOnTime(t: Trace) {
    && |t.heardAt| == |t.heard|
    && forall k | 0 <= k < |t.heard| :: t.heard[k].kind.Speech? && t.heardAt[k] == t.heard[k].ts
  }

  ghost predicate EndpointedBy(sc: Scenario, l: Local) {
    Endpointed(sc.Cfg(), l.now, l.s.agent, l.s.trace.heardAt, l.s.trace.turns, l.m) && HeardOnTime(l.s.trace)
  }

  // ---- the steps ----

  /** Same turns, as far as their times go. */
  ghost predicate SameTimes(turns: seq<TurnRec>, turns': seq<TurnRec>) {
    |turns'| == |turns| && forall k: nat | k < |turns| :: turns'[k].t0 == turns[k].t0 && turns'[k].stop == turns[k].stop
  }

  /** No endpointing timer is new, and the one that counts is still there. */
  ghost predicate SameArmed(a: Agent, m: multiset<Pending>, m': multiset<Pending>) {
    forall x: Pending | x.fn.Respond? :: (x in m' ==> x in m) && (IsArmed(a, x) && x in m ==> x in m')
  }

  lemma InTurnStays(c: AgentConfig, a: Agent, a': Agent, turns: seq<TurnRec>, turns': seq<TurnRec>, x: int)
    requires InSomeTurn(c, a, turns, x) && SameTimes(turns, turns') && a'.talking == a.talking
    ensures InSomeTurn(c, a', turns', x)
  {
    var k: nat :| k < |turns| && During(c, turns[k], Speaking(a, turns, k), x);
    assert During(c, turns'[k], Speaking(a', turns', k), x);
  }

  lemma AccountStays(c: AgentConfig, a: Agent, a': Agent, at: seq<int>, turns: seq<TurnRec>, turns': seq<TurnRec>,
                     m: multiset<Pending>, m': multiset<Pending>, n: nat)
    requires n < |at| && Accounted(c, a, at, turns, m, n) && SameTimes(turns, turns') && SameArmed(a, m, m')
    requires a'.talking == a.talking && a'.speechGen == a.speechGen
    ensures Accounted(c, a', at, turns', m', n)
  {
    if InSomeTurn(c, a, turns, at[n]) {
      InTurnStays(c, a, a', turns, turns', at[n]);
    } else if OpensTurn(turns, at[n] + c.endpointMs) {
      var k: nat :| k < |turns| && turns[k].t0 == at[n] + c.endpointMs;
      assert turns'[k].t0 == at[n] + c.endpointMs;
    } else if Armed(a, m) {
      var e :| e in m && IsArmed(a, e);
      assert e in m' && IsArmed(a', e);
    }
  }

  lemma StopStays(c: AgentConfig, at: seq<int>, r: TurnRec, r': TurnRec, speaking: bool)
    requires StoppedBySpeech(c, at, r, speaking) && r'.t0 == r.t0 && r'.stop == r.stop
    ensures StoppedBySpeech(c, at, r', speaking)
  {
    if !c.ignoreBargeIn && r.stop.Some? {
      var n: nat :| n < |at| && Stops(c, at, r, n);
      assert Stops(c, at, r', n);
    }
  }

  lemma AnswerStays(endpoint: int, at: seq<int>, r: TurnRec, r': TurnRec)
    requires AnswersSpeech(endpoint, at, r) && r'.t0 == r.t0
    ensures AnswersSpeech(endpoint, at, r')
  {
    var n: nat :| n < |at| && Answers(endpoint, at, r, n);
    assert Answers(endpoint, at, r', n);
  }

  /** Nothing that matters here happens. */
  lemma StandsStill(c: AgentConfig, now: int, now': int, a: Agent, a': Agent, at: seq<int>, turns: seq<TurnRec>,
                    turns': seq<TurnRec>, m: multiset<Pending>, m': multiset<Pending>)
    requires Endpointed(c, now, a, at, turns, m) && now <= now' && SameTimes(turns, turns') && SameArmed(a, m, m')
    requires a'.talking == a.talking && a'.speechGen == a.speechGen
    ensures Endpointed(c, now', a', at, turns', m')
  {
    forall n: nat | n < |at| ensures Accounted(c, a', at, turns', m', n) {
      AccountStays(c, a, a', at, turns, turns', m, m', n);
    }
    forall k: nat | k < |turns'|
      ensures AnswersSpeech(c.endpointMs, at, turns'[k]) && StoppedBySpeech(c, at, turns'[k], Speaking(a', turns', k))
    {
      AnswerStays(c.endpointMs, at, turns[k], turns'[k]);
      StopStays(c, at, turns[k], turns'[k], Speaking(a, turns, k));
    }
    assert forall k: nat | k < |turns'| :: EndTs(c, turns'[k]) == EndTs(c, turns[k]);
  }

  /** The turn being spoken ends when it is due. */
  lemma TurnCloses(c: AgentConfig, now: int, now': int, a: Agent, a': Agent, at: seq<int>, turns: seq<TurnRec>,
                   m: multiset<Pending>, m': multiset<Pending>)
    requires Endpointed(c, now, a, at, turns, m) && now <= now' && SameArmed(a, m, m')
    requires a.talking && turns != [] && EndTs(c, Last(turns)) == now' && !a'.talking && a'.speechGen == a.speechGen
    ensures Endpointed(c, now', a', at, turns, m')
  {
    forall n: nat | n < |at| ensures Accounted(c, a', at, turns, m', n) {
      assert Accounted(c, a, at, turns, m, n);
      if InSomeTurn(c, a, turns, at[n]) {
        var k: nat :| k < |turns| && During(c, turns[k], Speaking(a, turns, k), at[n]);
        assert During(c, turns[k], Speaking(a', turns, k), at[n]);
      }
    }
    forall k: nat | k < |turns| ensures StoppedBySpeech(c, at, turns[k], Speaking(a', turns, k)) {
      assert StoppedBySpeech(c, at, turns[k], Speaking(a, turns, k));
    }
  }

  /** The armed timer opens a turn. */
  lemma TurnOpens(c: AgentConfig, now: int, a: Agent, a': Agent, at: seq<int>, turns: seq<TurnRec>,
                  turns': seq<TurnRec>, m: multiset<Pending>, e: Pending, m': multiset<Pending>)
    requires Endpointed(c, now, a, at, turns, m) && now <= e.deliverAt
    requires e in m && IsArmed(a, e) && (forall x | x in m' && x.fn.Respond? :: x in m && x != e)
    requires a'.talking && a'.speechGen == a.speechGen
    requires |turns'| == |turns| + 1 && turns'[..|turns|] == turns
    requires turns'[|turns|].t0 == e.deliverAt && turns'[|turns|].stop == None
    ensures Endpointed(c, e.deliverAt, a', at, turns', m')
  {
    var r, last := turns'[|turns|], |at| - 1;
    assert Answers(c.endpointMs, at, r, last);
    assert forall k: nat | k < |turns| :: turns'[k] == turns[k];
    forall n: nat | n < |at| ensures Accounted(c, a', at, turns', m', n) {
      assert Accounted(c, a, at, turns, m, n);
      if InSomeTurn(c, a, turns, at[n]) {
        var k: nat :| k < |turns| && During(c, turns[k], Speaking(a, turns, k), at[n]);
        assert During(c, turns'[k], Speaking(a', turns', k), at[n]);
      } else if OpensTurn(turns, at[n] + c.endpointMs) {
        var k: nat :| k < |turns| && turns[k].t0 == at[n] + c.endpointMs;
        assert turns'[k].t0 == at[n] + c.endpointMs;
      } else if n == last {
        assert turns'[|turns|].t0 == at[n] + c.endpointMs;
      }
    }
    forall k: nat | k < |turns'| ensures StoppedBySpeech(c, at, turns'[k], Speaking(a', turns', k)) {
      if k < |turns| {
        assert StoppedBySpeech(c, at, turns[k], Speaking(a, turns, k));
      }
    }
    forall k: nat | k < |turns'| ensures AnswersSpeech(c.endpointMs, at, turns'[k]) {
      if k < |turns| {
        assert AnswersSpeech(c.endpointMs, at, turns[k]);
      }
    }
  }

  lemma AnswerHears(endpoint: int, at: seq<int>, now: int, r: TurnRec)
    requires AnswersSpeech(endpoint, at, r) && r.t0 <= now
    ensures AnswersSpeech(endpoint, at + [now], r)
  {
    var n: nat :| n < |at| && Answers(endpoint, at, r, n);
    assert Answers(endpoint, at + [now], r, n);
  }

  lemma StopHears(c: AgentConfig, at: seq<int>, now: int, r: TurnRec, speaking: bool)
    requires StoppedBySpeech(c, at, r, speaking)
    requires c.ignoreBargeIn || r.stop.Some? || (!speaking && now >= EndTs(c, r))
    ensures StoppedBySpeech(c, at + [now], r, speaking)
  {
    if !c.ignoreBargeIn && r.stop.Some? {
      var n: nat :| n < |at| && Stops(c, at, r, n);
      assert Stops(c, at + [now], r, n);
    }
  }

  /** Speech is heard while the agent is silent: endpointing starts again. */
  lemma HeardIdle(c: AgentConfig, now: int, now': int, a: Agent, a': Agent, at: seq<int>, turns: seq<TurnRec>,
                  m: multiset<Pending>, x: Pending, m': multiset<Pending>)
    requires Endpointed(c, now, a, at, turns, m) && now <= now' && !a.talking && !a'.talking
    requires a'.speechGen == a.speechGen + 1 && x.fn.Respond? && x.fn.gen == a'.speechGen
    requires x.deliverAt == now' + c.endpointMs && x in m' && forall y | y in m && y.fn.Respond? :: now' <= y.deliverAt
    requires forall y | y in m' && y.fn.Respond? :: y in m || y == x
    ensures Endpointed(c, now', a', at + [now'], turns, m')
  {
    var at' := at + [now'];
    assert IsArmed(a', x);
    forall n: nat | n < |at'| ensures Accounted(c, a', at', turns, m', n) {
      if n < |at| {
        assert Accounted(c, a, at, turns, m, n) && at'[n] == at[n];
        if InSomeTurn(c, a, turns, at[n]) {
          InTurnStays(c, a, a', turns, turns, at[n]);
        }
      }
    }
    forall k: nat | k < |turns|
      ensures AnswersSpeech(c.endpointMs, at', turns[k]) && StoppedBySpeech(c, at', turns[k], Speaking(a', turns, k))
    {
      AnswerHears(c.endpointMs, at, now', turns[k]);
      assert StoppedBySpeech(c, at, turns[k], Speaking(a, turns, k));
      StopHears(c, at, now', turns[k], false);
    }
  }

  /** What hearing speech now makes of the turn being spoken. */
  ghost predicate Interrupts(c: AgentConfig, now: int, r: TurnRec, r': TurnRec) {
    && r'.t0 == r.t0
    && r'.stop == if r.stop.None? && !c.ignoreBargeIn then Some(now + c.stopLatencyMs) else r.stop
  }

  lemma StopSets(c: AgentConfig, at: seq<int>, now: int, r: TurnRec, r': TurnRec)
    requires StoppedBySpeech(c, at, r, true) && Interrupts(c, now, r, r') && r.t0 <= now
    ensures StoppedBySpeech(c, at + [now], r', true)
  {
    if c.ignoreBargeIn || r.stop.Some? {
      StopHears(c, at, now, r, true);
      StopStays(c, at + [now], r, r', true);
    } else {
      assert Stops(c, at + [now], r', |at|);
    }
  }

  lemma AccountHears(c: AgentConfig, a: Agent, a': Agent, at: seq<int>, now: int, turns: seq<TurnRec>,
                     turns': seq<TurnRec>, m: multiset<Pending>, m': multiset<Pending>, n: nat)
    requires n < |at| && Accounted(c, a, at, turns, m, n) && !Armed(a, m) && a.talking && a'.talking
    requires |turns'| == |turns| && forall k: nat | k < |turns| ::
               turns'[k].t0 == turns[k].t0 && (k < |turns| - 1 ==> turns'[k] == turns[k])
    ensures Accounted(c, a', at + [now], turns', m', n)
  {
    if InSomeTurn(c, a, turns, at[n]) {
      var k: nat :| k < |turns| && During(c, turns[k], Speaking(a, turns, k), at[n]);
      assert During(c, turns'[k], Speaking(a', turns', k), at[n]);
    } else if OpensTurn(turns, at[n] + c.endpointMs) {
      var k: nat :| k < |turns| && turns[k].t0 == at[n] + c.endpointMs;
      assert turns'[k].t0 == at[n] + c.endpointMs;
    }
  }

  /** Speech is heard in a turn: the first of it sets the deadline. */
  lemma HeardTalking(c: AgentConfig, now: int, now': int, a: Agent, a': Agent, at: seq<int>, turns: seq<TurnRec>,
                     turns': seq<TurnRec>, m: multiset<Pending>, m': multiset<Pending>)
    requires Endpointed(c, now, a, at, turns, m) && now <= now' && SameArmed(a, m, m')
    requires a.talking && a'.talking && a'.speechGen == a.speechGen && turns != []
    requires |turns'| == |turns| && Before(turns') == Before(turns) && Interrupts(c, now', Last(turns), Last(turns'))
    ensures Endpointed(c, now', a', at + [now'], turns', m')
  {
    var at', last := at + [now'], |turns| - 1;
    forall k: nat | k < |turns| ensures turns'[k].t0 == turns[k].t0 && (k < last ==> turns'[k] == turns[k]) {
      assert k < last ==> Before(turns')[k] == turns'[k] && Before(turns)[k] == turns[k];
    }
    forall n: nat | n < |at'| ensures Accounted(c, a', at', turns', m', n) {
      if n == |at| {
        assert During(c, turns'[last], Speaking(a', turns', last), at'[n]);
      } else {
        AccountHears(c, a, a', at, now', turns, turns', m, m', n);
      }
    }
    forall k: nat | k < |turns'|
      ensures AnswersSpeech(c.endpointMs, at', turns'[k]) && StoppedBySpeech(c, at', turns'[k], Speaking(a', turns', k))
    {
      assert StoppedBySpeech(c, at, turns[k], Speaking(a, turns, k)) && AnswersSpeech(c.endpointMs, at, turns[k]);
      TurnHears(c, at, now', turns[k], turns'[k], k == last);
    }
  }

  lemma TurnHears(c: AgentConfig, at: seq<int>, now: int, r: TurnRec, r': TurnRec, speaking: bool)
    requires StoppedBySpeech(c, at, r, speaking) && AnswersSpeech(c.endpointMs, at, r) && r.t0 <= now
    requires if speaking then Interrupts(c, now, r, r') else r' == r && now >= EndTs(c, r)
    ensures StoppedBySpeech(c, at + [now], r', speaking) && AnswersSpeech(c.endpointMs, at + [now], r')
  {
    AnswerHears(c.endpointMs, at, now, r);
    AnswerStays(c.endpointMs, at + [now], r, r');
    if speaking {
      StopSets(c, at, now, r, r');
    } else {
      StopHears(c, at, now, r, false);
    }
  }

  // ---- each callback keeps it ----

  /** The invariant after session i went to s' at e, scheduling rs. */
  ghost predicate EndpointedAfter(sc: Scenario, i: nat, l: Local, e: Pending, s': Sess, rs: seq<Request>) {
    && Endpointed(sc.Cfg(), e.deliverAt, s'.agent, s'.trace.heardAt, s'.trace.turns, After(l, e, i, rs))
    && HeardOnTime(s'.trace)
  }

  lemma ArmedStays(i: nat, l: Local, e: Pending, rs: seq<Request>)
    requires e in l.m && !IsArmed(l.s.agent, e) && forall r | r in rs :: !r.fn.Respond?
    ensures SameArmed(l.s.agent, l.m, After(l, e, i, rs))
  {
    forall x: Pending | x.fn.Respond? && x in After(l, e, i, rs) ensures x in l.m {
      PendingAfter(l.m, e, e.deliverAt, i, rs, x);
    }
  }

  lemma QuietEndpoints(sc: Scenario, i: nat, l: Local, e: Pending, s': Sess, rs: seq<Request>)
    requires EndpointedBy(sc, l) && l.now <= e.deliverAt && e in l.m && !IsArmed(l.s.agent, e)
    requires forall r | r in rs :: !r.fn.Respond?
    requires s'.agent.talking == l.s.agent.talking && s'.agent.speechGen == l.s.agent.speechGen
    requires s'.trace.heardAt == l.s.trace.heardAt && s'.trace.heard == l.s.trace.heard
    requires SameTimes(l.s.trace.turns, s'.trace.turns)
    ensures EndpointedAfter(sc, i, l, e, s', rs)
  {
    ArmedStays(i, l, e, rs);
    StandsStill(sc.Cfg(), l.now, e.deliverAt, l.s.agent, s'.agent, l.s.trace.heardAt, l.s.trace.turns, s'.trace.turns,
                l.m, After(l, e, i, rs));
  }

  lemma SendHears(sc: Scenario, i: nat, now: int, s: Sess, f: Frame)
    ensures var t := SendDown(sc, i, now, s, f).0.trace; t.heard == s.trace.heard && t.heardAt == s.trace.heardAt
  {}

  lemma OpenEndpoints(sc: Scenario, i: nat, l: Local, e: Pending)
    requires EndpointedBy(sc, l) && l.now <= e.deliverAt && e in l.m && e.fn.OpenTurn?
    ensures var r := OpenTurnNow(sc, i, e.deliverAt, l.s, e.fn.seqNo, e.fn.ts); EndpointedAfter(sc, i, l, e, r.0, r.1)
  {
    var (s', rs) := OpenTurnNow(sc, i, e.deliverAt, l.s, e.fn.seqNo, e.fn.ts);
    var s := l.s.(trace := MarkStarted(l.s.trace));
    SendShape(sc, i, e.deliverAt, s, Control(TurnStart, e.fn.seqNo, e.fn.ts));
    SendHears(sc, i, e.deliverAt, s, Control(TurnStart, e.fn.seqNo, e.fn.ts));
    QuietEndpoints(sc, i, l, e, s', rs);
  }

  lemma EmitHears(sc: Scenario, i: nat, now: int, s: Sess, turn: int, ts: int)
    ensures var t := EmitFrameNow(sc, i, now, s, turn, ts).0.trace;
            t.heard == s.trace.heard && t.heardAt == s.trace.heardAt
  {}

  lemma FrameEndpoints(sc: Scenario, i: nat, l: Local, e: Pending)
    requires EndpointedBy(sc, l) && l.now <= e.deliverAt && e in l.m && e.fn.EmitFrame?
    requires l.s.agent.talking ==> l.s.trace.turns != []
    ensures var r := EmitFrameNow(sc, i, e.deliverAt, l.s, e.fn.turn, e.fn.ts); EndpointedAfter(sc, i, l, e, r.0, r.1)
  {
    var (s', rs) := EmitFrameNow(sc, i, e.deliverAt, l.s, e.fn.turn, e.fn.ts);
    EmitHears(sc, i, e.deliverAt, l.s, e.fn.turn, e.fn.ts);
    if !Stale(l.s.agent, e.fn) {
      EmitShape(sc, i, e.deliverAt, l.s, e.fn.turn, e.fn.ts);
    }
    QuietEndpoints(sc, i, l, e, s', rs);
  }

  lemma EndEndpoints(sc: Scenario, i: nat, l: Local, e: Pending)
    requires sc.Cfg().Timely() && TurnsOk(sc, i, l) && EndpointedBy(sc, l) && Enabled(l, e) && l.now <= e.deliverAt
    requires e.fn.EmitEnd? && e.fn.turn >= 1
    ensures var r := EmitEndNow(sc, i, e.deliverAt, l.s, e.fn.turn, e.fn.endTs); EndpointedAfter(sc, i, l, e, r.0, r.1)
  {
    var (s', rs) := EmitEndNow(sc, i, e.deliverAt, l.s, e.fn.turn, e.fn.endTs);
    var (a, f) := EmitTurnEnd(l.s.agent, e.fn.turn, e.fn.endTs);
    if f.Some? {
      SendShape(sc, i, e.deliverAt, l.s.(agent := a), f.value);
      SendHears(sc, i, e.deliverAt, l.s.(agent := a), f.value);
      EndIsDue(sc.Cfg(), i, l.now, l.s.agent, l.s.trace.sent, l.s.trace.turns, l.m, e);
      ArmedStays(i, l, e, rs);
      TurnCloses(sc.Cfg(), l.now, e.deliverAt, l.s.agent, s'.agent, l.s.trace.heardAt, l.s.trace.turns, l.m,
                 After(l, e, i, rs));
    } else {
      QuietEndpoints(sc, i, l, e, s', rs);
    }
  }

  /** The event that fires is no longer pending when it was there once. */
  lemma ArmedFires(i: nat, l: Local, e: Pending, rs: seq<Request>)
    requires e in l.m && l.m[e] == 1 && forall r | r in rs :: !r.fn.Respond?
    ensures forall x | x in After(l, e, i, rs) && x.fn.Respond? :: x in l.m && x != e
  {
    forall x | x in After(l, e, i, rs) && x.fn.Respond? ensures x in l.m && x != e {
      PendingAfter(l.m, e, e.deliverAt, i, rs, x);
      if x == e {
        assert x in multiset(Stamped(e.deliverAt, i, rs));
        StampedIn(e.deliverAt, i, rs, x);
      }
    }
  }

  lemma RespondEndpoints(sc: Scenario, i: nat, l: Local, e: Pending)
    requires EndpointedBy(sc, l) && TimersDistinct(l.m) && e in l.m && l.now <= e.deliverAt
    requires e.fn.Respond? && e.fn.at == e.deliverAt
    ensures var r := StartTurn(sc, l.s, e.fn.gen, e.fn.at); EndpointedAfter(sc, i, l, e, r.0, r.1)
  {
    var (s', rs) := StartTurn(sc, l.s, e.fn.gen, e.fn.at);
    StartTouches(sc, l.s, e.fn.gen, e.fn.at);
    if Responds(l.s.agent, e.fn.gen) {
      StartShape(sc, l.s, e.fn.gen, e.fn.at);
      TurnTimersArmNone(sc.Cfg(), l.s.agent.turn + 1, e.fn.at, l.s.agent.seqNo, l.s.agent.schedSeq);
      ArmedFires(i, l, e, rs);
      TurnOpens(sc.Cfg(), l.now, l.s.agent, s'.agent, l.s.trace.heardAt, l.s.trace.turns, s'.trace.turns, l.m, e,
                After(l, e, i, rs));
    } else {
      StaleTimersDoNothing(sc, i, e.deliverAt, l.s, e.fn);
      QuietEndpoints(sc, i, l, e, s', rs);
    }
  }

  lemma TurnTimersArmNone(c: AgentConfig, turn: int, t0: int, seqNo: int, s: int)
    ensures forall r | r in TurnTimers(c, turn, t0, seqNo, s) :: !r.fn.Respond?
  {}

  /** Hearing speech while silent re-arms endpointing. */
  lemma IdleShape(sc: Scenario, now: int, s: Sess, f: Frame)
    requires f.kind.Speech? && !s.agent.talking
    ensures var (s', rs) := HearFrame(sc, now, s, f);
            var gen, at := s.agent.speechGen + 1, now + sc.Cfg().endpointMs;
            && s'.agent == s.agent.(speechGen := gen, schedSeq := s.agent.schedSeq + 1)
            && rs == [Timer(at, s.agent.schedSeq, Respond(gen, at))]
            && s'.trace == s.trace.(heard := s.trace.heard + [f], heardAt := s.trace.heardAt + [now])
  {}

  lemma IdleEndpoints(sc: Scenario, i: nat, l: Local, e: Pending)
    requires sc.Cfg().Timely() && EndpointedBy(sc, l) && Enabled(l, e) && l.now <= e.deliverAt && !l.s.agent.talking
    requires e.fn.ToAgent? && e.fn.frame.kind.Speech? && e.fn.frame.ts == e.deliverAt
    ensures var r := HearFrame(sc, e.deliverAt, l.s, e.fn.frame); EndpointedAfter(sc, i, l, e, r.0, r.1)
  {
    var (s', rs) := HearFrame(sc, e.deliverAt, l.s, e.fn.frame);
    IdleShape(sc, e.deliverAt, l.s, e.fn.frame);
    var x := Stamp(e.deliverAt, i, rs[0]);
    assert Stamped(e.deliverAt, i, rs) == [x];
    forall y | y in After(l, e, i, rs) && y.fn.Respond? ensures y in l.m || y == x {
      PendingAfter(l.m, e, e.deliverAt, i, rs, y);
    }
    HeardIdle(sc.Cfg(), l.now, e.deliverAt, l.s.agent, s'.agent, l.s.trace.heardAt, l.s.trace.turns, l.m, x,
              After(l, e, i, rs));
  }

  /** Hearing speech in a turn. */
  lemma TalkShape(sc: Scenario, now: int, s: Sess, f: Frame)
    requires f.kind.Speech? && s.agent.talking && s.trace.turns != []
    requires s.agent.interrupted == Last(s.trace.turns).stop.Some?
    ensures var (s', rs) := HearFrame(sc, now, s, f);
            && s'.agent.talking && s'.agent.speechGen == s.agent.speechGen && (forall r | r in rs :: !r.fn.Respond?)
            && s'.trace.heard == s.trace.heard + [f] && s'.trace.heardAt == s.trace.heardAt + [now]
            && |s'.trace.turns| == |s.trace.turns| && Before(s'.trace.turns) == Before(s.trace.turns)
            && Interrupts(sc.Cfg(), now, Last(s.trace.turns), Last(s'.trace.turns))
  {}

  lemma TalkEndpoints(sc: Scenario, i: nat, l: Local, e: Pending)
    requires TurnsOk(sc, i, l) && EndpointedBy(sc, l) && e in l.m && l.now <= e.deliverAt && l.s.agent.talking
    requires e.fn.ToAgent? && e.fn.frame.kind.Speech? && e.fn.frame.ts == e.deliverAt && l.s.trace.turns != []
    ensures var r := HearFrame(sc, e.deliverAt, l.s, e.fn.frame); EndpointedAfter(sc, i, l, e, r.0, r.1)
  {
    var (s', rs) := HearFrame(sc, e.deliverAt, l.s, e.fn.frame);
    TalkShape(sc, e.deliverAt, l.s, e.fn.frame);
    ArmedStays(i, l, e, rs);
    HeardTalking(sc.Cfg(), l.now, e.deliverAt, l.s.agent, s'.agent, l.s.trace.heardAt, l.s.trace.turns, s'.trace.turns,
                 l.m, After(l, e, i, rs));
  }

  lemma CallbackEndpoints(sc: Scenario, i: nat, l: Local, e: Pending, s': Sess, rs: seq<Request>)
    requires FrameMs(sc) != 0 && sc.Cfg().Timely() && TurnsOk(sc, i, l) && Sound(sc, i, l) && Enabled(l, e)
    requires EndpointedBy(sc, l) && (s', rs) == React(sc, i, e.deliverAt, l.s, e.fn)
    ensures EndpointedAfter(sc, i, l, e, s', rs)
  {
    assert SoundEvent(sc, i, l.now, l.s, e);
    match e.fn
    case CallerSpeaks(_, _) => QuietEndpoints(sc, i, l, e, s', rs);
    case ToCaller(_) => QuietEndpoints(sc, i, l, e, s', rs);
    case ToAgent(_) =>
      if l.s.agent.talking {
        TalkEndpoints(sc, i, l, e);
      } else {
        IdleEndpoints(sc, i, l, e);
      }
    case Respond(_, _) => RespondEndpoints(sc, i, l, e);
    case OpenTurn(_, _) => OpenEndpoints(sc, i, l, e);
    case EmitFrame(_, _, _) => FrameEndpoints(sc, i, l, e);
    case EmitEnd(_, _) => EndEndpoints(sc, i, l, e);
  }

  lemma EndpointedFire(sc: Scenario, i: nat, l: Local, e: Pending)
    requires FrameMs(sc) != 0 && sc.Cfg().Timely() && TurnsOk(sc, i, l) && Sound(sc, i, l) && Enabled(l, e)
    requires EndpointedBy(sc, l)
    ensures EndpointedBy(sc, FireLocal(Reactor(sc), sc.Cfg(), i, l, e))
  {
    var (s', rs) := React(sc, i, e.deliverAt, l.s, e.fn);
    CallbackEndpoints(sc, i, l, e, s', rs);
  }

  lemma EndpointedWait(sc: Scenario, l: Local, t: int)
    requires EndpointedBy(sc, l) && Waits(l, t)
    ensures EndpointedBy(sc, l.(now := t))
  {
    StandsStill(sc.Cfg(), l.now, t, l.s.agent, l.s.agent, l.s.trace.heardAt, l.s.trace.turns, l.s.trace.turns, l.m,
                l.m);
  }
}
