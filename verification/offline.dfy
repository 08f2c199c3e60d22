/** What every offline run guarantees, for every scenario, seed and number of callers. */
module OfflineRun {
  import opened Audio
  import opened Impair
  import opened Clock
  import opened EventLog
  import opened Scenarios
  import opened AgentProto
  import opened CallerSession
  import opened Engine
  import opened SessionView
  import opened Sums
  import opened Soundness
  import opened RunBound
  import opened TurnProtocol
  import opened TurnTimes
  import opened Precision
  import opened Arrivals
  import opened Conservation
  import opened FifoDownlink
  import opened StopBound
  import opened Runs

  // ---- termination ----

  function FiredOf(): Sess -> int { (s: Sess) => s.trace.fired }

  function TotalFired(w: World): int { SumOf(w.sess, FiredOf()) }

  lemma {:induction false} SumAtMost<T>(s: seq<T>, f: T -> int, b: nat)
    requires forall x | x in s :: f(x) <= b
    ensures SumOf(s, f) <= |s| * b
  {
    if s != [] {
      SumAtMost(s[1..], f, b);
      assert |s| * b == b + (|s| - 1) * b;
    }
  }

  /** The reaction counts every event it handles. */
  ghost predicate Counts(fire: Reaction) {
    forall i: nat, now: int, s: Sess, cb: Callback :: fire(i, now, s, cb).0.trace.fired == s.trace.fired + 1
  }

  lemma ReactorCounts(sc: Scenario)
    requires FrameMs(sc) != 0
    ensures Counts(Reactor(sc))
  {}

  /** Each turn of the loop fires one event. */
  lemma AdvanceFires(fire: Reaction, w: World)
    requires w.heap != [] && Owned(w) && Counts(fire)
    ensures TotalFired(Turn(fire)(w)) == TotalFired(w) + 1
  {
    var e := Pop(w.heap).0;
    var now := Later(w.now, e.deliverAt);
    SumSplitAt(w.sess, e.session, fire(e.session, now, w.sess[e.session], e.fn).0, FiredOf());
  }

  lemma {:induction false} IdleStart(n: nat, sc: Scenario)
    requires FrameMs(sc) != 0
    ensures SumOf(seq(n, k => FreshSess(sc)), FiredOf()) == 0
  {
    if n > 0 {
      IdleStart(n - 1, sc);
      assert seq(n, k => FreshSess(sc))[1..] == seq(n - 1, k => FreshSess(sc));
    }
  }

  /** As long as the loop has not stopped, turns and fired events agree. */
  lemma {:induction false} FiredIsTurns(turn: World -> World, w: World, n: nat)
    requires forall k: nat | k < n :: Drives(turn, w, k).heap != []
    requires forall k: nat | k < n :: TotalFired(turn(Drives(turn, w, k))) == TotalFired(Drives(turn, w, k)) + 1
    ensures TotalFired(Drives(turn, w, n)) == TotalFired(w) + n
  {
    if n > 0 {
      FiredIsTurns(turn, w, n - 1);
    }
  }

  lemma {:induction false} QuietStays(turn: World -> World, w: World, m: nat, n: nat)
    requires m <= n && Drives(turn, w, m).heap == []
    ensures Drives(turn, w, n) == Drives(turn, w, m)
    decreases n
  {
    if m < n {
      QuietStays(turn, w, m, n - 1);
    }
  }

  /** A state of the drive loop. */
  ghost predicate Reached(sc: Scenario, w: World)
    requires FrameMs(sc) != 0
  {
    exists n: nat :: w == RunFor(sc, n)
  }

  lemma ReachedKeeps(sc: Scenario, w: World)
    requires sc.Valid() && FrameMs(sc) > 0 && Reached(sc, w)
    ensures RunInv(sc, w)
  {
    var n: nat :| w == RunFor(sc, n);
    RunKeeps(sc, n);
  }

  lemma SessionKeeps(sc: Scenario, w: World, i: nat)
    requires sc.Valid() && FrameMs(sc) > 0 && Reached(sc, w) && i < |w.sess|
    ensures |w.sess| == sc.callers && SessionInv(sc, i, View(sc.Cfg(), w, i))
  {
    ReachedKeeps(sc, w);
  }

  /** No session ever fires more than 3C + 2C(F + 2) events. */
  lemma SessionFiresAtMost(sc: Scenario, w: World, i: nat)
    requires sc.Valid() && FrameMs(sc) > 0 && Reached(sc, w) && i < |w.sess|
    ensures w.sess[i].trace.fired <= 3 * SpeechFrames(sc) + 2 * SpeechFrames(sc) * (Frames(sc.Cfg()) + 2)
  {
    SessionKeeps(sc, w, i);
    FiredWithin(sc, View(sc.Cfg(), w, i));
  }

  lemma FiredWithinBudget(sc: Scenario, w: World)
    requires sc.Valid() && FrameMs(sc) > 0 && Reached(sc, w)
    ensures TotalFired(w) <= LoopBound(sc)
  {
    ReachedKeeps(sc, w);
    forall s | s in w.sess ensures FiredOf()(s) <= EventBudget(sc) {
      var i: nat :| i < |w.sess| && w.sess[i] == s;
      SessionFiresAtMost(sc, w, i);
    }
    SumAtMost(w.sess, FiredOf(), EventBudget(sc));
  }

  function LoopBound(sc: Scenario): nat
    requires FrameMs(sc) != 0
  {
    sc.callers * EventBudget(sc)
  }

  lemma TurnFires(sc: Scenario, w: World)
    requires sc.Valid() && FrameMs(sc) > 0 && Reached(sc, w) && w.heap != []
    ensures TotalFired(Turn(Reactor(sc))(w)) == TotalFired(w) + 1
  {
    ReachedKeeps(sc, w);
    ReactorCounts(sc);
    AdvanceFires(Reactor(sc), w);
  }

  /** A loop whose turns each fire an event, of which there are at most b, stops within b turns. */
  lemma CountedLoopStops(turn: World -> World, w: World, b: nat)
    requires TotalFired(w) == 0
    requires forall k: nat | Drives(turn, w, k).heap != [] ::
               TotalFired(turn(Drives(turn, w, k))) == TotalFired(Drives(turn, w, k)) + 1
    requires forall k: nat :: TotalFired(Drives(turn, w, k)) <= b
    ensures Drives(turn, w, b).heap == []
  {
    if Drives(turn, w, b).heap != [] {
      forall k: nat | k < b + 1 ensures Drives(turn, w, k).heap != [] {
        if Drives(turn, w, k).heap == [] {
          QuietStays(turn, w, k, b);
        }
      }
      FiredIsTurns(turn, w, b + 1);
    }
  }

  /** The drive loop reaches quiescence within callers * (3C + 2C(F + 2)) turns. */
  lemma RunTerminates(sc: Scenario)
    requires sc.Valid() && FrameMs(sc) > 0
    ensures RunFor(sc, LoopBound(sc)).heap == []
  {
    var turn, w0 := Turn(Reactor(sc)), Start(sc);
    IdleStart(sc.callers, sc);
    forall k: nat
      ensures TotalFired(Drives(turn, w0, k)) <= LoopBound(sc)
      ensures Drives(turn, w0, k).heap != [] ==>
                TotalFired(turn(Drives(turn, w0, k))) == TotalFired(Drives(turn, w0, k)) + 1
    {
      ReachedFires(sc, k);
    }
    CountedLoopStops(turn, w0, LoopBound(sc));
  }

  lemma ReachedFires(sc: Scenario, k: nat)
    requires sc.Valid() && FrameMs(sc) > 0
    ensures TotalFired(RunFor(sc, k)) <= LoopBound(sc)
    ensures RunFor(sc, k).heap != [] ==> TotalFired(Turn(Reactor(sc))(RunFor(sc, k))) == TotalFired(RunFor(sc, k)) + 1
  {
    FiredWithinBudget(sc, RunFor(sc, k));
    if RunFor(sc, k).heap != [] {
      TurnFires(sc, RunFor(sc, k));
    }
  }

  // ---- the clock over a run ----

  /** a is due no later than b: by time, then number, then session. */
  predicate Ahead(a: Pending, b: Pending) {
    || a.deliverAt < b.deliverAt
    || (a.deliverAt == b.deliverAt && (a.seqNo < b.seqNo || (a.seqNo == b.seqNo && a.session <= b.session)))
  }

  /** Time never goes back: each turn fires the least pending event, at its own time, and none is ever overdue. */
  lemma TimeMovesOn(sc: Scenario, w: World)
    requires sc.Valid() && FrameMs(sc) > 0 && Reached(sc, w) && w.heap != []
    ensures IsLeast(Pop(w.heap).0, w.heap) && Owned(w)
    ensures w.now <= Pop(w.heap).0.deliverAt == Advance(Reactor(sc), w).now
    ensures forall e | e in w.heap :: e.deliverAt >= w.now && Ahead(Pop(w.heap).0, e)
  {
    ReachedKeeps(sc, w);
    NothingOverdue(sc, w);
    PopTakesLeast(w.heap);
  }

  /** No stream counter of any session has passed into the agent's timer band. */
  ghost predicate BelowBand(w: World) { forall s | s in w.sess :: SmallSeqs(s) }

  /** How far the stream counters can get: C speech frames, and F + 2 agent frames for each. */
  lemma CountersWithin(sc: Scenario, w: World, i: nat)
    requires sc.Valid() && FrameMs(sc) > 0 && Reached(sc, w) && i < |w.sess|
    ensures w.sess[i].caller.callerSeq <= SpeechFrames(sc) && w.sess[i].agent.seqNo <= VoiceBudget(sc)
  {
    SessionKeeps(sc, w, i);
    SeqsWithin(sc, View(sc.Cfg(), w, i));
  }

  /** A script of at most 2^40 possible agent frames, C(F + 2), never reaches the band. */
  lemma StaysBelowBand(sc: Scenario, w: World)
    requires sc.Valid() && FrameMs(sc) > 0 && Reached(sc, w) && VoiceBudget(sc) <= TIMER_SEQ_BASE
    ensures BelowBand(w)
  {
    forall s | s in w.sess ensures SmallSeqs(s) {
      var i: nat :| i < |w.sess| && w.sess[i] == s;
      CountersWithin(sc, w, i);
    }
  }

  lemma NumberedBelow(sc: Scenario, w: World, e: Pending)
    requires sc.Valid() && FrameMs(sc) > 0 && RunInv(sc, w) && e in w.heap && BelowBand(w)
    ensures e.fn.IsTimer() <==> e.seqNo >= TIMER_SEQ_BASE
  {
    EventCounted(sc.Cfg(), w, e.session, e);
    var l := View(sc.Cfg(), w, e.session);
    assert w.sess[e.session] in w.sess;
    NumberOf(sc, e.session, l.now, l.s, e);
  }

  lemma NumberOf(sc: Scenario, i: nat, now: int, s: Sess, e: Pending)
    requires SoundEvent(sc, i, now, s, e) && s.caller.callerSeq <= TIMER_SEQ_BASE && s.agent.seqNo <= TIMER_SEQ_BASE
    ensures e.fn.IsTimer() <==> e.seqNo >= TIMER_SEQ_BASE
  {}

  /** When an agent timer fires, every speech frame and delivery due at that instant, in any session, has fired. */
  lemma TimersFireLast(sc: Scenario, w: World)
    requires sc.Valid() && FrameMs(sc) > 0 && Reached(sc, w) && w.heap != [] && BelowBand(w)
    ensures Pop(w.heap).0.fn.IsTimer() ==>
              forall e | e in w.heap && !e.fn.IsTimer() :: e.deliverAt > Pop(w.heap).0.deliverAt
  {
    ReachedKeeps(sc, w);
    PopTakesLeast(w.heap);
    var first := Pop(w.heap).0;
    NumberedBelow(sc, w, first);
    forall e | e in w.heap && !e.fn.IsTimer() ensures first.fn.IsTimer() ==> e.deliverAt > first.deliverAt {
      NumberedBelow(sc, w, e);
      assert !Less(e, first);
    }
  }

  // ---- quiescence ----

  /** The state in which a run ends. */
  ghost predicate Ended(sc: Scenario, w: World)
    requires FrameMs(sc) != 0
  {
    Reached(sc, w) && w.heap == []
  }

  /** There is only one such state. */
  lemma EndIsUnique(sc: Scenario, w: World)
    requires sc.Valid() && FrameMs(sc) > 0 && Ended(sc, w)
    ensures w == RunFor(sc, LoopBound(sc))
  {
    var n: nat :| w == RunFor(sc, n);
    RunTerminates(sc);
    if n <= LoopBound(sc) {
      QuietStays(Turn(Reactor(sc)), Start(sc), n, LoopBound(sc));
    } else {
      QuietStays(Turn(Reactor(sc)), Start(sc), LoopBound(sc), n);
    }
  }

  lemma EndedSession(sc: Scenario, w: World, i: nat)
    requires sc.Valid() && FrameMs(sc) > 0 && Ended(sc, w) && i < |w.sess|
    ensures var l := View(sc.Cfg(), w, i);
            SessionInv(sc, i, l) && l.m == multiset{} && l.down == multiset{} && l.up == multiset{}
  {
    SessionKeeps(sc, w, i);
  }

  /** While the agent talks, the timer that ends its turn is pending. */
  lemma EndIsPending(sc: Scenario, i: nat, l: Local)
    requires TurnsOk(sc, i, l)
    ensures l.s.agent.talking ==> EndEvent(sc.Cfg(), i, l.s.agent.turn, Last(l.s.trace.turns)) in l.m
  {}

  /** The turn protocol: at quiescence the agent sent whole turns only, each TurnStart, the frames not past
      the stop deadline, TurnEnd, numbered without gaps. */
  lemma TurnsAreWhole(sc: Scenario, w: World, i: nat)
    requires sc.Valid() && FrameMs(sc) > 0 && Ended(sc, w) && i < |w.sess|
    ensures w.sess[i].trace.sent == Conversation(sc.Cfg(), w.sess[i].trace.turns)
    ensures |w.sess[i].trace.turns| == w.sess[i].agent.turn && !w.sess[i].agent.talking
  {
    EndedSession(sc, w, i);
    var l := View(sc.Cfg(), w, i);
    EndIsPending(sc, i, l);
  }

  /** The caller says what the script calls for: the frames logged as sent and the barge-ins logged are the prompts',
      frame after frame from the scripted time on, and those of the barge-in scripted for each turn seen to start, from
      exactly its delay after that, numbered on; nothing else, and at quiescence all. */
  lemma SpeechIsScripted(sc: Scenario, w: World, i: nat)
    requires sc.Valid() && FrameMs(sc) > 0 && Reached(sc, w) && i < |w.sess|
    ensures var c := w.sess[i].caller;
            && SpeechStamped(c.log) && Filed(c.log)
            && (forall x :: SaidCues(c.log, x) <= ScriptCues(sc, c.log, x))
            && (w.heap == [] ==> forall x :: SaidCues(c.log, x) == ScriptCues(sc, c.log, x))
  {
    SessionKeeps(sc, w, i);
    var l := View(sc.Cfg(), w, i);
    assert l.s == w.sess[i] && AnsweredBy(sc, l);
    assert w.heap == [] ==> l.cues == multiset{};
  }

  /** Barge-ins: every one logged answers a turn seen to start, exactly as long after it as the script says; each such
      turn is answered once, and at quiescence all of them have been. */
  lemma BargeInsArePrecise(sc: Scenario, w: World, i: nat)
    requires sc.Valid() && FrameMs(sc) > 0 && Reached(sc, w) && i < |w.sess|
    ensures var log := w.sess[i].caller.log;
            && LogPrecise(sc, log) && (forall ts :: BargesAt(log, ts) <= CallsAt(sc, log, ts))
            && (w.heap == [] ==> forall ts :: BargesAt(log, ts) == CallsAt(sc, log, ts))
  {
    SessionKeeps(sc, w, i);
    var l := View(sc.Cfg(), w, i);
    assert AnsweredBy(sc, l);
    AnsweredIsPrecise(sc, l.s.caller, l.cues);
    assert w.heap == [] ==> l.cues == multiset{};
  }

  /** At every moment the agent has sent whole turns and a prefix of the current one. Each turn is over before the next
      is opened, and what it sends lies in between. */
  lemma TurnsNeverOverlap(sc: Scenario, w: World, i: nat)
    requires sc.Valid() && FrameMs(sc) > 0 && Reached(sc, w) && i < |w.sess|
    ensures var s := w.sess[i];
            var c, t := sc.Cfg(), s.trace;
            if s.agent.talking then
              t.turns != [] && t.sent == Conversation(c, Before(t.turns))
                + SoFar(c, Last(t.turns), |Conversation(c, Before(t.turns))|)
            else t.sent == Conversation(c, t.turns)
    ensures var c, turns := sc.Cfg(), w.sess[i].trace.turns;
            && (forall j: nat, k: nat | j < k < |turns| :: EndTs(c, turns[j]) <= turns[k].t0)
            && (forall k: nat, s0: int, f | k < |turns| && f in TurnScript(c, turns[k], s0) :: Within(c, turns[k], f))
  {
    SessionKeeps(sc, w, i);
    ValidIsTimely(sc);
    var l := View(sc.Cfg(), w, i);
    SpacedTurnsDisjoint(sc.Cfg(), l.now, l.s.agent, l.s.trace.turns);
  }

  /** Conservation: every frame sent was dropped or received, every speech frame logged was heard. */
  lemma FramesAreConserved(sc: Scenario, w: World, i: nat)
    requires sc.Valid() && FrameMs(sc) > 0 && Ended(sc, w) && i < |w.sess|
    ensures var s := w.sess[i];
            && multiset(s.trace.sent) == multiset(s.link.dropped) + multiset(s.trace.got)
            && multiset(SentFrames(s.caller.log)) == multiset(s.trace.heard)
            && |s.trace.sent| == |s.link.dropped| + |Receipts(s.caller.log)|
  {
    EndedSession(sc, w, i);
    var s := w.sess[i];
    ReplayLength(s.trace.got, s.trace.gotAt);
    assert |multiset(s.trace.sent)| == |multiset(s.link.dropped)| + |multiset(s.trace.got)|;
  }

  lemma {:induction false} ReplayLength(got: seq<Frame>, at: seq<int>)
    requires |got| == |at|
    ensures |Replay(got, at)| == |got|
  {
    if got != [] {
      ReplayLength(got[..|got| - 1], at[..|got| - 1]);
    }
  }

  /** The frames received are the first ones kept, numbered and timed in order. */
  ghost predicate ReceivedInOrder(t: Trace) {
    && t.got <= t.kept && |t.gotAt| == |t.got|
    && (forall j, k | 0 <= j < k < |t.got| :: t.got[j].seqNo < t.got[k].seqNo && t.gotAt[j] <= t.gotAt[k])
  }

  lemma OrderIsReceived(t: Trace)
    requires InOrderSoFar(t)
    ensures ReceivedInOrder(t)
  {}

  /** On any link frames come by time, and within a millisecond by number. */
  ghost predicate ByTimeAndNumber(t: Trace) {
    && |t.gotAt| == |t.got|
    && forall j, k | 0 <= j < k < |t.got| :: NotLater(t.gotAt[j], t.got[j].seqNo, t.gotAt[k], t.got[k].seqNo)
  }

  lemma ArrivesByTimeAndNumber(sc: Scenario, w: World, i: nat)
    requires sc.Valid() && FrameMs(sc) > 0 && Reached(sc, w) && i < |w.sess|
    ensures ByTimeAndNumber(w.sess[i].trace)
  {
    SessionKeeps(sc, w, i);
    assert ArrivedBy(View(sc.Cfg(), w, i));
  }

  /** FIFO: through an ordering link the caller receives exactly the kept frames, in send order. */
  lemma DownlinkIsFifo(sc: Scenario, w: World, i: nat)
    requires sc.Valid() && FrameMs(sc) > 0 && Reached(sc, w) && i < |w.sess| && OrderingLink(sc)
    ensures ReceivedInOrder(w.sess[i].trace)
  {
    SessionKeeps(sc, w, i);
    OrderIsReceived(w.sess[i].trace);
  }

  /** Without loss such a link delivers the whole conversation, in order. */
  lemma LosslessDelivery(sc: Scenario, w: World, i: nat)
    requires sc.Valid() && FrameMs(sc) > 0 && Ended(sc, w) && i < |w.sess| && OrderingLink(sc) && sc.profile.Lossless()
    ensures var t := w.sess[i].trace; t.got == t.sent == Conversation(sc.Cfg(), t.turns)
  {
    EndedSession(sc, w, i);
    TurnsAreWhole(sc, w, i);
    var l := View(sc.Cfg(), w, i);
    NextInFlight(i, l.s.trace, l.m);
  }

  /** Through a transparent link the agent is heard to stop within its stop latency of every barge-in. */
  lemma AgentStopsInTime(sc: Scenario, w: World, i: nat)
    requires sc.Valid() && FrameMs(sc) > 0 && Reached(sc, w) && i < |w.sess|
    requires Transparent(sc.profile) && !sc.agent.ignoreBargeIn && SmallSeqs(w.sess[i])
    ensures StopsInTime(sc, w.sess[i].caller.log)
  {
    SessionKeeps(sc, w, i);
  }
}
