/** The turn protocol: what the agent hands to Send over a whole run (internal/agentproto/fake.go:113-226). */
module TurnProtocol {
  import opened Audio
  import opened Basics
  import opened Clock
  import opened Scenarios
  import opened AgentProto
  import opened CallerSession
  import opened Engine
  import opened SessionView
  import opened Soundness

  // ---- what a turn is supposed to send ----

  /** Frame k of a turn opened at t0 falls after the stop deadline. */
  predicate Silenced(c: AgentConfig, t0: int, stop: Option<int>, k: nat) {
    stop.Some? && FrameTs(c, t0, k) > stop.value
  }

  /** Times of the frames among the first k that are not after the stop deadline. */
  function SpokenTs(c: AgentConfig, t0: int, stop: Option<int>, k: nat): seq<int> {
    if k == 0 then []
    else SpokenTs(c, t0, stop, k - 1) + (if Silenced(c, t0, stop, k - 1) then [] else [FrameTs(c, t0, k - 1)])
  }

  function Voice(c: AgentConfig, tss: seq<int>, s0: int): seq<Frame> {
    seq(|tss|, k requires 0 <= k < |tss| => Frame(s0 + k, tss[k], c.frameMs, AgentAudio, c.payloadLen))
  }

  /** A turn ends one frame after its last frame, or one frame after the stop deadline if that is sooner. */
  function EndTs(c: AgentConfig, r: TurnRec): int {
    if r.stop.Some? && r.stop.value + c.frameMs < FullEnd(c, r.t0) then r.stop.value + c.frameMs else FullEnd(c, r.t0)
  }

  /** TurnStart, the frames not after the stop deadline, TurnEnd; numbered from s0. */
  function TurnScript(c: AgentConfig, r: TurnRec, s0: int): seq<Frame> {
    var tss := SpokenTs(c, r.t0, r.stop, Frames(c));
    [Control(TurnStart, s0, r.t0)] + Voice(c, tss, s0 + 1) + [Control(TurnEnd, s0 + 1 + |tss|, EndTs(c, r))]
  }

  /** Whole turns one after the other, numbered without gaps. */
  function Conversation(c: AgentConfig, turns: seq<TurnRec>): seq<Frame> {
    if turns == [] then []
    else
      var before := Conversation(c, turns[..|turns| - 1]);
      before + TurnScript(c, turns[|turns| - 1], |before|)
  }

  /** The part of the turn sent when `r.fired` of its frame timers went off. */
  function SoFar(c: AgentConfig, r: TurnRec, s0: int): seq<Frame> {
    if !r.started then [] else [Control(TurnStart, s0, r.t0)] + Voice(c, SpokenTs(c, r.t0, r.stop, r.fired), s0 + 1)
  }

  // ---- the invariant ----

  function Last(turns: seq<TurnRec>): TurnRec
    requires turns != []
  {
    turns[|turns| - 1]
  }

  function Before(turns: seq<TurnRec>): seq<TurnRec>
    requires turns != []
  {
    turns[..|turns| - 1]
  }

  ghost predicate TurnShape(c: AgentConfig, now: int, a: Agent, sent: seq<Frame>, turns: seq<TurnRec>) {
    && |turns| == a.turn
    && (turns == [] ==> !a.talking && !a.interrupted && !a.ended)
    && (turns != [] ==>
          && a.ended == !a.talking
          && a.interrupted == Last(turns).stop.Some?
          && (a.interrupted ==> a.stopAt == Last(turns).stop.value && a.stopAt >= Last(turns).t0))
    && (!a.talking ==> sent == Conversation(c, turns) && a.seqNo == |sent|)
    && (a.talking ==>
          var r := Last(turns);
          && r.t0 <= now && r.fired <= Frames(c) && (!r.started ==> r.fired == 0)
          && (forall k: nat | k < r.fired :: FrameTs(c, r.t0, k) <= now)
          && sent == Conversation(c, Before(turns)) + SoFar(c, r, |Conversation(c, Before(turns))|)
          && a.seqNo == |sent| + (if r.started then 0 else 1))
  }

  function OpenEvent(i: nat, r: TurnRec, seqNo: int): Pending {
    Event(r.t0, TIMER_SEQ_BASE + r.sched, i, OpenTurn(seqNo, r.t0))
  }

  function FrameEvent(c: AgentConfig, i: nat, turn: int, r: TurnRec, k: nat): Pending {
    var ts := FrameTs(c, r.t0, k);
    Event(ts, TIMER_SEQ_BASE + r.sched + 1 + k, i, EmitFrame(turn, k, ts))
  }

  function EndEvent(c: AgentConfig, i: nat, turn: int, r: TurnRec): Pending {
    var ts := FullEnd(c, r.t0);
    Event(ts, TIMER_SEQ_BASE + r.sched + 1 + Frames(c), i, EmitEnd(turn, ts))
  }

  predicate IsStopEnd(c: AgentConfig, a: Agent, e: Pending) {
    a.interrupted && e.deliverAt == a.stopAt + c.frameMs && e.fn == EmitEnd(a.turn, a.stopAt + c.frameMs)
  }

  /** The pending timers of the turn being spoken are exactly the ones it still needs. */
  ghost predicate TurnTimed(c: AgentConfig, i: nat, a: Agent, r: TurnRec, m: multiset<Pending>) {
    && (!r.started ==> OpenEvent(i, r, a.seqNo - 1) in m)
    && (forall k: nat | r.fired <= k < Frames(c) :: FrameEvent(c, i, a.turn, r, k) in m)
    && EndEvent(c, i, a.turn, r) in m
    && (a.interrupted ==> exists e :: e in m && IsStopEnd(c, a, e))
    && (forall e | e in m && e.fn.EmitFrame? && e.fn.turn == a.turn ::
          r.fired <= e.fn.idx < Frames(c) && e == FrameEvent(c, i, a.turn, r, e.fn.idx))
    && (forall e | e in m && e.fn.EmitEnd? && e.fn.turn == a.turn ::
          e == EndEvent(c, i, a.turn, r) || IsStopEnd(c, a, e))
    && (forall e | e in m && e.fn.OpenTurn? :: !r.started && e == OpenEvent(i, r, a.seqNo - 1))
  }

  ghost predicate TurnInv(c: AgentConfig, i: nat, now: int, a: Agent, sent: seq<Frame>, turns: seq<TurnRec>,
                          m: multiset<Pending>)
  {
    && TurnShape(c, now, a, sent, turns)
    && (a.talking ==> TurnTimed(c, i, a, Last(turns), m))
    && (!a.talking ==> forall e | e in m :: !e.fn.OpenTurn?)
  }

  // ---- each callback keeps it ----

  /** A deadline no frame so far exceeds leaves what was said alone. */
  lemma {:induction false} SpokenUnaffected(c: AgentConfig, t0: int, stop: Option<int>, k: nat)
    requires forall j: nat | j < k :: !Silenced(c, t0, stop, j)
    ensures SpokenTs(c, t0, stop, k) == SpokenTs(c, t0, None, k)
  {
    if k > 0 {
      SpokenUnaffected(c, t0, stop, k - 1);
    }
  }

  lemma {:induction false} SpokenComplete(c: AgentConfig, t0: int, stop: Option<int>, j: nat, k: nat)
    requires j <= k && forall x: nat | j <= x < k :: Silenced(c, t0, stop, x)
    ensures SpokenTs(c, t0, stop, k) == SpokenTs(c, t0, stop, j)
    decreases k
  {
    if j < k {
      SpokenComplete(c, t0, stop, j, k - 1);
    }
  }

  /** From m to m', turn timers change by losing e and gaining `added`. */
  ghost predicate Moves(m: multiset<Pending>, e: Pending, added: seq<Pending>, m': multiset<Pending>) {
    forall x: Pending | x.fn.IsTurnTimer() :: x in m' <==> (x in m && x != e) || x in added
  }

  lemma MovesBy(m: multiset<Pending>, e: Pending, added: seq<Pending>)
    requires e in m && TimersDistinct(m)
    ensures Moves(m, e, added, m - multiset{e} + multiset(added))
  {
    var m' := m - multiset{e} + multiset(added);
    forall x: Pending | x.fn.IsTurnTimer() ensures x in m' <==> (x in m && x != e) || x in added {
      assert x in multiset(added) <==> x in added;
    }
  }

  /** Events that are no turn timers come and go without touching the turn. */
  lemma OthersKeep(c: AgentConfig, i: nat, now: int, now': int, a: Agent, a': Agent, sent: seq<Frame>,
                   turns: seq<TurnRec>,
                   m: multiset<Pending>, e: Pending, added: seq<Pending>, m': multiset<Pending>)
    requires TurnInv(c, i, now, a, sent, turns, m) && now <= now' && Moves(m, e, added, m')
    requires !e.fn.IsTurnTimer() && forall x | x in added :: !x.fn.IsTurnTimer()
    requires a' == a.(schedSeq := a'.schedSeq, speechGen := a'.speechGen)
    ensures TurnInv(c, i, now', a', sent, turns, m')
  {
    if a.talking && a.interrupted {
      var x :| x in m && IsStopEnd(c, a, x);
      assert x in m' && IsStopEnd(c, a', x);
    }
  }

  /** A stale or redundant timer is a no-op. */
  lemma StaleKeeps(c: AgentConfig, i: nat, now: int, now': int, a: Agent, sent: seq<Frame>, turns: seq<TurnRec>,
                   m: multiset<Pending>, e: Pending, m': multiset<Pending>)
    requires TurnInv(c, i, now, a, sent, turns, m) && now <= now' && Moves(m, e, [], m')
    requires (e.fn.EmitFrame? && (e.fn.turn != a.turn || !a.talking))
             || (e.fn.EmitEnd? && (e.fn.turn != a.turn || a.ended))
    ensures TurnInv(c, i, now', a, sent, turns, m')
  {
    if a.talking && a.interrupted {
      var x :| x in m && IsStopEnd(c, a, x);
      assert x in m';
    }
  }

  lemma InterruptTimes(c: AgentConfig, i: nat, a: Agent, a': Agent, r: TurnRec, r': TurnRec,
                       m: multiset<Pending>, e: Pending, stopEnd: Pending, m': multiset<Pending>)
    requires TurnTimed(c, i, a, r, m) && Moves(m, e, [stopEnd], m') && !e.fn.IsTurnTimer() && !a.interrupted
    requires r' == r.(stop := r'.stop)
    requires a'.interrupted && a'.turn == a.turn && a'.seqNo == a.seqNo && IsStopEnd(c, a', stopEnd)
    ensures TurnTimed(c, i, a', r', m')
  {
    assert stopEnd in m';
    assert forall k: nat :: FrameEvent(c, i, a.turn, r, k) == FrameEvent(c, i, a.turn, r', k);
  }

  /** A barge-in sets the deadline and arms the early end. */
  lemma InterruptKeeps(c: AgentConfig, i: nat, now: int, now': int, a: Agent, a': Agent, sent: seq<Frame>,
                       turns: seq<TurnRec>, turns': seq<TurnRec>, m: multiset<Pending>, e: Pending, stopEnd: Pending,
                       m': multiset<Pending>)
    requires c.Timely() && TurnInv(c, i, now, a, sent, turns, m) && now <= now' && Moves(m, e, [stopEnd], m')
    requires !e.fn.IsTurnTimer() && a.talking && !a.interrupted && turns != []
    requires stopEnd.deliverAt == now' + c.stopLatencyMs + c.frameMs && stopEnd.fn == EmitEnd(a.turn, stopEnd.deliverAt)
    requires a' == a.(interrupted := true, stopAt := now' + c.stopLatencyMs, schedSeq := a.schedSeq + 1)
    requires turns' == turns[|turns| - 1 := Last(turns).(stop := Some(a'.stopAt))]
    ensures TurnInv(c, i, now', a', sent, turns', m')
  {
    var r, r' := Last(turns), Last(turns');
    assert Before(turns') == Before(turns);
    SpokenUnaffected(c, r.t0, r'.stop, r.fired);
    InterruptTimes(c, i, a, a', r, r', m, e, stopEnd, m');
  }

  /** The j-th timer of a fresh turn, as it sits on the heap. */
  lemma StartedTimer(c: AgentConfig, i: nat, a: Agent, t0: int, j: nat)
    requires c.Timely() && j < Frames(c) + 2
    ensures var added := Stamped(t0, i, TurnTimers(c, a.turn + 1, t0, a.seqNo, a.schedSeq));
            var r := TurnRec(t0, None, a.schedSeq, false, 0);
            && |added| == Frames(c) + 2
            && added[j] == (if j == 0 then OpenEvent(i, r, a.seqNo)
                            else if j <= Frames(c) then FrameEvent(c, i, a.turn + 1, r, j - 1)
                            else EndEvent(c, i, a.turn + 1, r))
  {
    TimerAt(c, a.turn + 1, t0, a.seqNo, a.schedSeq, j);
    FrameTsAfter(c, t0, if j == 0 then 0 else j - 1);
  }

  lemma StartTimes(c: AgentConfig, i: nat, a: Agent, a': Agent, t0: int, m: multiset<Pending>, e: Pending,
                   added: seq<Pending>, m': multiset<Pending>)
    requires c.Timely() && Moves(m, e, added, m')
    requires forall x | x in m && x.fn.IsTurnTimer() :: !x.fn.OpenTurn? && x.fn.turn <= a.turn
    requires added == Stamped(t0, i, TurnTimers(c, a.turn + 1, t0, a.seqNo, a.schedSeq))
    requires a'.turn == a.turn + 1 && a'.seqNo == a.seqNo + 1 && !a'.interrupted
    ensures TurnTimed(c, i, a', TurnRec(t0, None, a.schedSeq, false, 0), m')
  {
    var r := TurnRec(t0, None, a.schedSeq, false, 0);
    StartedTimer(c, i, a, t0, 0);
    assert added[0] in added;
    forall k: nat | k < Frames(c) ensures FrameEvent(c, i, a'.turn, r, k) in m' {
      StartedTimer(c, i, a, t0, k + 1);
      assert added[k + 1] in added;
    }
    StartedTimer(c, i, a, t0, Frames(c) + 1);
    assert added[Frames(c) + 1] in added;
    forall x | x in m' && x.fn.IsTurnTimer() && (x.fn.OpenTurn? || x.fn.turn == a'.turn)
      ensures x == OpenEvent(i, r, a.seqNo) || x == EndEvent(c, i, a'.turn, r)
              || (x.fn.EmitFrame? && x.fn.idx < Frames(c) && x == FrameEvent(c, i, a'.turn, r, x.fn.idx))
    {
      assert x in added;
      var j: nat :| j < |added| && x == added[j];
      StartedTimer(c, i, a, t0, j);
    }
  }

  /** A turn starts with all its timers. */
  lemma StartKeeps(c: AgentConfig, i: nat, now: int, a: Agent, a': Agent, sent: seq<Frame>,
                   turns: seq<TurnRec>, turns': seq<TurnRec>, m: multiset<Pending>, e: Pending, added: seq<Pending>,
                   m': multiset<Pending>)
    requires c.Timely() && TurnInv(c, i, now, a, sent, turns, m) && now <= e.deliverAt && Moves(m, e, added, m')
    requires !a.talking
    requires forall x | x in m && (x.fn.EmitFrame? || x.fn.EmitEnd?) :: x.fn.turn <= a.turn
    requires added == Stamped(e.deliverAt, i, TurnTimers(c, a.turn + 1, e.deliverAt, a.seqNo, a.schedSeq))
    requires a' == a.(turn := a.turn + 1, talking := true, interrupted := false, ended := false,
                      seqNo := a.seqNo + 1, schedSeq := a.schedSeq + Frames(c) + 2)
    requires turns' == turns + [TurnRec(e.deliverAt, None, a.schedSeq, false, 0)]
    ensures TurnInv(c, i, e.deliverAt, a', sent, turns', m')
  {
    assert Before(turns') == turns;
    StartTimes(c, i, a, a', e.deliverAt, m, e, added, m');
  }

  /** TurnStart goes out once, first. */
  lemma OpenKeeps(c: AgentConfig, i: nat, now: int, a: Agent, sent: seq<Frame>, turns: seq<TurnRec>,
                  m: multiset<Pending>, e: Pending, added: seq<Pending>, m': multiset<Pending>)
    requires TurnInv(c, i, now, a, sent, turns, m) && now <= e.deliverAt && Moves(m, e, added, m')
    requires e in m && e.fn.OpenTurn? && forall x | x in added :: !x.fn.IsTurnTimer()
    ensures a.talking && turns != [] && e.fn.seqNo == |sent|
    ensures TurnInv(c, i, e.deliverAt, a, sent + [Control(TurnStart, e.fn.seqNo, e.fn.ts)],
                    turns[|turns| - 1 := Last(turns).(started := true)], m')
  {
    var r := Last(turns);
    var r' := r.(started := true);
    var turns' := turns[|turns| - 1 := r'];
    assert Before(turns') == Before(turns);
    assert forall k: nat :: FrameEvent(c, i, a.turn, r, k) == FrameEvent(c, i, a.turn, r', k);
    if a.interrupted {
      var x :| x in m && IsStopEnd(c, a, x);
      assert x in m';
    }
    assert Voice(c, SpokenTs(c, r.t0, r.stop, 0), |sent| + 1) == [];
  }

  /** A frame timer of the turn being spoken fires in turn, after TurnStart. */
  lemma FrameIsNext(c: AgentConfig, i: nat, a: Agent, r: TurnRec, m: multiset<Pending>, e: Pending)
    requires c.Timely() && TurnTimed(c, i, a, r, m)
    requires e in m && (forall x | x in m :: !Less(x, e)) && e.fn.EmitFrame? && e.fn.turn == a.turn
    ensures r.started && e.fn.idx == r.fired < Frames(c)
  {
    FrameTsAfter(c, r.t0, e.fn.idx);
    assert r.started || Less(OpenEvent(i, r, a.seqNo - 1), e);
    if r.fired < e.fn.idx {
      FrameTsMonotone(c, r.t0, r.fired, e.fn.idx);
      assert Less(FrameEvent(c, i, a.turn, r, r.fired), e);
    }
  }

  lemma SoFarGrows(c: AgentConfig, r: TurnRec, s0: int)
    requires r.started
    ensures SoFar(c, r.(fired := r.fired + 1), s0) ==
            SoFar(c, r, s0) + (if Silenced(c, r.t0, r.stop, r.fired) then []
                               else [Frame(s0 + |SoFar(c, r, s0)|, FrameTs(c, r.t0, r.fired), c.frameMs, AgentAudio,
                                           c.payloadLen)])
  {
    var tss := SpokenTs(c, r.t0, r.stop, r.fired);
    var x := FrameTs(c, r.t0, r.fired);
    assert Voice(c, tss + [x], s0 + 1)
           == Voice(c, tss, s0 + 1) + [Frame(s0 + 1 + |tss|, x, c.frameMs, AgentAudio, c.payloadLen)];
  }

  lemma FrameTimes(c: AgentConfig, i: nat, a: Agent, a': Agent, r: TurnRec, m: multiset<Pending>, e: Pending,
                   added: seq<Pending>, m': multiset<Pending>)
    requires TurnTimed(c, i, a, r, m) && Moves(m, e, added, m') && r.started
    requires e in m && e.fn.EmitFrame? && e.fn.turn == a.turn && e.fn.idx == r.fired < Frames(c)
    requires forall x | x in added :: !x.fn.IsTurnTimer()
    requires a' == a.(seqNo := a'.seqNo)
    ensures TurnTimed(c, i, a', r.(fired := r.fired + 1), m')
  {
    var r' := r.(fired := r.fired + 1);
    assert forall k: nat :: FrameEvent(c, i, a.turn, r, k) == FrameEvent(c, i, a.turn, r', k);
    if a.interrupted {
      var x :| x in m && IsStopEnd(c, a, x);
      assert x in m' && IsStopEnd(c, a', x);
    }
  }

  lemma FrameShapes(c: AgentConfig, now: int, now': int, a: Agent, a': Agent, sent: seq<Frame>, f: Option<Frame>,
                    turns: seq<TurnRec>, turns': seq<TurnRec>)
    requires TurnShape(c, now, a, sent, turns) && now <= now' && a.talking && turns != []
    requires Last(turns).started && Last(turns).fired < Frames(c)
    requires FrameTs(c, Last(turns).t0, Last(turns).fired) == now'
    requires (a', f) == EmitAgentFrame(c, a, a.turn, now')
    requires turns' == turns[|turns| - 1 := Last(turns).(fired := Last(turns).fired + 1)]
    ensures a.seqNo == |sent|
    ensures TurnShape(c, now', a', sent + (if f.Some? then [f.value] else []), turns')
  {
    SoFarGrows(c, Last(turns), |Conversation(c, Before(turns))|);
    assert Before(turns') == Before(turns);
    assert sent + [] == sent;
  }

  /** Frame timers of the turn being spoken send in order, unless past the stop deadline. */
  lemma FrameKeeps(c: AgentConfig, i: nat, now: int, a: Agent, a': Agent, sent: seq<Frame>, f: Option<Frame>,
                   turns: seq<TurnRec>, turns': seq<TurnRec>, m: multiset<Pending>, e: Pending, added: seq<Pending>,
                   m': multiset<Pending>)
    requires c.Timely() && TurnInv(c, i, now, a, sent, turns, m) && now <= e.deliverAt && Moves(m, e, added, m')
    requires e in m && (forall x | x in m :: !Less(x, e)) && e.fn.EmitFrame? && e.fn.turn == a.turn && a.talking
    requires turns != [] && forall x | x in added :: !x.fn.IsTurnTimer()
    requires (a', f) == EmitAgentFrame(c, a, e.fn.turn, e.fn.ts)
    requires turns' == turns[|turns| - 1 := Last(turns).(fired := Last(turns).fired + 1)]
    ensures a.seqNo == |sent|
    ensures TurnInv(c, i, e.deliverAt, a', sent + (if f.Some? then [f.value] else []), turns', m')
  {
    var r := Last(turns);
    FrameIsNext(c, i, a, r, m, e);
    assert e == FrameEvent(c, i, a.turn, r, r.fired);
    FrameShapes(c, now, e.deliverAt, a, a', sent, f, turns, turns');
    FrameTimes(c, i, a, a', r, m, e, added, m');
  }

  /** When an end timer of the turn being spoken fires, everything due was said, and this is the turn's end. */
  lemma EndIsDue(c: AgentConfig, i: nat, now: int, a: Agent, sent: seq<Frame>, turns: seq<TurnRec>,
                 m: multiset<Pending>, e: Pending)
    requires c.Timely() && TurnInv(c, i, now, a, sent, turns, m) && a.talking && turns != []
    requires e in m && (forall x | x in m :: !Less(x, e)) && e.fn.EmitEnd? && e.fn.turn == a.turn
    ensures var r := Last(turns);
            && r.started && e.deliverAt == e.fn.endTs == EndTs(c, r)
            && SpokenTs(c, r.t0, r.stop, Frames(c)) == SpokenTs(c, r.t0, r.stop, r.fired)
  {
    var r := Last(turns);
    FrameTsAfter(c, r.t0, 0);
    assert r.started || Less(OpenEvent(i, r, a.seqNo - 1), e);
    forall k: nat | r.fired <= k < Frames(c) ensures Silenced(c, r.t0, r.stop, k) {
      assert !Less(FrameEvent(c, i, a.turn, r, k), e);
      FrameTsAfter(c, r.t0, k);
    }
    SpokenComplete(c, r.t0, r.stop, r.fired, Frames(c));
    assert !Less(EndEvent(c, i, a.turn, r), e);
    if a.interrupted {
      var x :| x in m && IsStopEnd(c, a, x);
      assert !Less(x, e);
    }
  }

  /** The turn closes with its TurnEnd. */
  lemma EndKeeps(c: AgentConfig, i: nat, now: int, a: Agent, sent: seq<Frame>, turns: seq<TurnRec>,
                 m: multiset<Pending>, e: Pending, added: seq<Pending>, m': multiset<Pending>)
    requires c.Timely() && TurnInv(c, i, now, a, sent, turns, m) && now <= e.deliverAt && Moves(m, e, added, m')
    requires e in m && (forall x | x in m :: !Less(x, e)) && e.fn.EmitEnd? && e.fn.turn == a.turn && a.talking
    requires turns != [] && forall x | x in added :: !x.fn.IsTurnTimer()
    ensures a.seqNo == |sent|
    ensures TurnInv(c, i, e.deliverAt, a.(ended := true, talking := false, seqNo := a.seqNo + 1),
                    sent + [Control(TurnEnd, a.seqNo, e.fn.endTs)], turns, m')
  {
    EndIsDue(c, i, now, a, sent, turns, m, e);
    var r := Last(turns);
    var before := Conversation(c, Before(turns));
    var tss := SpokenTs(c, r.t0, r.stop, Frames(c));
    assert Conversation(c, turns) == before + TurnScript(c, r, |before|);
    assert sent == before + ([Control(TurnStart, |before|, r.t0)] + Voice(c, tss, |before| + 1));
    assert sent + [Control(TurnEnd, a.seqNo, e.fn.endTs)] == Conversation(c, turns);
  }

  // ---- the whole step ----

  ghost predicate TurnsOk(sc: Scenario, i: nat, l: Local) {
    TurnInv(sc.Cfg(), i, l.now, l.s.agent, l.s.trace.sent, l.s.trace.turns, l.m)
  }

  /** The turn invariant after session i went to s' at e, scheduling rs. */
  ghost predicate TurnsAfter(sc: Scenario, i: nat, l: Local, e: Pending, s': Sess, rs: seq<Request>) {
    TurnInv(sc.Cfg(), i, e.deliverAt, s'.agent, s'.trace.sent, s'.trace.turns,
            l.m - multiset{e} + multiset(Stamped(e.deliverAt, i, rs)))
  }

  lemma NoTurnTimers(now: int, i: nat, rs: seq<Request>)
    requires forall r | r in rs :: !r.fn.IsTurnTimer()
    ensures forall x | x in Stamped(now, i, rs) :: !x.fn.IsTurnTimer()
  {
    forall x | x in Stamped(now, i, rs) ensures !x.fn.IsTurnTimer() {
      StampedIn(now, i, rs, x);
    }
  }

  lemma QuietKeeps(sc: Scenario, i: nat, l: Local, e: Pending, s': Sess, rs: seq<Request>)
    requires TurnsOk(sc, i, l) && TimersDistinct(l.m) && e in l.m && l.now <= e.deliverAt && !e.fn.IsTurnTimer()
    requires s'.agent == l.s.agent.(schedSeq := s'.agent.schedSeq, speechGen := s'.agent.speechGen)
    requires s'.trace.sent == l.s.trace.sent && s'.trace.turns == l.s.trace.turns
    requires forall r | r in rs :: !r.fn.IsTurnTimer()
    ensures TurnsAfter(sc, i, l, e, s', rs)
  {
    var added := Stamped(e.deliverAt, i, rs);
    NoTurnTimers(e.deliverAt, i, rs);
    MovesBy(l.m, e, added);
    OthersKeep(sc.Cfg(), i, l.now, e.deliverAt, l.s.agent, s'.agent, s'.trace.sent, s'.trace.turns, l.m, e, added,
               l.m - multiset{e} + multiset(added));
  }

  lemma BargeInShape(sc: Scenario, now: int, s: Sess, f: Frame)
    requires f.kind.Speech? && s.agent.talking && !s.agent.interrupted && !sc.Cfg().ignoreBargeIn && s.trace.turns != []
    ensures var (s', rs) := HearFrame(sc, now, s, f);
            var stop := now + sc.Cfg().stopLatencyMs;
            && s'.agent == s.agent.(interrupted := true, stopAt := stop, schedSeq := s.agent.schedSeq + 1)
            && s'.trace.sent == s.trace.sent
            && s'.trace.turns == s.trace.turns[|s.trace.turns| - 1 := Last(s.trace.turns).(stop := Some(stop))]
            && |rs| == 1 && rs[0].at == stop + sc.Cfg().frameMs && rs[0].fn == EmitEnd(s.agent.turn, rs[0].at)
  {}

  lemma BargeInKeeps(sc: Scenario, i: nat, l: Local, e: Pending)
    requires sc.Cfg().Timely() && TurnsOk(sc, i, l) && TimersDistinct(l.m) && e in l.m && l.now <= e.deliverAt
    requires e.fn.ToAgent? && e.fn.frame.kind.Speech?
    requires l.s.agent.talking && !l.s.agent.interrupted && !sc.Cfg().ignoreBargeIn && l.s.trace.turns != []
    ensures var r := HearFrame(sc, e.deliverAt, l.s, e.fn.frame); TurnsAfter(sc, i, l, e, r.0, r.1)
  {
    var (s', rs) := HearFrame(sc, e.deliverAt, l.s, e.fn.frame);
    BargeInShape(sc, e.deliverAt, l.s, e.fn.frame);
    var added := Stamped(e.deliverAt, i, rs);
    assert added == [Stamp(e.deliverAt, i, rs[0])];
    MovesBy(l.m, e, added);
    InterruptKeeps(sc.Cfg(), i, l.now, e.deliverAt, l.s.agent, s'.agent, s'.trace.sent, l.s.trace.turns, s'.trace.turns,
                   l.m, e, added[0], l.m - multiset{e} + multiset(added));
  }

  lemma HearKeeps(sc: Scenario, i: nat, l: Local, e: Pending)
    requires sc.Cfg().Timely() && TurnsOk(sc, i, l) && TimersDistinct(l.m) && e in l.m && l.now <= e.deliverAt
    requires e.fn.ToAgent?
    ensures var r := HearFrame(sc, e.deliverAt, l.s, e.fn.frame); TurnsAfter(sc, i, l, e, r.0, r.1)
  {
    var a := l.s.agent;
    if e.fn.frame.kind.Speech? && a.talking && !a.interrupted && !sc.Cfg().ignoreBargeIn {
      BargeInKeeps(sc, i, l, e);
    } else {
      var (s', rs) := HearFrame(sc, e.deliverAt, l.s, e.fn.frame);
      QuietKeeps(sc, i, l, e, s', rs);
    }
  }

  lemma StartShape(sc: Scenario, s: Sess, gen: int, at: int)
    requires Responds(s.agent, gen)
    ensures var (s', rs) := StartTurn(sc, s, gen, at);
            var a := s.agent;
            && s'.agent == a.(turn := a.turn + 1, talking := true, interrupted := false, ended := false,
                              seqNo := a.seqNo + 1, schedSeq := a.schedSeq + Frames(sc.Cfg()) + 2)
            && s'.trace.sent == s.trace.sent
               && s'.trace.turns == s.trace.turns + [TurnRec(at, None, a.schedSeq, false, 0)]
            && rs == TurnTimers(sc.Cfg(), a.turn + 1, at, a.seqNo, a.schedSeq)
  {}

  lemma RespondingKeeps(sc: Scenario, i: nat, l: Local, e: Pending)
    requires sc.Cfg().Timely() && TurnsOk(sc, i, l) && Sound(sc, i, l) && e in l.m && e.fn.Respond?
    requires Responds(l.s.agent, e.fn.gen)
    ensures var r := StartTurn(sc, l.s, e.fn.gen, e.fn.at); TurnsAfter(sc, i, l, e, r.0, r.1)
  {
    assert SoundEvent(sc, i, l.now, l.s, e);
    var (s', rs) := StartTurn(sc, l.s, e.fn.gen, e.deliverAt);
    StartShape(sc, l.s, e.fn.gen, e.deliverAt);
    var added := Stamped(e.deliverAt, i, rs);
    MovesBy(l.m, e, added);
    forall x | x in l.m && (x.fn.EmitFrame? || x.fn.EmitEnd?) ensures x.fn.turn <= l.s.agent.turn {
      assert SoundEvent(sc, i, l.now, l.s, x);
    }
    StartKeeps(sc.Cfg(), i, l.now, l.s.agent, s'.agent, s'.trace.sent, l.s.trace.turns, s'.trace.turns, l.m, e, added,
               l.m - multiset{e} + multiset(added));
  }

  lemma RespondKeeps(sc: Scenario, i: nat, l: Local, e: Pending)
    requires sc.Cfg().Timely() && TurnsOk(sc, i, l) && Sound(sc, i, l) && e in l.m && e.fn.Respond?
    ensures var r := StartTurn(sc, l.s, e.fn.gen, e.fn.at); TurnsAfter(sc, i, l, e, r.0, r.1)
  {
    if Responds(l.s.agent, e.fn.gen) {
      RespondingKeeps(sc, i, l, e);
    } else {
      assert SoundEvent(sc, i, l.now, l.s, e);
      QuietKeeps(sc, i, l, e, l.s, []);
    }
  }

  /** What Send adds to the session, apart from the link. */
  lemma SendShape(sc: Scenario, i: nat, now: int, s: Sess, f: Frame)
    ensures var (s', rs) := SendDown(sc, i, now, s, f);
            && s'.agent == s.agent && s'.caller == s.caller
            && s'.trace.sent == s.trace.sent + [f] && s'.trace.turns == s.trace.turns
            && (rs == [] || rs == [Request(rs[0].at, f.seqNo, ToCaller(f))])
  {}

  lemma OpenTurnKeeps(sc: Scenario, i: nat, l: Local, e: Pending)
    requires TurnsOk(sc, i, l) && TimersDistinct(l.m) && e in l.m && l.now <= e.deliverAt && e.fn.OpenTurn?
    ensures var r := OpenTurnNow(sc, i, e.deliverAt, l.s, e.fn.seqNo, e.fn.ts); TurnsAfter(sc, i, l, e, r.0, r.1)
  {
    var (s', rs) := OpenTurnNow(sc, i, e.deliverAt, l.s, e.fn.seqNo, e.fn.ts);
    SendShape(sc, i, e.deliverAt, l.s.(trace := MarkStarted(l.s.trace)), Control(TurnStart, e.fn.seqNo, e.fn.ts));
    var added := Stamped(e.deliverAt, i, rs);
    NoTurnTimers(e.deliverAt, i, rs);
    MovesBy(l.m, e, added);
    OpenKeeps(sc.Cfg(), i, l.now, l.s.agent, l.s.trace.sent, l.s.trace.turns, l.m, e, added,
              l.m - multiset{e} + multiset(added));
  }

  lemma StaleStep(sc: Scenario, i: nat, l: Local, e: Pending, s': Sess)
    requires TurnsOk(sc, i, l) && TimersDistinct(l.m) && e in l.m && l.now <= e.deliverAt
    requires (e.fn.EmitFrame? && (e.fn.turn != l.s.agent.turn || !l.s.agent.talking))
             || (e.fn.EmitEnd? && (e.fn.turn != l.s.agent.turn || l.s.agent.ended))
    requires s'.agent == l.s.agent && s'.trace.sent == l.s.trace.sent && s'.trace.turns == l.s.trace.turns
    ensures TurnsAfter(sc, i, l, e, s', [])
  {
    var added := Stamped(e.deliverAt, i, []);
    assert added == [];
    MovesBy(l.m, e, added);
    StaleKeeps(sc.Cfg(), i, l.now, e.deliverAt, l.s.agent, l.s.trace.sent, l.s.trace.turns, l.m, e,
               l.m - multiset{e} + multiset(added));
  }

  /** A frame timer of the turn being spoken went off: the frame went out if it was not silenced. */
  ghost predicate Spoke(sc: Scenario, s: Sess, turn: int, ts: int, s': Sess, f: Option<Frame>, rs: seq<Request>)
    requires s.trace.turns != []
  {
    var r := Last(s.trace.turns);
    && (s'.agent, f) == EmitAgentFrame(sc.Cfg(), s.agent, turn, ts) && s'.caller == s.caller
    && s'.trace.sent == s.trace.sent + (if f.Some? then [f.value] else [])
    && s'.trace.turns == s.trace.turns[|s.trace.turns| - 1 := r.(fired := r.fired + 1)]
    && forall x | x in rs :: x.fn.ToCaller?
  }

  lemma EmitShape(sc: Scenario, i: nat, now: int, s: Sess, turn: int, ts: int)
    requires turn == s.agent.turn && s.agent.talking && s.trace.turns != []
    ensures var (s', rs) := EmitFrameNow(sc, i, now, s, turn, ts);
            Spoke(sc, s, turn, ts, s', EmitAgentFrame(sc.Cfg(), s.agent, turn, ts).1, rs)
  {
    var f := EmitAgentFrame(sc.Cfg(), s.agent, turn, ts).1;
    assert f.None? ==> s.trace.sent + [] == s.trace.sent;
  }

  lemma FrameFires(sc: Scenario, i: nat, l: Local, e: Pending, a': Agent, f: Option<Frame>, turns': seq<TurnRec>,
                   rs: seq<Request>)
    requires sc.Cfg().Timely() && TurnsOk(sc, i, l) && TimersDistinct(l.m) && Enabled(l, e) && l.now <= e.deliverAt
    requires e.fn.EmitFrame? && e.fn.turn == l.s.agent.turn && l.s.agent.talking && l.s.trace.turns != []
    requires (a', f) == EmitAgentFrame(sc.Cfg(), l.s.agent, e.fn.turn, e.fn.ts) && forall r | r in rs :: r.fn.ToCaller?
    requires var turns := l.s.trace.turns;
             turns' == turns[|turns| - 1 := Last(turns).(fired := Last(turns).fired + 1)]
    ensures TurnInv(sc.Cfg(), i, e.deliverAt, a', l.s.trace.sent + (if f.Some? then [f.value] else []), turns',
                    l.m - multiset{e} + multiset(Stamped(e.deliverAt, i, rs)))
  {
    var added := Stamped(e.deliverAt, i, rs);
    NoTurnTimers(e.deliverAt, i, rs);
    MovesBy(l.m, e, added);
    FrameKeeps(sc.Cfg(), i, l.now, l.s.agent, a', l.s.trace.sent, f, l.s.trace.turns, turns', l.m, e, added,
               l.m - multiset{e} + multiset(added));
  }

  lemma SpokenKeeps(sc: Scenario, i: nat, l: Local, e: Pending, s': Sess, f: Option<Frame>, rs: seq<Request>)
    requires sc.Cfg().Timely() && TurnsOk(sc, i, l) && TimersDistinct(l.m) && Enabled(l, e) && l.now <= e.deliverAt
    requires e.fn.EmitFrame? && e.fn.turn == l.s.agent.turn && l.s.agent.talking && l.s.trace.turns != []
    requires Spoke(sc, l.s, e.fn.turn, e.fn.ts, s', f, rs)
    ensures TurnsAfter(sc, i, l, e, s', rs)
  {
    FrameFires(sc, i, l, e, s'.agent, f, s'.trace.turns, rs);
  }

  lemma EmitFrameKeeps(sc: Scenario, i: nat, l: Local, e: Pending)
    requires sc.Cfg().Timely() && TurnsOk(sc, i, l) && TimersDistinct(l.m) && Enabled(l, e) && l.now <= e.deliverAt
    requires e.fn.EmitFrame?
    ensures var r := EmitFrameNow(sc, i, e.deliverAt, l.s, e.fn.turn, e.fn.ts); TurnsAfter(sc, i, l, e, r.0, r.1)
  {
    if e.fn.turn == l.s.agent.turn && l.s.agent.talking {
      var (s', rs) := EmitFrameNow(sc, i, e.deliverAt, l.s, e.fn.turn, e.fn.ts);
      EmitShape(sc, i, e.deliverAt, l.s, e.fn.turn, e.fn.ts);
      SpokenKeeps(sc, i, l, e, s', EmitAgentFrame(sc.Cfg(), l.s.agent, e.fn.turn, e.fn.ts).1, rs);
    } else {
      StaleStep(sc, i, l, e, l.s);
    }
  }

  lemma EmitEndKeeps(sc: Scenario, i: nat, l: Local, e: Pending)
    requires sc.Cfg().Timely() && TurnsOk(sc, i, l) && TimersDistinct(l.m) && Enabled(l, e) && l.now <= e.deliverAt
    requires e.fn.EmitEnd? && e.fn.turn >= 1
    ensures var r := EmitEndNow(sc, i, e.deliverAt, l.s, e.fn.turn, e.fn.endTs); TurnsAfter(sc, i, l, e, r.0, r.1)
  {
    var (s', rs) := EmitEndNow(sc, i, e.deliverAt, l.s, e.fn.turn, e.fn.endTs);
    var (a, f) := EmitTurnEnd(l.s.agent, e.fn.turn, e.fn.endTs);
    if f.Some? {
      SendShape(sc, i, e.deliverAt, l.s.(agent := a), f.value);
      var added := Stamped(e.deliverAt, i, rs);
      NoTurnTimers(e.deliverAt, i, rs);
      MovesBy(l.m, e, added);
      EndKeeps(sc.Cfg(), i, l.now, l.s.agent, l.s.trace.sent, l.s.trace.turns, l.m, e, added,
               l.m - multiset{e} + multiset(added));
    } else {
      StaleStep(sc, i, l, e, s');
    }
  }

  lemma CallbackKeepsTurns(sc: Scenario, i: nat, l: Local, e: Pending)
    requires FrameMs(sc) != 0 && sc.Cfg().Timely() && TurnsOk(sc, i, l) && Sound(sc, i, l) && Enabled(l, e)
    ensures var r := React(sc, i, e.deliverAt, l.s, e.fn); TurnsAfter(sc, i, l, e, r.0, r.1)
  {
    assert SoundEvent(sc, i, l.now, l.s, e);
    match e.fn
    case CallerSpeaks(f, b) =>
      QuietKeeps(sc, i, l, e, React(sc, i, e.deliverAt, l.s, e.fn).0, [Request(e.deliverAt, f.seqNo, ToAgent(f))]);
    case ToAgent(_) => HearKeeps(sc, i, l, e);
    case ToCaller(f) =>
      var r := RecvFrame(sc, e.deliverAt, l.s, f);
      QuietKeeps(sc, i, l, e, r.0, r.1);
    case Respond(_, _) => RespondKeeps(sc, i, l, e);
    case OpenTurn(_, _) => OpenTurnKeeps(sc, i, l, e);
    case EmitFrame(_, _, _) => EmitFrameKeeps(sc, i, l, e);
    case EmitEnd(_, _) => EmitEndKeeps(sc, i, l, e);
  }

  lemma TurnsFire(sc: Scenario, i: nat, l: Local, e: Pending)
    requires FrameMs(sc) != 0 && sc.Cfg().Timely() && TurnsOk(sc, i, l) && Sound(sc, i, l) && Enabled(l, e)
    ensures TurnsOk(sc, i, FireLocal(Reactor(sc), sc.Cfg(), i, l, e))
  {
    CallbackKeepsTurns(sc, i, l, e);
  }

  lemma TurnsWait(sc: Scenario, i: nat, l: Local, t: int)
    requires TurnsOk(sc, i, l) && Waits(l, t)
    ensures TurnsOk(sc, i, l.(now := t))
  {}

  /** Whatever the agent sends next is numbered after everything it sent before. */
  lemma SendsAreNumbered(sc: Scenario, i: nat, l: Local, e: Pending)
    requires sc.Cfg().Timely() && TurnsOk(sc, i, l) && Sound(sc, i, l) && Enabled(l, e)
    ensures e.fn.OpenTurn? ==> e.fn.seqNo == |l.s.trace.sent|
    ensures e.fn.EmitFrame? && e.fn.turn == l.s.agent.turn && l.s.agent.talking ==> l.s.agent.seqNo == |l.s.trace.sent|
    ensures e.fn.EmitEnd? && e.fn.turn == l.s.agent.turn && !l.s.agent.ended ==> l.s.agent.seqNo == |l.s.trace.sent|
  {
    var c, t, a := sc.Cfg(), l.s.trace, l.s.agent;
    assert SoundEvent(sc, i, l.now, l.s, e);
    if e.fn.EmitFrame? && e.fn.turn == a.turn && a.talking {
      FrameIsNext(c, i, a, Last(t.turns), l.m, e);
    }
    if e.fn.EmitEnd? && e.fn.turn == a.turn && !a.ended {
      EndIsDue(c, i, l.now, a, t.sent, t.turns, l.m, e);
    }
  }
}
