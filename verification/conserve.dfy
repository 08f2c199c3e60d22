/** Nothing is lost or duplicated: frames sent, dropped, in flight and delivered always balance. */
module Conservation {
  import opened Audio
  import opened Basics
  import opened Impair
  import opened Clock
  import opened EventLog
  import opened Scenarios
  import opened AgentProto
  import opened CallerSession
  import opened Engine
  import opened SessionView
  import opened Sums

  /** Frames of the Send entries of a log. */
  function SentFrames(log: seq<Entry>): seq<Frame> {
    if log == [] then []
    else
      var e := log[|log| - 1];
      SentFrames(log[..|log| - 1]) + (if e.typ.Send? then [e.frame] else [])
  }

  predicate IsReceipt(e: Entry) { e.typ.Recv? || e.typ.TurnStarted? || e.typ.TurnEnded? }

  /** The entries of a log that record something received. */
  function Receipts(log: seq<Entry>): seq<Entry> {
    if log == [] then []
    else
      var e := log[|log| - 1];
      Receipts(log[..|log| - 1]) + (if IsReceipt(e) then [e] else [])
  }

  /** How many of the frames are TurnStarts. */
  function Starts(fs: seq<Frame>): nat {
    if fs == [] then 0
    else Starts(fs[..|fs| - 1]) + (if fs[|fs| - 1].kind.TurnStart? then 1 else 0)
  }

  /** The log entries that receiving `got` at times `at` must leave: a frame belongs to the latest turn started. */
  function Replay(got: seq<Frame>, at: seq<int>): seq<Entry>
    requires |got| == |at|
  {
    if got == [] then []
    else
      var n := |got| - 1;
      Replay(got[..n], at[..n]) + [Received(got[n], at[n], Starts(got))]
  }

  /** Frames sent were dropped or kept; kept frames were received or are in flight. */
  ghost predicate DownBalance(sent: seq<Frame>, dropped: seq<Frame>, kept: seq<Frame>, got: seq<Frame>,
                              down: multiset<Frame>)
  {
    && multiset(sent) == multiset(dropped) + multiset(kept)
    && multiset(kept) == multiset(got) + down
  }

  /** What the log says was received is what was received. */
  predicate ReceiptsOk(c: Caller, got: seq<Frame>, at: seq<int>) {
    |at| == |got| && Receipts(c.log) == Replay(got, at) && c.obsTurn == Starts(got)
  }

  /** Speech frames logged as sent were heard or are in flight. */
  ghost predicate UpBalance(log: seq<Entry>, heard: seq<Frame>, up: multiset<Frame>) {
    multiset(SentFrames(log)) == multiset(heard) + up
  }

  ghost predicate BalancedWith(s: Sess, down: multiset<Frame>, up: multiset<Frame>) {
    && DownBalance(s.trace.sent, s.link.dropped, s.trace.kept, s.trace.got, down)
    && UpBalance(s.caller.log, s.trace.heard, up)
    && ReceiptsOk(s.caller, s.trace.got, s.trace.gotAt)
  }

  ghost predicate Balanced(l: Local) { BalancedWith(l.s, l.down, l.up) }

  // ---- the bags of what a reaction schedules ----

  lemma {:induction false} Framesless(now: int, i: nat, rs: seq<Request>)
    requires forall r | r in rs :: !r.fn.IsDelivery()
    ensures BagOf(Stamped(now, i, rs), DownOf(i)) == multiset{} && BagOf(Stamped(now, i, rs), UpOf(i)) == multiset{}
  {
    if rs != [] {
      assert Stamped(now, i, rs)[1..] == Stamped(now, i, rs[1..]);
      Framesless(now, i, rs[1..]);
    }
  }

  lemma OneDelivery(now: int, i: nat, r: Request)
    ensures BagOf(Stamped(now, i, [r]), DownOf(i)) == DownFrame(r.fn)
    ensures BagOf(Stamped(now, i, [r]), UpOf(i)) == UpFrame(r.fn)
  {
    var st := Stamped(now, i, [r]);
    assert st == [Stamp(now, i, r)];
    assert st[1..] == [];
  }

  // ---- logs grow at the end ----

  lemma LogSpeak(c: Caller, f: Frame, bargeIn: bool)
    ensures SentFrames(OnSpeak(c, f, bargeIn).log) == SentFrames(c.log) + [f]
    ensures Receipts(OnSpeak(c, f, bargeIn).log) == Receipts(c.log)
  {
    var send := Entry(EventType.Send, f.ts, c.obsTurn, f);
    var log := OnSpeak(c, f, bargeIn).log;
    if bargeIn {
      var barge := Entry(BargedIn, f.ts, c.obsTurn, f);
      assert log == c.log + [barge] + [send];
      assert log[..|log| - 1] == c.log + [barge];
      assert (c.log + [barge])[..|c.log|] == c.log;
      assert SentFrames(c.log + [barge]) == SentFrames(c.log);
    } else {
      assert log == c.log + [send];
      assert log[..|log| - 1] == c.log;
    }
  }

  lemma LogReceipt(log: seq<Entry>, e: Entry)
    requires IsReceipt(e)
    ensures SentFrames(log + [e]) == SentFrames(log) && Receipts(log + [e]) == Receipts(log) + [e]
  {
    assert (log + [e])[..|log|] == log;
  }

  lemma ReplayGrows(got: seq<Frame>, at: seq<int>, f: Frame, now: int)
    requires |got| == |at|
    ensures Starts(got + [f]) == Starts(got) + (if f.kind.TurnStart? then 1 else 0)
    ensures Replay(got + [f], at + [now]) == Replay(got, at) + [Received(f, now, Starts(got + [f]))]
  {
    assert (got + [f])[..|got|] == got && (at + [now])[..|at|] == at;
  }

  // ---- each callback keeps the balance ----

  ghost function DownAfter(i: nat, l: Local, e: Pending, rs: seq<Request>): multiset<Frame> {
    l.down - DownFrame(e.fn) + BagOf(Stamped(e.deliverAt, i, rs), DownOf(i))
  }

  ghost function UpAfter(i: nat, l: Local, e: Pending, rs: seq<Request>): multiset<Frame> {
    l.up - UpFrame(e.fn) + BagOf(Stamped(e.deliverAt, i, rs), UpOf(i))
  }

  /** The balance after session i went to s' at e, scheduling rs. */
  ghost predicate BalancedAfter(i: nat, l: Local, e: Pending, s': Sess, rs: seq<Request>) {
    BalancedWith(s', DownAfter(i, l, e, rs), UpAfter(i, l, e, rs))
  }

  /** A reaction that schedules no delivery only takes the event's own frame out of flight. */
  lemma NothingSent(i: nat, l: Local, e: Pending, rs: seq<Request>)
    requires forall r | r in rs :: !r.fn.IsDelivery()
    ensures DownAfter(i, l, e, rs) == l.down - DownFrame(e.fn)
    ensures UpAfter(i, l, e, rs) == l.up - UpFrame(e.fn)
    ensures !e.fn.ToCaller? ==> DownAfter(i, l, e, rs) == l.down
    ensures !e.fn.ToAgent? ==> UpAfter(i, l, e, rs) == l.up
  {
    Framesless(e.deliverAt, i, rs);
  }

  lemma OneSent(i: nat, l: Local, e: Pending, r: Request)
    requires !e.fn.IsDelivery()
    ensures DownAfter(i, l, e, [r]) == l.down + DownFrame(r.fn)
    ensures UpAfter(i, l, e, [r]) == l.up + UpFrame(r.fn)
  {
    OneDelivery(e.deliverAt, i, r);
  }

  lemma SpeakBalances(i: nat, l: Local, e: Pending, s': Sess)
    requires Balanced(l) && e.fn.CallerSpeaks?
    requires s' == l.s.(caller := OnSpeak(l.s.caller, e.fn.frame, e.fn.bargeIn))
    ensures BalancedAfter(i, l, e, s', [Request(e.deliverAt, e.fn.frame.seqNo, ToAgent(e.fn.frame))])
  {
    var f, c := e.fn.frame, l.s.caller;
    LogSpeak(c, f, e.fn.bargeIn);
    OneSent(i, l, e, Request(e.deliverAt, f.seqNo, ToAgent(f)));
    NoFrame(l.down);
    SpokeMoves(c.log, s'.caller.log, l.s.trace.heard, l.up, f);
  }

  lemma NoFrame(x: multiset<Frame>)
    ensures x + multiset{} == x
  {}

  lemma SpokeMoves(log: seq<Entry>, log': seq<Entry>, heard: seq<Frame>, up: multiset<Frame>, f: Frame)
    requires UpBalance(log, heard, up) && SentFrames(log') == SentFrames(log) + [f]
    ensures UpBalance(log', heard, up + multiset{f})
  {}

  lemma HeardMoves(log: seq<Entry>, heard: seq<Frame>, up: multiset<Frame>, f: Frame)
    requires UpBalance(log, heard, up) && f in up
    ensures UpBalance(log, heard + [f], up - multiset{f})
  {}

  lemma HearKinds(sc: Scenario, now: int, s: Sess, f: Frame)
    ensures var (s', rs) := HearFrame(sc, now, s, f);
            && s'.caller == s.caller && s'.link == s.link
            && s'.trace == s.trace.(heard := s.trace.heard + [f], heardAt := s.trace.heardAt + [now],
                                     turns := s'.trace.turns)
            && forall r | r in rs :: r.fn.IsTimer()
  {}

  lemma HearBalances(sc: Scenario, i: nat, l: Local, e: Pending)
    requires Balanced(l) && e.fn.ToAgent? && e.fn.frame in l.up
    ensures var r := HearFrame(sc, e.deliverAt, l.s, e.fn.frame); BalancedAfter(i, l, e, r.0, r.1)
  {
    var rs := HearFrame(sc, e.deliverAt, l.s, e.fn.frame).1;
    HearKinds(sc, e.deliverAt, l.s, e.fn.frame);
    NothingSent(i, l, e, rs);
    HeardMoves(l.s.caller.log, l.s.trace.heard, l.up, e.fn.frame);
  }

  lemma ReceiveMoves(sent: seq<Frame>, dropped: seq<Frame>, kept: seq<Frame>, got: seq<Frame>, down: multiset<Frame>,
                     f: Frame)
    requires DownBalance(sent, dropped, kept, got, down) && f in down
    ensures DownBalance(sent, dropped, kept, got + [f], down - multiset{f})
  {}

  lemma DropMoves(sent: seq<Frame>, dropped: seq<Frame>, kept: seq<Frame>, got: seq<Frame>, down: multiset<Frame>,
                  f: Frame)
    requires DownBalance(sent, dropped, kept, got, down)
    ensures DownBalance(sent + [f], dropped + [f], kept, got, down)
  {}

  lemma KeepMoves(sent: seq<Frame>, dropped: seq<Frame>, kept: seq<Frame>, got: seq<Frame>, down: multiset<Frame>,
                  f: Frame)
    requires DownBalance(sent, dropped, kept, got, down)
    ensures DownBalance(sent + [f], dropped, kept + [f], got, down + multiset{f})
  {
    assert multiset(kept + [f]) == multiset(kept) + multiset{f};
  }

  lemma RecvLogs(sc: Scenario, c: Caller, got: seq<Frame>, at: seq<int>, f: Frame, now: int)
    requires FrameMs(sc) != 0 && ReceiptsOk(c, got, at)
    ensures ReceiptsOk(OnRecv(sc, c, f, now).0, got + [f], at + [now])
    ensures SentFrames(OnRecv(sc, c, f, now).0.log) == SentFrames(c.log)
    ensures forall r | r in OnRecv(sc, c, f, now).1 :: r.fn.CallerSpeaks?
  {
    var c' := OnRecv(sc, c, f, now).0;
    ReplayGrows(got, at, f, now);
    LogReceipt(c.log, Received(f, now, c'.obsTurn));
  }

  lemma RecvBalances(sc: Scenario, i: nat, l: Local, e: Pending)
    requires FrameMs(sc) != 0 && Balanced(l) && e.fn.ToCaller? && e.fn.frame in l.down
    ensures var r := RecvFrame(sc, e.deliverAt, l.s, e.fn.frame); BalancedAfter(i, l, e, r.0, r.1)
  {
    var f, now, t := e.fn.frame, e.deliverAt, l.s.trace;
    RecvLogs(sc, l.s.caller, t.got, t.gotAt, f, now);
    NothingSent(i, l, e, OnRecv(sc, l.s.caller, f, now).1);
    ReceiveMoves(t.sent, l.s.link.dropped, t.kept, t.got, l.down, f);
  }

  lemma SendKinds(sc: Scenario, i: nat, now: int, s: Sess, f: Frame)
    ensures var (s', rs) := SendDown(sc, i, now, s, f);
            && s'.caller == s.caller && s'.trace.got == s.trace.got && s'.trace.gotAt == s.trace.gotAt
            && s'.trace.heard == s.trace.heard && s'.trace.sent == s.trace.sent + [f]
            && (if rs == [] then s'.link.dropped == s.link.dropped + [f] && s'.trace.kept == s.trace.kept
                else rs == [Request(rs[0].at, f.seqNo, ToCaller(f))] && s'.link.dropped == s.link.dropped
                     && s'.trace.kept == s.trace.kept + [f])
  {}

  /** Send either drops the frame or puts it in flight. */
  lemma SendBalances(sc: Scenario, i: nat, l: Local, e: Pending, s: Sess, f: Frame)
    requires BalancedWith(s, l.down, l.up) && !e.fn.IsDelivery()
    ensures var r := SendDown(sc, i, e.deliverAt, s, f); BalancedAfter(i, l, e, r.0, r.1)
  {
    var rs := SendDown(sc, i, e.deliverAt, s, f).1;
    SendKinds(sc, i, e.deliverAt, s, f);
    var t := s.trace;
    if rs == [] {
      NothingSent(i, l, e, rs);
      DropMoves(t.sent, s.link.dropped, t.kept, t.got, l.down, f);
    } else {
      OneSent(i, l, e, rs[0]);
      KeepMoves(t.sent, s.link.dropped, t.kept, t.got, l.down, f);
    }
  }

  lemma QuietBalances(sc: Scenario, i: nat, l: Local, e: Pending, s': Sess, rs: seq<Request>)
    requires Balanced(l) && !e.fn.IsDelivery() && forall r | r in rs :: !r.fn.IsDelivery()
    requires s' == l.s.(agent := s'.agent, trace := l.s.trace.(turns := s'.trace.turns))
    ensures BalancedAfter(i, l, e, s', rs)
  {
    NothingSent(i, l, e, rs);
  }

  /** The number of the frame a timer sends. */
  predicate Numbers(a: Agent, cb: Callback, n: int) {
    || (cb.OpenTurn? && n == cb.seqNo)
    || (cb.EmitFrame? && cb.turn == a.turn && a.talking && n == a.seqNo)
    || (cb.EmitEnd? && cb.turn == a.turn && !a.ended && n == a.seqNo)
  }

  /** The time a timer stamps its frame with. */
  function TimerTs(cb: Callback): int {
    match cb
    case OpenTurn(_, ts) => ts
    case EmitFrame(_, _, ts) => ts
    case EmitEnd(_, endTs) => endTs
    case _ => 0
  }

  /** A timer changes the agent and the record of turns, and then arms timers or sends a frame. */
  lemma TimerShape(sc: Scenario, i: nat, now: int, s: Sess, cb: Callback)
    returns (s1: Sess, f: Option<Frame>, timers: seq<Request>)
    requires FrameMs(sc) != 0 && cb.IsTimer()
    ensures s1 == s.(agent := s1.agent, trace := s.trace.(turns := s1.trace.turns))
    ensures forall r | r in timers :: !r.fn.IsDelivery()
    ensures React(sc, i, now, s, cb) == if f.None? then (s1, timers) else SendDown(sc, i, now, s1, f.value)
    ensures f.Some? ==> Numbers(s.agent, cb, f.value.seqNo) && f.value.ts == TimerTs(cb) && cb.IsTurnTimer()
  {
    s1, f, timers := s, None, [];
    match cb
    case Respond(gen, at) =>
      StartTouches(sc, s, gen, at);
      s1, timers := StartTurn(sc, s, gen, at).0, StartTurn(sc, s, gen, at).1;
    case OpenTurn(seqNo, ts) =>
      s1, f := s.(trace := MarkStarted(s.trace)), Some(Control(TurnStart, seqNo, ts));
    case EmitFrame(turn, _, ts) =>
      var (a, sent) := EmitAgentFrame(sc.Cfg(), s.agent, turn, ts);
      s1, f := s.(agent := a, trace := MarkFired(s.trace, s.agent, turn)), sent;
    case EmitEnd(turn, endTs) =>
      var (a, sent) := EmitTurnEnd(s.agent, turn, endTs);
      s1, f := s.(agent := a), sent;
  }

  lemma OutcomeBalances(sc: Scenario, i: nat, l: Local, e: Pending, s1: Sess, f: Option<Frame>, timers: seq<Request>,
                        s': Sess, rs: seq<Request>)
    requires Balanced(l) && !e.fn.IsDelivery() && forall r | r in timers :: !r.fn.IsDelivery()
    requires s1 == l.s.(agent := s1.agent, trace := l.s.trace.(turns := s1.trace.turns))
    requires (s', rs) == if f.None? then (s1, timers) else SendDown(sc, i, e.deliverAt, s1, f.value)
    ensures BalancedAfter(i, l, e, s', rs)
  {
    if f.None? {
      QuietBalances(sc, i, l, e, s1, timers);
    } else {
      SendBalances(sc, i, l, e, s1, f.value);
    }
  }

  lemma TimerBalances(sc: Scenario, i: nat, l: Local, e: Pending, s': Sess, rs: seq<Request>)
    requires FrameMs(sc) != 0 && Balanced(l) && e.fn.IsTimer() && (s', rs) == React(sc, i, e.deliverAt, l.s, e.fn)
    ensures BalancedAfter(i, l, e, s', rs)
  {
    var s1, f, timers := TimerShape(sc, i, e.deliverAt, l.s, e.fn);
    OutcomeBalances(sc, i, l, e, s1, f, timers, s', rs);
  }

  lemma CallbackBalances(sc: Scenario, i: nat, l: Local, e: Pending)
    requires FrameMs(sc) != 0 && Balanced(l) && DownFrame(e.fn) <= l.down && UpFrame(e.fn) <= l.up
    ensures var r := React(sc, i, e.deliverAt, l.s, e.fn); BalancedAfter(i, l, e, r.0, r.1)
  {
    if e.fn.IsTimer() {
      var (s', rs) := React(sc, i, e.deliverAt, l.s, e.fn);
      TimerBalances(sc, i, l, e, s', rs);
    } else if e.fn.CallerSpeaks? {
      SpeakBalances(i, l, e, React(sc, i, e.deliverAt, l.s, e.fn).0);
    } else if e.fn.ToAgent? {
      assert e.fn.frame in UpFrame(e.fn);
      HearBalances(sc, i, l, e);
    } else {
      assert e.fn.frame in DownFrame(e.fn);
      RecvBalances(sc, i, l, e);
    }
  }

  lemma BalancedFire(sc: Scenario, i: nat, l: Local, e: Pending)
    requires FrameMs(sc) != 0 && Balanced(l) && DownFrame(e.fn) <= l.down && UpFrame(e.fn) <= l.up
    ensures Balanced(FireLocal(Reactor(sc), sc.Cfg(), i, l, e))
  {
    CallbackBalances(sc, i, l, e);
  }
}
