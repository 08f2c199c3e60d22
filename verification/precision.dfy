/** What a caller says is what its script calls for, to the millisecond and frame by frame: every prompt from its
    scripted time on, and for every TurnStart seen whose turn the script barges into, the barge-in from exactly as long
    after it as the script says (internal/session/session.go:118-195). */
module Precision {
  import opened Audio
  import opened Basics
  import opened EventLog
  import opened Scenarios
  import opened CallerSession
  import opened Engine
  import opened SessionView
  import opened Sums

  function One(b: bool): nat { if b then 1 else 0 }

  // ---- what the script calls for ----

  /** How many frames of `step` milliseconds a burst takes: as many whole ones as fit, but at least one. */
  function WholeFrames(durMs: int, step: int): nat
    requires step > 0
    decreases durMs
  {
    if durMs < 2 * step then 1 else 1 + WholeFrames(durMs - step, step)
  }

  /** How often the cue is given by n speech frames of one size, the first numbered s and sent at start, each `step`
      after the one before. */
  function SpeechRun(start: int, step: int, n: nat, payloadLen: int, s: int, x: Cue): nat
    decreases n
  {
    if n == 0 then 0
    else
      One(x == Speaks(Frame(s, start, step, Speech, payloadLen)))
      + SpeechRun(start + step, step, n - 1, payloadLen, s + 1, x)
  }

  /** By the prompts of the turns, numbered from s, on a clock that starts at `base`. */
  function PromptCues(turns: seq<CallerTurn>, base: int, step: int, s: int, x: Cue): nat
    requires step > 0
  {
    if turns == [] then 0
    else
      var t := turns[0];
      var n := WholeFrames(t.durMs, step);
      SpeechRun(base + t.atMs, step, n, t.payloadLen, s, x) + PromptCues(turns[1..], base, step, s + n, x)
  }

  /** How many frames the prompts take. */
  function PromptedFrames(turns: seq<CallerTurn>, step: int): nat
    requires step > 0
  {
    if turns == [] then 0 else WholeFrames(turns[0].durMs, step) + PromptedFrames(turns[1..], step)
  }

  /** The entry records the start of a turn that the script barges into. */
  predicate Calls(sc: Scenario, e: Entry) {
    e.typ.TurnStarted? && 1 <= e.turn <= |sc.turns| && sc.turns[e.turn - 1].bargeIn.Some?
  }

  /** How many frames the barge-in takes that the entry calls for. */
  function CalledFrames(sc: Scenario, e: Entry): nat
    requires CadenceMs(sc) > 0
  {
    if Calls(sc, e) then WholeFrames(sc.turns[e.turn - 1].bargeIn.value.durMs, CadenceMs(sc)) else 0
  }

  /** By that barge-in, numbered from s. */
  function CalledBy(sc: Scenario, e: Entry, s: int, x: Cue): nat
    requires CadenceMs(sc) > 0
  {
    if !Calls(sc, e) then 0
    else
      var b := sc.turns[e.turn - 1].bargeIn.value;
      SpeechRun(e.ts + b.intoMs, CadenceMs(sc), CalledFrames(sc, e), b.payloadLen, s, x)
      + One(x == BargeAt(e.ts + b.intoMs))
  }

  /** How many frames are numbered by the time the log was recorded: those of the prompts, then of each barge-in. */
  function Numbered(sc: Scenario, log: seq<Entry>): nat
    requires CadenceMs(sc) > 0
  {
    if log == [] then PromptedFrames(sc.turns, CadenceMs(sc))
    else Numbered(sc, log[..|log| - 1]) + CalledFrames(sc, log[|log| - 1])
  }

  /** By the barge-ins that the log calls for. */
  function CalledCues(sc: Scenario, log: seq<Entry>, x: Cue): nat
    requires CadenceMs(sc) > 0
  {
    if log == [] then 0
    else
      var before := log[..|log| - 1];
      CalledCues(sc, before, x) + CalledBy(sc, log[|log| - 1], Numbered(sc, before), x)
  }

  /** By all that a caller is to say that has recorded `log`. */
  function ScriptCues(sc: Scenario, log: seq<Entry>, x: Cue): nat
    requires CadenceMs(sc) > 0
  {
    PromptCues(sc.turns, 1_000_000, CadenceMs(sc), 0, x) + CalledCues(sc, log, x)
  }

  // ---- what the log says was said ----

  predicate Says(e: Entry, x: Cue) {
    match x
    case Speaks(f) => e.typ.Send? && e.frame == f
    case BargeAt(ts) => e.typ.BargedIn? && e.ts == ts
  }

  /** How many entries give the cue. */
  function SaidCues(log: seq<Entry>, x: Cue): nat {
    if log == [] then 0 else SaidCues(log[..|log| - 1], x) + One(Says(log[|log| - 1], x))
  }

  /** What was said is stamped with the frame's time, and a barge-in is followed by the frame that it begins with. */
  ghost predicate SpeechStamped(log: seq<Entry>) {
    && (forall e | e in log && e.typ.Send? :: e.ts == e.frame.ts)
    && forall k: nat | k < |log| && log[k].typ.BargedIn? ::
         k + 1 < |log| && log[k].ts == log[k].frame.ts && log[k + 1] == log[k].(typ := EventType.Send)
  }

  /** How many turns the log records the start of. */
  function TurnsLogged(log: seq<Entry>): nat {
    if log == [] then 0 else TurnsLogged(log[..|log| - 1]) + One(log[|log| - 1].typ.TurnStarted?)
  }

  /** Every entry is filed under the number of turns seen to start, itself included. */
  ghost predicate Filed(log: seq<Entry>) {
    forall k: nat | k < |log| :: log[k].turn == TurnsLogged(log[..k + 1])
  }

  /** All that was called for was said or is pending, and nothing else. */
  ghost predicate Answered(sc: Scenario, c: Caller, cues: multiset<Cue>)
    requires CadenceMs(sc) > 0
  {
    && c.callerSeq == Numbered(sc, c.log)
    && (forall x :: ScriptCues(sc, c.log, x) == SaidCues(c.log, x) + cues[x])
    && SpeechStamped(c.log)
    && Filed(c.log) && c.obsTurn == TurnsLogged(c.log)
  }

  ghost predicate AnsweredBy(sc: Scenario, l: Local) {
    CadenceMs(sc) > 0 && Answered(sc, l.s.caller, l.cues)
  }

  // ---- the cues of scheduled requests ----

  /** How often the callback gives the cue. */
  function Gives(cb: Callback, x: Cue): nat {
    if !cb.CallerSpeaks? then 0
    else
      var f := cb.frame;
      One(x == Speaks(f)) + One(cb.bargeIn && x == BargeAt(f.ts))
  }

  lemma GivesCues(cb: Callback, x: Cue)
    ensures Cues(cb)[x] == Gives(cb, x)
  {}

  function AskedCues(rs: seq<Request>, x: Cue): nat {
    if rs == [] then 0 else Gives(rs[0].fn, x) + AskedCues(rs[1..], x)
  }

  lemma {:induction false} StampedCues(now: int, i: nat, rs: seq<Request>, x: Cue)
    ensures BagOf(Stamped(now, i, rs), CuesOf(i))[x] == AskedCues(rs, x)
  {
    if rs != [] {
      assert Stamped(now, i, rs)[1..] == Stamped(now, i, rs[1..]);
      StampedCues(now, i, rs[1..], x);
      GivesCues(rs[0].fn, x);
    }
  }

  lemma {:induction false} NothingAsked(rs: seq<Request>, x: Cue)
    requires forall r | r in rs :: !r.fn.CallerSpeaks?
    ensures AskedCues(rs, x) == 0
  {
    if rs != [] {
      NothingAsked(rs[1..], x);
    }
  }

  lemma {:induction false} AskedConcat(a: seq<Request>, b: seq<Request>, x: Cue)
    ensures AskedCues(a + b, x) == AskedCues(a, x) + AskedCues(b, x)
  {
    if a == [] {
      assert a + b == b;
    } else {
      assert (a + b)[1..] == a[1..] + b;
      AskedConcat(a[1..], b, x);
    }
  }

  /** When request k of a burst is sent. */
  function Tick(sc: Scenario, start: int, k: nat): int { start + k * CadenceMs(sc) }

  lemma NextTick(sc: Scenario, start: int, k: nat)
    ensures Tick(sc, start, k + 1) == Tick(sc, start, k) + CadenceMs(sc) && Tick(sc, start, 0) == start
  {}

  lemma BurstFrame(sc: Scenario, s: int, start: int, durMs: int, payloadLen: int, bargeIn: bool, k: nat)
    requires CadenceMs(sc) > 0 && k < BurstLen(sc, durMs)
    ensures var f := Frame(s + k, Tick(sc, start, k), CadenceMs(sc), Speech, payloadLen);
            Burst(sc, s, start, durMs, payloadLen, bargeIn)[k].fn == CallerSpeaks(f, bargeIn && k == 0)
  {}

  /** The requests, from the k-th on, are for frames a step apart from `at`, numbered from s. */
  ghost predicate Steps(rs: seq<Request>, k: nat, at: int, step: int, payloadLen: int, s: int, bargeIn: bool)
    requires k <= |rs|
    decreases |rs| - k
  {
    k == |rs| || (&& rs[k].fn == CallerSpeaks(Frame(s, at, step, Speech, payloadLen), bargeIn)
                  && Steps(rs, k + 1, at + step, step, payloadLen, s + 1, false))
  }

  lemma {:induction false} BurstSteps(sc: Scenario, s: int, start: int, durMs: int, payloadLen: int, bargeIn: bool,
                                      k: nat)
    requires CadenceMs(sc) > 0 && k <= BurstLen(sc, durMs)
    ensures Steps(Burst(sc, s, start, durMs, payloadLen, bargeIn), k, Tick(sc, start, k), CadenceMs(sc), payloadLen,
                  s + k, bargeIn && k == 0)
    decreases BurstLen(sc, durMs) - k
  {
    if k < BurstLen(sc, durMs) {
      BurstFrame(sc, s, start, durMs, payloadLen, bargeIn, k);
      NextTick(sc, start, k);
      BurstSteps(sc, s, start, durMs, payloadLen, bargeIn, k + 1);
    }
  }

  lemma {:induction false} StepCues(rs: seq<Request>, k: nat, at: int, step: int, payloadLen: int, s: int,
                                    bargeIn: bool, x: Cue)
    requires k <= |rs| && Steps(rs, k, at, step, payloadLen, s, bargeIn)
    ensures AskedCues(rs[k..], x) == SpeechRun(at, step, |rs| - k, payloadLen, s, x)
                                     + One(bargeIn && k < |rs| && x == BargeAt(at))
    decreases |rs| - k
  {
    if k < |rs| {
      StepCues(rs, k + 1, at + step, step, payloadLen, s + 1, false, x);
      assert rs[k..][1..] == rs[k + 1..];
    }
  }

  /** A burst asks for a run of speech and, if it is a barge-in, that. */
  lemma WholeBurst(sc: Scenario, s: int, start: int, durMs: int, payloadLen: int, bargeIn: bool, rs: seq<Request>,
                   x: Cue)
    requires CadenceMs(sc) > 0 && rs == Burst(sc, s, start, durMs, payloadLen, bargeIn)
    ensures |rs| == WholeFrames(durMs, CadenceMs(sc))
    ensures AskedCues(rs, x) == SpeechRun(start, CadenceMs(sc), |rs|, payloadLen, s, x)
                                + One(bargeIn && x == BargeAt(start))
  {
    BurstSize(sc, durMs);
    NextTick(sc, start, 0);
    BurstSteps(sc, s, start, durMs, payloadLen, bargeIn, 0);
    StepCues(rs, 0, start, CadenceMs(sc), payloadLen, s, bargeIn, x);
    assert rs[0..] == rs;
  }

  lemma {:induction false} WholeFramesDivide(durMs: int, step: int)
    requires step > 0
    ensures WholeFrames(durMs, step) == if durMs / step < 1 then 1 else durMs / step
    decreases durMs
  {
    if durMs >= 2 * step {
      var q, r := (durMs - step) / step, (durMs - step) % step;
      WholeFramesDivide(durMs - step, step);
      FloorIs(durMs, step, q + 1, r);
      QuotientAtLeastOne(durMs - step, step);
    } else if durMs >= step {
      FloorIs(durMs, step, 1, durMs - step);
    } else {
      QuotientBelowOne(durMs, step);
    }
  }

  lemma QuotientAtLeastOne(n: int, d: int)
    requires n >= d > 0
    ensures n / d >= 1
  {}

  lemma QuotientBelowOne(n: int, d: int)
    requires n < d && d > 0
    ensures n / d < 1 && Quot(n, d) <= 0
  {}

  lemma BurstSize(sc: Scenario, durMs: int)
    requires CadenceMs(sc) > 0
    ensures BurstLen(sc, durMs) == WholeFrames(durMs, CadenceMs(sc)) >= 1
  {
    WholeFramesDivide(durMs, CadenceMs(sc));
    if durMs < CadenceMs(sc) {
      QuotientBelowOne(durMs, CadenceMs(sc));
    }
  }

  /** The prompts are the first turn's burst and the others'. */
  lemma PromptsUnfold(sc: Scenario, turns: seq<CallerTurn>, s: int, startMs: int, x: Cue)
    returns (burst: seq<Request>, more: seq<Request>)
    requires CadenceMs(sc) > 0 && turns != []
    ensures var t := turns[0];
            && |burst| == WholeFrames(t.durMs, CadenceMs(sc))
            && AskedCues(burst, x) == SpeechRun(startMs + t.atMs, CadenceMs(sc), |burst|, t.payloadLen, s, x)
    ensures more == Prompts(sc, turns[1..], s + |burst|, startMs) && Prompts(sc, turns, s, startMs) == burst + more
  {
    var t := turns[0];
    burst := Burst(sc, s, startMs + t.atMs, t.durMs, t.payloadLen, false);
    WholeBurst(sc, s, startMs + t.atMs, t.durMs, t.payloadLen, false, burst, x);
    more := Prompts(sc, turns[1..], s + |burst|, startMs);
  }

  lemma {:induction false} PromptsCues(sc: Scenario, turns: seq<CallerTurn>, s: int, startMs: int, x: Cue)
    returns (rs: seq<Request>)
    requires CadenceMs(sc) > 0
    ensures rs == Prompts(sc, turns, s, startMs) && |rs| == PromptedFrames(turns, CadenceMs(sc))
    ensures AskedCues(rs, x) == PromptCues(turns, startMs, CadenceMs(sc), s, x)
    decreases |turns|
  {
    if turns == [] {
      rs := [];
    } else {
      var burst, more := PromptsUnfold(sc, turns, s, startMs, x);
      var rest := PromptsCues(sc, turns[1..], s + |burst|, startMs, x);
      AskedConcat(burst, rest, x);
      rs := burst + rest;
    }
  }

  // ---- each callback keeps the balance ----

  lemma EntryCounts(sc: Scenario, log: seq<Entry>, e: Entry, x: Cue)
    requires CadenceMs(sc) > 0
    ensures SaidCues(log + [e], x) == SaidCues(log, x) + One(Says(e, x))
    ensures CalledCues(sc, log + [e], x) == CalledCues(sc, log, x) + CalledBy(sc, e, Numbered(sc, log), x)
    ensures Numbered(sc, log + [e]) == Numbered(sc, log) + CalledFrames(sc, e)
  {
    assert (log + [e])[..|log|] == log;
  }

  lemma StampedNext(log: seq<Entry>, e: Entry)
    requires SpeechStamped(log) && !e.typ.BargedIn? && (e.typ.Send? ==> e.ts == e.frame.ts)
    ensures SpeechStamped(log + [e])
  {
    forall k: nat | k < |log| && log[k].typ.BargedIn?
      ensures (log + [e])[k + 1] == log[k].(typ := EventType.Send)
    {
      assert log[k + 1] == log[k].(typ := EventType.Send);
    }
  }

  /** A barge-in and the frame it begins with are recorded together. */
  lemma StampedBoth(log: seq<Entry>, e: Entry)
    requires SpeechStamped(log) && e.typ.BargedIn? && e.ts == e.frame.ts
    ensures SpeechStamped(log + [e] + [e.(typ := EventType.Send)])
  {
    var log' := log + [e] + [e.(typ := EventType.Send)];
    forall k: nat | k < |log'| && log'[k].typ.BargedIn?
      ensures k + 1 < |log'| && log'[k].ts == log'[k].frame.ts && log'[k + 1] == log'[k].(typ := EventType.Send)
    {
      if k < |log| {
        assert log[k + 1] == log[k].(typ := EventType.Send);
      }
    }
  }

  lemma FiledNext(log: seq<Entry>, e: Entry)
    requires Filed(log) && e.turn == TurnsLogged(log) + One(e.typ.TurnStarted?)
    ensures Filed(log + [e]) && TurnsLogged(log + [e]) == e.turn
  {
    var log' := log + [e];
    assert log'[..|log|] == log && log'[..|log| + 1] == log';
    forall k: nat | k < |log| ensures log'[k].turn == TurnsLogged(log'[..k + 1]) {
      assert log'[..k + 1] == log[..k + 1];
    }
  }

  /** A received frame becomes one entry, which says nothing; what it calls for is what is scheduled. */
  lemma RecvCalls(sc: Scenario, c: Caller, f: Frame, now: int, x: Cue) returns (e: Entry)
    requires CadenceMs(sc) > 0
    ensures e == Received(f, now, if f.kind == TurnStart then c.obsTurn + 1 else c.obsTurn)
    ensures !e.typ.Send? && !e.typ.BargedIn?
    ensures var (c', rs) := OnRecv(sc, c, f, now);
            && c'.log == c.log + [e] && c'.callerSeq == c.callerSeq + CalledFrames(sc, e)
            && e.turn == c'.obsTurn == c.obsTurn + One(e.typ.TurnStarted?)
            && AskedCues(rs, x) == CalledBy(sc, e, c.callerSeq, x)
  {
    var turn := if f.kind == TurnStart then c.obsTurn + 1 else c.obsTurn;
    e := Received(f, now, turn);
    if f.kind == TurnStart && ScriptedBargeIn(sc, turn).Some? {
      var b := ScriptedBargeIn(sc, turn).value;
      var rs := Burst(sc, c.callerSeq, now + b.intoMs, b.durMs, b.payloadLen, true);
      WholeBurst(sc, c.callerSeq, now + b.intoMs, b.durMs, b.payloadLen, true, rs, x);
    }
  }

  lemma ReceivedAnswers(sc: Scenario, i: nat, now: int, cues: multiset<Cue>, c: Caller, f: Frame)
    requires CadenceMs(sc) > 0 && Answered(sc, c, cues)
    ensures var (c', rs) := OnRecv(sc, c, f, now); Answered(sc, c', cues + BagOf(Stamped(now, i, rs), CuesOf(i)))
  {
    var (c', rs) := OnRecv(sc, c, f, now);
    var e := RecvCalls(sc, c, f, now, BargeAt(0));
    FiledNext(c.log, e);
    StampedNext(c.log, e);
    EntryCounts(sc, c.log, e, BargeAt(0));
    forall x
      ensures ScriptCues(sc, c'.log, x) == SaidCues(c'.log, x) + (cues + BagOf(Stamped(now, i, rs), CuesOf(i)))[x]
    {
      var y := RecvCalls(sc, c, f, now, x);
      StampedCues(now, i, rs, x);
      EntryCounts(sc, c.log, y, x);
    }
  }

  function SpeechSent(c: Caller, f: Frame): Entry { Entry(EventType.Send, f.ts, c.obsTurn, f) }

  function BargeSent(c: Caller, f: Frame): Entry { Entry(BargedIn, f.ts, c.obsTurn, f) }

  lemma SpeakLogs(c: Caller, f: Frame, bargeIn: bool)
    ensures OnSpeak(c, f, bargeIn).log == (if bargeIn then c.log + [BargeSent(c, f)] else c.log) + [SpeechSent(c, f)]
  {}

  /** The entries of a speech frame say exactly its cues, and call for nothing. */
  lemma SpeakSays(sc: Scenario, c: Caller, f: Frame, bargeIn: bool, x: Cue)
    requires CadenceMs(sc) > 0
    ensures var log := OnSpeak(c, f, bargeIn).log;
            && SaidCues(log, x) == SaidCues(c.log, x) + Cues(CallerSpeaks(f, bargeIn))[x]
            && CalledCues(sc, log, x) == CalledCues(sc, c.log, x) && Numbered(sc, log) == Numbered(sc, c.log)
  {
    SpeakLogs(c, f, bargeIn);
    GivesCues(CallerSpeaks(f, bargeIn), x);
    var mid := if bargeIn then c.log + [BargeSent(c, f)] else c.log;
    EntryCounts(sc, c.log, BargeSent(c, f), x);
    EntryCounts(sc, mid, SpeechSent(c, f), x);
    SpeechSays(c, f, x);
  }

  lemma SpeechSays(c: Caller, f: Frame, x: Cue)
    ensures One(Says(SpeechSent(c, f), x)) == One(x == Speaks(f))
    ensures One(Says(BargeSent(c, f), x)) == One(x == BargeAt(f.ts))
  {}

  lemma SpeakFiles(c: Caller, f: Frame, bargeIn: bool)
    requires Filed(c.log) && c.obsTurn == TurnsLogged(c.log)
    ensures var c' := OnSpeak(c, f, bargeIn); Filed(c'.log) && c'.obsTurn == TurnsLogged(c'.log)
    ensures SpeechStamped(c.log) ==> SpeechStamped(OnSpeak(c, f, bargeIn).log)
  {
    SpeakLogs(c, f, bargeIn);
    FiledNext(c.log, BargeSent(c, f));
    FiledNext(if bargeIn then c.log + [BargeSent(c, f)] else c.log, SpeechSent(c, f));
    if SpeechStamped(c.log) {
      if bargeIn { StampedBoth(c.log, BargeSent(c, f)); } else { StampedNext(c.log, SpeechSent(c, f)); }
    }
  }

  lemma SpokenAnswers(sc: Scenario, cues: multiset<Cue>, c: Caller, f: Frame, bargeIn: bool)
    requires CadenceMs(sc) > 0 && Answered(sc, c, cues) && Cues(CallerSpeaks(f, bargeIn)) <= cues
    ensures Answered(sc, OnSpeak(c, f, bargeIn), cues - Cues(CallerSpeaks(f, bargeIn)))
  {
    var c' := OnSpeak(c, f, bargeIn);
    SpeakFiles(c, f, bargeIn);
    SpeakSays(sc, c, f, bargeIn, BargeAt(0));
    forall x
      ensures ScriptCues(sc, c'.log, x) == SaidCues(c'.log, x) + (cues - Cues(CallerSpeaks(f, bargeIn)))[x]
    {
      SpeakSays(sc, c, f, bargeIn, x);
    }
  }

  lemma TimersSayNothing(sc: Scenario, i: nat, now: int, s: Sess, cb: Callback)
    requires FrameMs(sc) != 0 && cb.IsTimer()
    ensures forall r | r in React(sc, i, now, s, cb).1 :: !r.fn.CallerSpeaks?
    ensures React(sc, i, now, s, cb).0.caller == s.caller
  {
    match cb
    case Respond(gen, at) => StartTouches(sc, s, gen, at);
    case OpenTurn(_, _) =>
    case EmitFrame(_, _, _) =>
    case EmitEnd(_, _) =>
  }

  /** Only a received frame makes the caller speak. */
  lemma OthersSayNothing(sc: Scenario, i: nat, now: int, s: Sess, cb: Callback)
    requires FrameMs(sc) != 0 && !cb.ToCaller?
    ensures forall x :: BagOf(Stamped(now, i, React(sc, i, now, s, cb).1), CuesOf(i))[x] == 0
    ensures !cb.CallerSpeaks? ==> React(sc, i, now, s, cb).0.caller == s.caller
  {
    var rs := React(sc, i, now, s, cb).1;
    if cb.IsTimer() {
      TimersSayNothing(sc, i, now, s, cb);
    }
    forall x ensures BagOf(Stamped(now, i, rs), CuesOf(i))[x] == 0 {
      StampedCues(now, i, rs, x);
      NothingAsked(rs, x);
    }
  }

  /** The balance after a callback left the caller as c, scheduling rs. */
  ghost predicate AnsweredAfter(sc: Scenario, i: nat, now: int, cues: multiset<Cue>, cb: Callback, c: Caller,
                                rs: seq<Request>)
    requires CadenceMs(sc) > 0
  {
    Answered(sc, c, cues - Cues(cb) + BagOf(Stamped(now, i, rs), CuesOf(i)))
  }

  lemma Unmoved(cues: multiset<Cue>)
    ensures cues - multiset{} == cues
  {}

  lemma SameCues(sc: Scenario, c: Caller, cues: multiset<Cue>, cues': multiset<Cue>)
    requires CadenceMs(sc) > 0 && Answered(sc, c, cues) && forall x :: cues'[x] == cues[x]
    ensures Answered(sc, c, cues')
  {}

  lemma CallbackAnswers(sc: Scenario, i: nat, now: int, cues: multiset<Cue>, s: Sess, cb: Callback)
    requires CadenceMs(sc) > 0 && Answered(sc, s.caller, cues) && Cues(cb) <= cues
    ensures var (s', rs) := React(sc, i, now, s, cb); AnsweredAfter(sc, i, now, cues, cb, s'.caller, rs)
  {
    var (s', rs) := React(sc, i, now, s, cb);
    if cb.ToCaller? {
      Unmoved(cues);
      ReceivedAnswers(sc, i, now, cues, s.caller, cb.frame);
    } else {
      OthersSayNothing(sc, i, now, s, cb);
      if cb.CallerSpeaks? {
        SpokenAnswers(sc, cues, s.caller, cb.frame, cb.bargeIn);
      } else {
        Unmoved(cues);
      }
      SameCues(sc, s'.caller, cues - Cues(cb), cues - Cues(cb) + BagOf(Stamped(now, i, rs), CuesOf(i)));
    }
  }

  lemma AnsweredFire(sc: Scenario, i: nat, l: Local, e: Pending)
    requires FrameMs(sc) != 0 && AnsweredBy(sc, l) && Cues(e.fn) <= l.cues
    ensures AnsweredBy(sc, FireLocal(Reactor(sc), sc.Cfg(), i, l, e))
  {
    CallbackAnswers(sc, i, e.deliverAt, l.cues, l.s, e.fn);
  }

  // ---- what that says about barge-ins ----

  /** The script barges in at ts because of the turn that e records the start of. */
  predicate Triggers(sc: Scenario, e: Entry, ts: int) {
    Calls(sc, e) && ts == e.ts + sc.turns[e.turn - 1].bargeIn.value.intoMs
  }

  ghost predicate Prompted(sc: Scenario, log: seq<Entry>, ts: int) {
    exists e :: e in log && Triggers(sc, e, ts)
  }

  /** Every barge-in logged is one the script calls for, at its time. */
  ghost predicate LogPrecise(sc: Scenario, log: seq<Entry>) {
    forall e | e in log && e.typ.BargedIn? :: e.ts == e.frame.ts && Prompted(sc, log, e.ts)
  }

  /** How many barge-ins the log calls for at ts. */
  function CallsAt(sc: Scenario, log: seq<Entry>, ts: int): nat {
    if log == [] then 0 else CallsAt(sc, log[..|log| - 1], ts) + One(Triggers(sc, log[|log| - 1], ts))
  }

  /** How many it says were made at ts. */
  function BargesAt(log: seq<Entry>, ts: int): nat {
    if log == [] then 0
    else
      var e := log[|log| - 1];
      BargesAt(log[..|log| - 1], ts) + One(e.typ.BargedIn? && e.ts == ts)
  }

  lemma {:induction false} RunsBargeNot(start: int, step: int, n: nat, payloadLen: int, s: int, ts: int)
    ensures SpeechRun(start, step, n, payloadLen, s, BargeAt(ts)) == 0
    decreases n
  {
    if n > 0 {
      RunsBargeNot(start + step, step, n - 1, payloadLen, s + 1, ts);
    }
  }

  lemma {:induction false} PromptsBargeNot(turns: seq<CallerTurn>, base: int, step: int, s: int, ts: int)
    requires step > 0
    ensures PromptCues(turns, base, step, s, BargeAt(ts)) == 0
  {
    if turns != [] {
      var n := WholeFrames(turns[0].durMs, step);
      RunsBargeNot(base + turns[0].atMs, step, n, turns[0].payloadLen, s, ts);
      PromptsBargeNot(turns[1..], base, step, s + n, ts);
    }
  }

  lemma {:induction false} BargesCounted(sc: Scenario, log: seq<Entry>, ts: int)
    requires CadenceMs(sc) > 0
    ensures CalledCues(sc, log, BargeAt(ts)) == CallsAt(sc, log, ts) && SaidCues(log, BargeAt(ts)) == BargesAt(log, ts)
  {
    if log != [] {
      var e := log[|log| - 1];
      BargesCounted(sc, log[..|log| - 1], ts);
      if Calls(sc, e) {
        var b := sc.turns[e.turn - 1].bargeIn.value;
        RunsBargeNot(e.ts + b.intoMs, CadenceMs(sc), CalledFrames(sc, e), b.payloadLen,
                     Numbered(sc, log[..|log| - 1]), ts);
      }
    }
  }

  /** No more barge-ins are logged for a time than are called for then, and those still to come make up the rest. */
  lemma BargesBalance(sc: Scenario, c: Caller, cues: multiset<Cue>, ts: int)
    requires CadenceMs(sc) > 0 && Answered(sc, c, cues)
    ensures CallsAt(sc, c.log, ts) == BargesAt(c.log, ts) + cues[BargeAt(ts)]
  {
    BargesCounted(sc, c.log, ts);
    PromptsBargeNot(sc.turns, 1_000_000, CadenceMs(sc), 0, ts);
    assert ScriptCues(sc, c.log, BargeAt(ts)) == SaidCues(c.log, BargeAt(ts)) + cues[BargeAt(ts)];
  }

  lemma {:induction false} CallIn(sc: Scenario, log: seq<Entry>, ts: int) returns (e: Entry)
    requires CallsAt(sc, log, ts) > 0
    ensures e in log && Triggers(sc, e, ts)
  {
    e := log[|log| - 1];
    if !Triggers(sc, e, ts) {
      e := CallIn(sc, log[..|log| - 1], ts);
    }
  }

  lemma {:induction false} BargeIsCounted(log: seq<Entry>, e: Entry)
    requires e in log && e.typ.BargedIn?
    ensures BargesAt(log, e.ts) > 0
  {
    if e != log[|log| - 1] {
      assert e in log[..|log| - 1];
      BargeIsCounted(log[..|log| - 1], e);
    }
  }

  lemma AnsweredIsPrecise(sc: Scenario, c: Caller, cues: multiset<Cue>)
    requires CadenceMs(sc) > 0 && Answered(sc, c, cues)
    ensures LogPrecise(sc, c.log)
    ensures forall ts :: BargesAt(c.log, ts) <= CallsAt(sc, c.log, ts)
    ensures cues == multiset{} ==> forall ts :: BargesAt(c.log, ts) == CallsAt(sc, c.log, ts)
  {
    forall ts ensures CallsAt(sc, c.log, ts) == BargesAt(c.log, ts) + cues[BargeAt(ts)] {
      BargesBalance(sc, c, cues, ts);
    }
    forall e | e in c.log && e.typ.BargedIn? ensures e.ts == e.frame.ts && Prompted(sc, c.log, e.ts) {
      var k :| 0 <= k < |c.log| && c.log[k] == e;
      BargeIsCounted(c.log, e);
      BargesBalance(sc, c, cues, e.ts);
      var x := CallIn(sc, c.log, e.ts);
    }
  }
}
