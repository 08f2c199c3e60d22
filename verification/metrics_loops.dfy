/** The metrics as the code computes them, one pass after the other (internal/metrics/metrics.go:59-250). */
module MetricsLoops {
  import opened Audio
  import opened Basics
  import opened Sums
  import opened Sorting
  import opened EventLog
  import Metrics

  type Spans = map<int, Metrics.TurnSpan>

  const UNSEEN := Metrics.TurnSpan(None, None)

  /** spans holds the span of every turn whose start or end is among the events, and no other. */
  ghost predicate SpansOf(spans: Spans, events: seq<Entry>) {
    && (forall t | t in spans :: spans[t] == Metrics.SpanOf(events, t))
    && (forall t | t !in spans :: Metrics.SpanOf(events, t) == UNSEEN)
  }

  function Lookup(spans: Spans, t: int): Metrics.TurnSpan { if t in spans then spans[t] else UNSEEN }

  /** In canonical order the last entry seen is the latest. */
  lemma LastIsLatest(s: seq<Entry>, n: nat, p: Entry -> bool)
    requires n < |s| && Sorted(s, LogLess())
    ensures Metrics.Latest(s[..n + 1], p) == if p(s[n]) then Some(s[n].ts) else Metrics.Latest(s[..n], p)
  {
    assert s[..n + 1][..n] == s[..n];
    Metrics.LatestIs(s[..n], p);
    forall e | e in s[..n] ensures e.ts <= s[n].ts {
      var k :| 0 <= k < n && s[k] == e;
      assert !LogLess()(s[n], s[k]);
    }
  }

  /** And the first is the earliest. */
  lemma FirstIsEarliest(s: seq<Entry>, n: nat, p: Entry -> bool)
    requires n < |s| && Sorted(s, LogLess())
    ensures Metrics.Earliest(s[..n + 1], p)
            == if p(s[n]) && Metrics.Earliest(s[..n], p).None? then Some(s[n].ts) else Metrics.Earliest(s[..n], p)
  {
    assert s[..n + 1][..n] == s[..n];
    Metrics.EarliestIs(s[..n], p);
    forall e | e in s[..n] ensures e.ts <= s[n].ts {
      var k :| 0 <= k < n && s[k] == e;
      assert !LogLess()(s[n], s[k]);
    }
  }

  /** turnSpans: a later marker overwrites an earlier one. */
  method TurnSpans(events: seq<Entry>) returns (spans: Spans)
    requires Sorted(events, LogLess())
    ensures SpansOf(spans, events)
  {
    spans := map[];
    var i := 0;
    while i < |events|
      invariant 0 <= i <= |events| && SpansOf(spans, events[..i])
    {
      var e := events[i];
      forall t ensures Metrics.SpanOf(events[..i + 1], t)
                       == Metrics.TurnSpan(if Metrics.StartOf(t)(e) then Some(e.ts)
                                           else Metrics.SpanOf(events[..i], t).start,
                                           if Metrics.EndOf(t)(e) then Some(e.ts)
                                           else Metrics.SpanOf(events[..i], t).end)
      {
        LastIsLatest(events, i, Metrics.StartOf(t));
        LastIsLatest(events, i, Metrics.EndOf(t));
      }
      if e.typ.TurnStarted? {
        spans := spans[e.turn := Lookup(spans, e.turn).(start := Some(e.ts))];
      } else if e.typ.TurnEnded? {
        spans := spans[e.turn := Lookup(spans, e.turn).(end := Some(e.ts))];
      }
      i := i + 1;
    }
    assert events[..i] == events;
  }

  lemma SomeIn(s: set<int>)
    ensures s == {} || exists t: int :: t in s
  {
    if forall t: int :: t !in s {
      assert s == {};
    }
  }

  /** The keys of a map, ascending. */
  method SortedKeys<T>(m: map<int, T>) returns (ks: seq<int>)
    ensures Metrics.Ascending(ks) && forall t :: t in ks <==> t in m
  {
    ks := [];
    var left: set<int> := m.Keys;
    while left != {}
      invariant left <= m.Keys && Metrics.Ascending(ks)
      invariant forall t :: t in ks <==> t in m && t !in left
      decreases |left|
    {
      SomeIn(left);
      var t: int :| t in left;
      Metrics.AddTurnIs(ks, t);
      ks := Metrics.AddTurn(ks, t);
      left := left - {t};
    }
  }

  /** bargeAt holds, for every turn barged into, the time of its earliest barge-in. */
  ghost predicate BargesOf(bargeAt: map<int, int>, events: seq<Entry>) {
    forall t :: Metrics.BargeAt(events, t) == if t in bargeAt then Some(bargeAt[t]) else None
  }

  method Barges(events: seq<Entry>) returns (bargeAt: map<int, int>)
    requires Sorted(events, LogLess())
    ensures BargesOf(bargeAt, events)
  {
    bargeAt := map[];
    var i := 0;
    while i < |events|
      invariant 0 <= i <= |events| && BargesOf(bargeAt, events[..i])
    {
      var e := events[i];
      forall t ensures Metrics.BargeAt(events[..i + 1], t)
                       == if Metrics.BargeOf(t)(e) && Metrics.BargeAt(events[..i], t).None? then Some(e.ts)
                          else Metrics.BargeAt(events[..i], t)
      {
        FirstIsEarliest(events, i, Metrics.BargeOf(t));
      }
      if e.typ.BargedIn? && e.turn !in bargeAt {
        bargeAt := bargeAt[e.turn := e.ts];
      }
      i := i + 1;
    }
    assert events[..i] == events;
  }

  /** last holds, for turns barged into, the time of the last agent frame that counts against them. */
  ghost predicate LastsOf(last: map<int, int>, bargeAt: map<int, int>, spans: Spans, events: seq<Entry>) {
    && (forall t | t in last :: t in bargeAt)
    && forall t | t in bargeAt ::
         Metrics.Latest(events, Metrics.StillTalking(t, bargeAt[t], Lookup(spans, t).end))
         == if t in last then Some(last[t]) else None
  }

  method LastAgentAfter(events: seq<Entry>, bargeAt: map<int, int>, spans: Spans) returns (last: map<int, int>)
    ensures LastsOf(last, bargeAt, spans, events)
  {
    last := map[];
    var i := 0;
    while i < |events|
      invariant 0 <= i <= |events| && LastsOf(last, bargeAt, spans, events[..i])
    {
      var e := events[i];
      assert events[..i + 1][..i] == events[..i];
      if Metrics.IsAgent(e) && e.turn in bargeAt && e.ts >= bargeAt[e.turn] {
        var end := Lookup(spans, e.turn).end;
        if !(end.Some? && e.ts >= end.value) {
          if e.turn !in last || e.ts > last[e.turn] {
            last := last[e.turn := e.ts];
          }
        }
      }
      i := i + 1;
    }
    assert events[..i] == events;
  }

  /** timeToStop (metrics.go:101-151). */
  method TimeToStop(events: seq<Entry>, spans: Spans) returns (out: seq<int>)
    requires Sorted(events, LogLess()) && SpansOf(spans, events)
    ensures out == Metrics.TimeToStop(events)
  {
    var bargeAt := Barges(events);
    var last := LastAgentAfter(events, bargeAt, spans);
    var turns := SortedKeys(bargeAt);
    BargedTurns(events, bargeAt, turns);
    out := [];
    while |out| < |turns|
      invariant |out| <= |turns| && out == Metrics.StopTimes(events, turns[..|out|])
    {
      var t := turns[|out|];
      assert t in turns;
      out := out + [if t in last then last[t] - bargeAt[t] else 0];
    }
    assert turns[..|out|] == turns;
  }

  lemma BargedTurns(events: seq<Entry>, bargeAt: map<int, int>, turns: seq<int>)
    requires BargesOf(bargeAt, events) && Metrics.Ascending(turns) && forall t :: t in turns <==> t in bargeAt
    ensures turns == Metrics.TurnsOf(events, Metrics.IsBarge())
  {
    var other := Metrics.TurnsOf(events, Metrics.IsBarge());
    Metrics.TurnsOfIs(events, Metrics.IsBarge());
    forall t ensures t in turns <==> t in other {
      Metrics.EarliestIs(events, Metrics.BargeOf(t));
    }
    Metrics.AscendingUnique(turns, other);
  }

  method OverlapSum(c: Frame, agent: seq<Frame>) returns (total: int)
    ensures total == SumOf(agent, Metrics.OverlapWith(c))
  {
    total := 0;
    var k := 0;
    while k < |agent|
      invariant 0 <= k <= |agent| && total == SumOf(agent[..k], Metrics.OverlapWith(c))
    {
      SumLast(agent[..k + 1], Metrics.OverlapWith(c));
      assert agent[..k + 1][..k] == agent[..k];
      total := total + OverlapMs(c, agent[k]);
      k := k + 1;
    }
    assert agent[..k] == agent;
  }

  method SumOverlaps(caller: seq<Frame>, agent: seq<Frame>) returns (total: int)
    ensures total == Metrics.Overlaps(caller, agent)
  {
    total := 0;
    var j := 0;
    while j < |caller|
      invariant 0 <= j <= |caller| && total == SumOf(caller[..j], Metrics.OverlapAll(agent))
    {
      SumLast(caller[..j + 1], Metrics.OverlapAll(agent));
      assert caller[..j + 1][..j] == caller[..j];
      var t := OverlapSum(caller[j], agent);
      total := total + t;
      j := j + 1;
    }
    assert caller[..j] == caller;
  }

  /** doubleTalk (metrics.go:155-173). */
  method DoubleTalk(events: seq<Entry>) returns (total: int)
    ensures total == Metrics.DoubleTalk(events)
  {
    var caller: seq<Frame>, agent: seq<Frame> := [], [];
    var i := 0;
    while i < |events|
      invariant 0 <= i <= |events|
      invariant caller == Metrics.Frames(events[..i], Metrics.SpeechOf)
                && agent == Metrics.Frames(events[..i], Metrics.AudioOf)
    {
      var e := events[i];
      assert events[..i + 1][..i] == events[..i];
      if e.typ.Send? && e.frame.kind.Speech? {
        caller := caller + [Frame(0, e.ts, e.frame.durMs, Silence, 0)];
      } else if e.typ.Recv? && e.frame.kind.AgentAudio? {
        agent := agent + [Frame(0, e.ts, e.frame.durMs, Silence, 0)];
      }
      i := i + 1;
    }
    assert events[..i] == events;
    total := SumOverlaps(caller, agent);
  }

  /** Receive times per turn, in log order. */
  ghost predicate TimesOf(perTurn: map<int, seq<int>>, events: seq<Entry>) {
    forall t :: Metrics.Times(events, Metrics.AgentOf(t)) == if t in perTurn then perTurn[t] else []
  }

  ghost predicate NoneEmpty(perTurn: map<int, seq<int>>) {
    forall t | t in perTurn :: perTurn[t] != []
  }

  lemma PerTurnStep(perTurn: map<int, seq<int>>, events: seq<Entry>, i: nat)
    requires i < |events| && TimesOf(perTurn, events[..i]) && NoneEmpty(perTurn)
    ensures var e := events[i];
            var next := if Metrics.IsAgent(e)
                        then perTurn[e.turn := (if e.turn in perTurn then perTurn[e.turn] else []) + [e.ts]]
                          else perTurn;
            TimesOf(next, events[..i + 1]) && NoneEmpty(next)
  {
    var e := events[i];
    var next := if Metrics.IsAgent(e)
                then perTurn[e.turn := (if e.turn in perTurn then perTurn[e.turn] else []) + [e.ts]] else perTurn;
    forall t ensures Metrics.Times(events[..i + 1], Metrics.AgentOf(t)) == if t in next then next[t] else [] {
      OneMoreTime(events, i, t);
    }
  }

  lemma OneMoreTime(events: seq<Entry>, i: nat, t: int)
    requires i < |events|
    ensures Metrics.Times(events[..i + 1], Metrics.AgentOf(t))
            == Metrics.Times(events[..i], Metrics.AgentOf(t))
               + (if Metrics.IsAgent(events[i]) && events[i].turn == t then [events[i].ts] else [])
  {
    assert events[..i + 1][..i] == events[..i];
  }

  method PerTurn(events: seq<Entry>) returns (perTurn: map<int, seq<int>>)
    ensures TimesOf(perTurn, events) && NoneEmpty(perTurn)
  {
    perTurn := map[];
    var i := 0;
    while i < |events|
      invariant 0 <= i <= |events| && TimesOf(perTurn, events[..i]) && NoneEmpty(perTurn)
    {
      var e := events[i];
      PerTurnStep(perTurn, events, i);
      if Metrics.IsAgent(e) {
        perTurn := perTurn[e.turn := (if e.turn in perTurn then perTurn[e.turn] else []) + [e.ts]];
      }
      i := i + 1;
    }
    assert events[..i] == events;
  }

  lemma {:induction false} SomeTime(events: seq<Entry>, t: int)
    ensures Metrics.Times(events, Metrics.AgentOf(t)) != [] <==>
              exists e :: e in events && Metrics.IsAgent(e) && e.turn == t
  {
    if events != [] {
      var n := |events| - 1;
      SomeTime(events[..n], t);
      assert events == events[..n] + [events[n]];
    }
  }

  lemma AgentTurns(events: seq<Entry>, perTurn: map<int, seq<int>>, turns: seq<int>)
    requires TimesOf(perTurn, events) && NoneEmpty(perTurn)
    requires Metrics.Ascending(turns) && forall t :: t in turns <==> t in perTurn
    ensures turns == Metrics.TurnsOf(events, Metrics.IsAgentEntry())
  {
    var other := Metrics.TurnsOf(events, Metrics.IsAgentEntry());
    Metrics.TurnsOfIs(events, Metrics.IsAgentEntry());
    forall t ensures t in turns <==> t in other {
      SomeTime(events, t);
      assert Metrics.Times(events, Metrics.AgentOf(t)) != [] <==> t in perTurn;
    }
    Metrics.AscendingUnique(turns, other);
  }

  method TurnStalls(ts: seq<int>, span: Metrics.TurnSpan, threshold: int) returns (count: nat, totalMs: int)
    ensures count == Metrics.StallCount(ts, span, threshold) && totalMs == Metrics.StallMs(ts, span, threshold)
  {
    count, totalMs := 0, 0;
    var i := 1;
    while i < |ts|
      invariant 1 <= i && (i <= |ts| || |ts| == 0)
      invariant |ts| > 0 ==> count == Metrics.StallCount(ts[..i], span, threshold)
                             && totalMs == Metrics.StallMs(ts[..i], span, threshold)
      invariant |ts| == 0 ==> count == 0 && totalMs == 0
    {
      assert ts[..i + 1][..i] == ts[..i];
      var gap := ts[i] - ts[i - 1];
      if gap > threshold && !(span.start.Some? && ts[i - 1] < span.start.value)
         && !(span.end.Some? && ts[i] >= span.end.value) {
        count := count + 1;
        totalMs := totalMs + gap;
      }
      i := i + 1;
    }
    assert |ts| > 0 ==> ts[..i] == ts;
  }

  /** Mentioned to look at one turn's stalls; the sum over turns does not need to. */
  ghost predicate Pick(t: int) { true }

  ghost predicate Contributions(f: int -> (nat, int), events: seq<Entry>, threshold: int) {
    forall t {:trigger Pick(t)} :: Pick(t) ==> f(t) == Metrics.TurnStalls(events, t, threshold)
  }

  /** One turn's times, sorted and measured; f says what each turn contributes. */
  method OneTurn(events: seq<Entry>, spans: Spans, perTurn: map<int, seq<int>>, t: int, threshold: int,
                 ghost f: int -> (nat, int)) returns (count: nat, totalMs: int)
    requires SpansOf(spans, events) && TimesOf(perTurn, events) && t in perTurn && Contributions(f, events, threshold)
    ensures (count, totalMs) == f(t)
  {
    assert Pick(t);
    var ts := SliceStable(perTurn[t], Metrics.IntLess());
    count, totalMs := TurnStalls(ts, Lookup(spans, t), threshold);
  }

  method SumTurns(events: seq<Entry>, spans: Spans, perTurn: map<int, seq<int>>, turns: seq<int>, threshold: int,
                  ghost f: int -> (nat, int)) returns (count: nat, totalMs: int)
    requires SpansOf(spans, events) && TimesOf(perTurn, events) && Contributions(f, events, threshold)
    requires forall k | 0 <= k < |turns| :: turns[k] in perTurn
    ensures (count, totalMs) == Metrics.Total(turns, f)
  {
    count, totalMs := 0, 0;
    var k := 0;
    while k < |turns|
      invariant 0 <= k <= |turns| && (count, totalMs) == Metrics.Total(turns[..k], f)
    {
      assert turns[..k + 1][..k] == turns[..k];
      var c, ms := OneTurn(events, spans, perTurn, turns[k], threshold, f);
      count, totalMs := count + c, totalMs + ms;
      k := k + 1;
    }
    assert turns[..k] == turns;
  }

  /** stalls (metrics.go:177-216). */
  method Stalls(events: seq<Entry>, spans: Spans, threshold: int) returns (count: nat, totalMs: int)
    requires SpansOf(spans, events)
    ensures (count, totalMs) == Metrics.Stalls(events, threshold)
  {
    var perTurn := PerTurn(events);
    var turns := SortedKeys(perTurn);
    AgentTurns(events, perTurn, turns);
    count, totalMs := SumTurns(events, spans, perTurn, turns, threshold, Metrics.StallsFor(events, threshold));
  }

  /** droppedFrames (metrics.go:219-227). */
  method DroppedFrames(events: seq<Entry>) returns (n: int)
    ensures n == Metrics.Dropped(events)
  {
    n := 0;
    var i := 0;
    while i < |events|
      invariant 0 <= i <= |events| && n == SumOf(events[..i], Metrics.IsDrop())
    {
      SumLast(events[..i + 1], Metrics.IsDrop());
      assert events[..i + 1][..i] == events[..i];
      if events[i].typ.Drop? {
        n := n + 1;
      }
      i := i + 1;
    }
    assert events[..i] == events;
  }

  lemma OneMoreSeq(ns: seq<int>, x: int)
    ensures var m, r := Metrics.RunningMax(ns), ns + [x];
            && Metrics.RunningMax(r) == (if m.Some? && x < m.value then m else Some(x))
            && Metrics.Overtaken(r) == Metrics.Overtaken(ns) + (if m.Some? && x < m.value then 1 else 0)
  {
    assert (ns + [x])[..|ns|] == ns;
  }

  /** reorderedFrames (metrics.go:234-250). */
  method ReorderedFrames(events: seq<Entry>) returns (count: nat)
    ensures count == Metrics.Reordered(events)
  {
    var runningMax, seen := 0, false;
    count := 0;
    ghost var ns: seq<int> := [];
    var i := 0;
    while i < |events|
      invariant 0 <= i <= |events| && ns == Metrics.AgentSeqs(events[..i]) && count == Metrics.Overtaken(ns)
      invariant Metrics.RunningMax(ns) == if seen then Some(runningMax) else None
    {
      var e := events[i];
      assert events[..i + 1][..i] == events[..i];
      if Metrics.IsAgent(e) {
        OneMoreSeq(ns, e.frame.seqNo);
        ns := ns + [e.frame.seqNo];
        if seen && e.frame.seqNo < runningMax {
          count := count + 1;
        } else {
          runningMax, seen := e.frame.seqNo, true;
        }
      }
      i := i + 1;
    }
    assert events[..i] == events;
  }

  /** ComputeSession (metrics.go:59-71): sorts the log in place and measures it. */
  method ComputeSession(log: Log, stallThresholdMs: int) returns (m: Metrics.SessionMetrics)
    modifies log
    ensures log.events == SortedLog(old(log.events))
    ensures m == Metrics.Compute(log.sessionIndex, old(log.events), stallThresholdMs)
  {
    LogOrder();
    StableSortSorts(log.events, LogLess());
    log.Sort();
    var spans := TurnSpans(log.events);
    var tts := TimeToStop(log.events, spans);
    var dt := DoubleTalk(log.events);
    var count, ms := Stalls(log.events, spans, stallThresholdMs);
    var dropped := DroppedFrames(log.events);
    var reordered := ReorderedFrames(log.events);
    m := Metrics.SessionMetrics(log.sessionIndex, tts, dt, count, ms, dropped, reordered);
  }
}
