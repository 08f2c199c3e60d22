/** What ComputeSession reports of a log, in terms of the log's own entries, in whatever order they were appended
    (internal/metrics/metrics.go:33-250). */
module Reported {
  import opened Audio
  import opened Basics
  import opened Sums
  import opened Sorting
  import opened EventLog
  import opened Metrics
  import opened MetricsMeaning

  // ---- counting entries ----

  function Tally(p: Entry -> bool): Entry -> int { (e: Entry) => if p(e) then 1 else 0 }

  /** How many of the entries satisfy p. */
  function Count(events: seq<Entry>, p: Entry -> bool): int { SumOf(events, Tally(p)) }

  lemma SortedAlike(events: seq<Entry>)
    ensures multiset(SortedLog(events)) == multiset(events)
  {
    LogSorts(events);
  }

  lemma CountSorted(events: seq<Entry>, p: Entry -> bool)
    ensures Count(SortedLog(events), p) == Count(events, p)
  {
    SortedAlike(events);
    SumPermutation(SortedLog(events), events, Tally(p));
  }

  predicate IsAudio(e: Entry) { e.typ == Recv && e.frame.kind == AgentAudio }

  // ---- drops ----

  /** The drops reported are the Drop entries. */
  lemma DropsReported(index: int, events: seq<Entry>, threshold: int)
    ensures Compute(index, events, threshold).droppedFrames == Count(events, (e: Entry) => e.typ == Drop)
  {
    SortedAlike(events);
    SumPermutation(SortedLog(events), events, IsDrop());
    SumsAgree(events, IsDrop(), Tally((e: Entry) => e.typ == Drop));
  }

  // ---- double talk ----

  /** The entry is speech that was being sent in millisecond t. */
  predicate SpeaksAt(e: Entry, t: int) {
    e.typ == EventType.Send && e.frame.kind == Speech && e.ts <= t < e.ts + e.frame.durMs
  }

  /** The entry is agent audio that was playing in millisecond t. */
  predicate SoundsAt(e: Entry, t: int) { IsAudio(e) && e.ts <= t < e.ts + e.frame.durMs }

  /** In millisecond t: the speech being sent times the agent audio playing. */
  function TalkAt(events: seq<Entry>): int -> int {
    (t: int) => Count(events, (e: Entry) => SpeaksAt(e, t)) * Count(events, (e: Entry) => SoundsAt(e, t))
  }

  lemma {:induction false} CoverConcat(a: seq<Frame>, b: seq<Frame>, t: int)
    ensures Cover(a + b, t) == Cover(a, t) + Cover(b, t)
  {
    if a == [] {
      assert a + b == b;
    } else {
      assert (a + b)[1..] == a[1..] + b;
      CoverConcat(a[1..], b, t);
    }
  }

  lemma CoverOne(f: Frame, t: int)
    ensures Cover([f], t) == if Covers(f, t) then 1 else 0
  {
    assert [f][1..] == [];
  }

  lemma {:induction false} CoverCounts(events: seq<Entry>, f: Entry -> seq<Frame>, p: Entry -> bool, t: int)
    requires forall e | e in events :: Cover(f(e), t) == if p(e) then 1 else 0
    ensures Cover(Frames(events, f), t) == Count(events, p)
  {
    if events != [] {
      var n := |events| - 1;
      assert events[n] in events;
      CoverCounts(events[..n], f, p, t);
      CoverConcat(Frames(events[..n], f), f(events[n]), t);
      SumLast(events, Tally(p));
    }
  }

  lemma PairsAreTalk(events: seq<Entry>, t: int)
    ensures Pairs(Frames(events, SpeechOf), Frames(events, AudioOf))(t) == TalkAt(events)(t)
  {
    forall e: Entry
      ensures Cover(SpeechOf(e), t) == if SpeaksAt(e, t) then 1 else 0
      ensures Cover(AudioOf(e), t) == if SoundsAt(e, t) then 1 else 0
    {
      CoverOne(Frame(0, e.ts, e.frame.durMs, Kind.Silence, 0), t);
    }
    CoverCounts(events, SpeechOf, (e: Entry) => SpeaksAt(e, t), t);
    CoverCounts(events, AudioOf, (e: Entry) => SoundsAt(e, t), t);
  }

  lemma {:induction false} WindowAlike(f: int -> int, g: int -> int, lo: int, hi: int)
    requires forall t :: f(t) == g(t)
    ensures WindowSum(f, lo, hi) == WindowSum(g, lo, hi)
    decreases hi - lo
  {
    if lo < hi {
      WindowAlike(f, g, lo, hi - 1);
    }
  }

  lemma {:induction false} SpeechInWindow(events: seq<Entry>, lo: int, hi: int)
    requires forall e | e in events && e.typ == EventType.Send && e.frame.kind == Speech ::
               lo <= e.ts && e.ts + e.frame.durMs <= hi
    ensures InWindow(Frames(events, SpeechOf), lo, hi)
  {
    if events != [] {
      var n := |events| - 1;
      assert events[n] in events;
      SpeechInWindow(events[..n], lo, hi);
    }
  }

  /** The double talk reported is, summed over the milliseconds of any window that holds all speech, how many speech
      frames were being sent times how many agent frames were playing. */
  lemma DoubleTalkReported(index: int, events: seq<Entry>, threshold: int, lo: int, hi: int)
    requires forall e | e in events && e.typ == EventType.Send && e.frame.kind == Speech ::
               lo <= e.ts && e.ts + e.frame.durMs <= hi
    ensures Compute(index, events, threshold).doubleTalkMs == WindowSum(TalkAt(events), lo, hi)
  {
    SortedAlike(events);
    DoubleTalkPermutes(SortedLog(events), events);
    SpeechInWindow(events, lo, hi);
    DoubleTalkIsCover(events, lo, hi);
    var pairs := Pairs(Frames(events, SpeechOf), Frames(events, AudioOf));
    forall t ensures pairs(t) == TalkAt(events)(t) {
      PairsAreTalk(events, t);
    }
    WindowAlike(pairs, TalkAt(events), lo, hi);
  }

  // ---- time to stop ----

  /** Agent audio of turn t that came at or after `from` and before the turn was last seen to end. */
  ghost predicate Heard(events: seq<Entry>, t: int, from: int, r: Entry) {
    && r in events && IsAudio(r) && r.turn == t && r.ts >= from
    && ((exists e :: e in events && e.typ == TurnEnded && e.turn == t) ==>
          exists e :: e in events && e.typ == TurnEnded && e.turn == t && r.ts < e.ts)
  }

  /** v is how long turn t went on after its first barge-in: to its last audio, or zero when there was none. */
  ghost predicate StopsAfter(events: seq<Entry>, t: int, v: int) {
    exists b ::
      && b in events && b.typ == BargedIn && b.turn == t
      && (forall x | x in events && x.typ == BargedIn && x.turn == t :: b.ts <= x.ts)
      && LastsFor(events, t, b.ts, v)
  }

  ghost predicate LastsFor(events: seq<Entry>, t: int, from: int, v: int) {
    || (v == 0 && forall r :: !Heard(events, t, from, r))
    || (exists r ::
          && Heard(events, t, from, r) && v == r.ts - from
          && forall x | Heard(events, t, from, x) :: x.ts <= r.ts)
  }

  lemma HeardIsCounted(events: seq<Entry>, t: int, from: int, r: Entry)
    ensures Heard(events, t, from, r) <==> r in events && StillTalking(t, from, SpanOf(events, t).end)(r)
  {
    LatestIs(events, EndOf(t));
    var end := Latest(events, EndOf(t));
    if end.Some? {
      var x :| x in events && EndOf(t)(x) && x.ts == end.value;
      assert forall e | e in events && e.typ == TurnEnded && e.turn == t :: EndOf(t)(e);
    } else {
      assert forall e | e in events :: !EndOf(t)(e);
    }
  }

  lemma StopIs(events: seq<Entry>, t: int)
    requires exists e :: e in events && e.typ == BargedIn && e.turn == t
    ensures StopsAfter(events, t, StopTime(events, t))
  {
    EarliestIs(events, BargeOf(t));
    var some :| some in events && some.typ == BargedIn && some.turn == t;
    assert BargeOf(t)(some);
    var barge := BargeAt(events, t).value;
    var b :| b in events && BargeOf(t)(b) && b.ts == barge;
    forall x | x in events && x.typ == BargedIn && x.turn == t ensures b.ts <= x.ts {
      assert BargeOf(t)(x);
    }
    LastIs(events, t, barge);
  }

  lemma LastIs(events: seq<Entry>, t: int, barge: int)
    requires BargeAt(events, t) == Some(barge)
    ensures LastsFor(events, t, barge, StopTime(events, t))
  {
    var p := StillTalking(t, barge, SpanOf(events, t).end);
    LatestIs(events, p);
    forall r ensures Heard(events, t, barge, r) <==> r in events && p(r) {
      HeardIsCounted(events, t, barge, r);
    }
    if Latest(events, p).Some? {
      var r :| r in events && p(r) && r.ts == Latest(events, p).value;
      assert Heard(events, t, barge, r);
    }
  }

  /** The stop times reported are one for each turn with a barge-in, in turn order. */
  lemma StopsReported(index: int, events: seq<Entry>, threshold: int) returns (turns: seq<int>)
    ensures Ascending(turns)
    ensures forall t :: t in turns <==> exists e :: e in events && e.typ == BargedIn && e.turn == t
    ensures var out := Compute(index, events, threshold).timeToStopMs;
            |out| == |turns| && forall k | 0 <= k < |out| :: StopsAfter(events, turns[k], out[k])
  {
    turns := TurnsOf(events, IsBarge());
    SortedAlike(events);
    TimeToStopPermutes(SortedLog(events), events);
    TurnsOfIs(events, IsBarge());
    forall t ensures t in turns <==> exists e :: e in events && e.typ == BargedIn && e.turn == t {
      assert (exists e :: e in events && IsBarge()(e) && e.turn == t)
             <==> (exists e :: e in events && e.typ == BargedIn && e.turn == t);
    }
    forall k | 0 <= k < |turns| ensures StopsAfter(events, turns[k], StopTime(events, turns[k])) {
      assert turns[k] in turns;
      StopIs(events, turns[k]);
    }
  }

  // ---- stalls ----

  /** x is the latest time of an entry of that type in turn t, if there is one. */
  ghost predicate IsLatest(events: seq<Entry>, typ: EventType, t: int, x: Option<int>) {
    if x.None? then forall e | e in events :: !(e.typ == typ && e.turn == t)
    else
      && (exists e :: e in events && e.typ == typ && e.turn == t && e.ts == x.value)
      && forall e | e in events && e.typ == typ && e.turn == t :: e.ts <= x.value
  }

  /** The k-th gap is longer than the threshold, and neither begins before the turn started nor reaches its end. */
  predicate IsGap(ts: seq<int>, k: nat, start: Option<int>, end: Option<int>, threshold: int) {
    && k + 1 < |ts| && ts[k + 1] - ts[k] > threshold
    && (start.Some? ==> ts[k] >= start.value) && (end.Some? ==> ts[k + 1] < end.value)
  }

  ghost function Gaps(ts: seq<int>, start: Option<int>, end: Option<int>, threshold: int): set<nat> {
    set k: nat | k < |ts| && IsGap(ts, k, start, end, threshold)
  }

  /** How long those among the first n gaps are together. */
  ghost function GapMs(ts: seq<int>, gaps: set<nat>, n: nat): int
    requires n == 0 || n < |ts|
  {
    if n == 0 then 0 else GapMs(ts, gaps, n - 1) + (if n - 1 in gaps then ts[n] - ts[n - 1] else 0)
  }

  lemma GapsGrow(ts: seq<int>, span: TurnSpan, threshold: int)
    requires |ts| >= 2
    ensures var n := |ts| - 1;
            && Gaps(ts, span.start, span.end, threshold)
               == Gaps(ts[..n], span.start, span.end, threshold)
                  + (if IsStall(ts[n - 1], ts[n], span, threshold) then {n - 1} else {})
            && n - 1 !in Gaps(ts[..n], span.start, span.end, threshold)
  {
    var n := |ts| - 1;
    var last: nat := n - 1;
    forall k: nat | k < last
      ensures IsGap(ts, k, span.start, span.end, threshold) <==> IsGap(ts[..n], k, span.start, span.end, threshold)
    {}
    assert IsGap(ts, last, span.start, span.end, threshold) <==> IsStall(ts[n - 1], ts[n], span, threshold);
    assert !IsGap(ts, n, span.start, span.end, threshold) && !IsGap(ts[..n], last, span.start, span.end, threshold);
  }

  lemma {:induction false} CountIsGaps(ts: seq<int>, span: TurnSpan, threshold: int)
    ensures StallCount(ts, span, threshold) == |Gaps(ts, span.start, span.end, threshold)|
  {
    if |ts| >= 2 {
      CountIsGaps(ts[..|ts| - 1], span, threshold);
      GapsGrow(ts, span, threshold);
    } else {
      assert Gaps(ts, span.start, span.end, threshold) == {};
    }
  }

  lemma {:induction false} GapMsFrame(ts: seq<int>, gaps: set<nat>, us: seq<int>, more: set<nat>, n: nat)
    requires n < |us| <= |ts| && us == ts[..|us|] && forall k: nat | k < n :: k in gaps <==> k in more
    ensures GapMs(us, gaps, n) == GapMs(ts, more, n)
  {
    if n > 0 {
      GapMsFrame(ts, gaps, us, more, n - 1);
    }
  }

  lemma {:induction false} MsIsGaps(ts: seq<int>, span: TurnSpan, threshold: int)
    ensures StallMs(ts, span, threshold)
            == GapMs(ts, Gaps(ts, span.start, span.end, threshold), if ts == [] then 0 else |ts| - 1)
  {
    if |ts| >= 2 {
      var n := |ts| - 1;
      var before := ts[..n];
      MsIsGaps(before, span, threshold);
      GapsGrow(ts, span, threshold);
      GapMsFrame(ts, Gaps(before, span.start, span.end, threshold), before,
                 Gaps(ts, span.start, span.end, threshold), n - 1);
    }
  }

  /** One turn's stalls: when its audio came, in order; when it was last seen to start and to end; and its gaps. */
  datatype TurnReport = TurnReport(turn: int, times: seq<int>, start: Option<int>, end: Option<int>) {
    ghost function Stalled(threshold: int): set<nat> { Gaps(times, start, end, threshold) }

    ghost function StalledMs(threshold: int): int {
      GapMs(times, Stalled(threshold), if times == [] then 0 else |times| - 1)
    }
  }

  ghost predicate Reports(events: seq<Entry>, r: TurnReport) {
    && Rising(r.times)
    && (forall x :: multiset(r.times)[x] == Count(events, (e: Entry) => IsAudio(e) && e.turn == r.turn && e.ts == x))
    && IsLatest(events, TurnStarted, r.turn, r.start) && IsLatest(events, TurnEnded, r.turn, r.end)
  }

  lemma {:induction false} TimesCounted(events: seq<Entry>, t: int, x: int, p: Entry -> bool)
    requires forall e :: p(e) <==> IsAudio(e) && e.turn == t && e.ts == x
    ensures multiset(Times(events, AgentOf(t)))[x] == Count(events, p)
  {
    if events != [] {
      TimesCounted(events[..|events| - 1], t, x, p);
      SumLast(events, Tally(p));
    }
  }

  function ReportOf(events: seq<Entry>, t: int): TurnReport {
    TurnReport(t, HeardAt(events, t), SpanOf(events, t).start, SpanOf(events, t).end)
  }

  lemma ReportIs(events: seq<Entry>, t: int, threshold: int)
    ensures var r := ReportOf(events, t);
            Reports(events, r) && TurnStalls(events, t, threshold) == (|r.Stalled(threshold)|, r.StalledMs(threshold))
  {
    SortedTimes(events, t);
    StableSortSorts(Times(events, AgentOf(t)), IntLess());
    forall x
      ensures multiset(HeardAt(events, t))[x] == Count(events, (e: Entry) => IsAudio(e) && e.turn == t && e.ts == x)
    {
      TimesCounted(events, t, x, (e: Entry) => IsAudio(e) && e.turn == t && e.ts == x);
    }
    LatestIsLatest(events, TurnStarted, t, StartOf(t));
    LatestIsLatest(events, TurnEnded, t, EndOf(t));
    CountIsGaps(HeardAt(events, t), SpanOf(events, t), threshold);
    MsIsGaps(HeardAt(events, t), SpanOf(events, t), threshold);
  }

  lemma LatestIsLatest(events: seq<Entry>, typ: EventType, t: int, p: Entry -> bool)
    requires forall e :: p(e) <==> e.typ == typ && e.turn == t
    ensures IsLatest(events, typ, t, Latest(events, p))
  {
    LatestIs(events, p);
    if Latest(events, p).Some? {
      var e :| e in events && p(e) && e.ts == Latest(events, p).value;
      assert e.typ == typ && e.turn == t;
    }
  }

  lemma {:induction false} TotalsAdd<T>(turns: seq<int>, f: int -> (nat, int), rs: seq<T>, g: T -> int, h: T -> int)
    requires |rs| == |turns| && forall k | 0 <= k < |turns| :: f(turns[k]).0 == g(rs[k]) && f(turns[k]).1 == h(rs[k])
    ensures Metrics.Total(turns, f).0 == SumOf(rs, g) && Metrics.Total(turns, f).1 == SumOf(rs, h)
  {
    if turns != [] {
      var n := |turns| - 1;
      TotalsAdd(turns[..n], f, rs[..n], g, h);
      SumLast(rs, g);
      SumLast(rs, h);
    }
  }

  /** The stalls reported are, added over the turns with agent audio, the gaps of each and their lengths. */
  lemma StallsReported(index: int, events: seq<Entry>, threshold: int) returns (rs: seq<TurnReport>)
    ensures forall i, j | 0 <= i < j < |rs| :: rs[i].turn < rs[j].turn
    ensures forall r | r in rs :: Reports(events, r) && r.times != []
    ensures forall e | e in events && IsAudio(e) :: exists r :: r in rs && r.turn == e.turn
    ensures var out := Compute(index, events, threshold);
            && out.stallCount == SumOf(rs, (r: TurnReport) => |r.Stalled(threshold)|)
            && out.stallMs == SumOf(rs, (r: TurnReport) => r.StalledMs(threshold))
  {
    var turns := TurnsOf(events, IsAgentEntry());
    rs := seq(|turns|, k requires 0 <= k < |turns| => ReportOf(events, turns[k]));
    var count, ms := (r: TurnReport) => |r.Stalled(threshold)|, (r: TurnReport) => r.StalledMs(threshold);
    TurnsOfIs(events, IsAgentEntry());
    forall k | 0 <= k < |turns|
      ensures Reports(events, rs[k]) && rs[k].times != []
      ensures StallsFor(events, threshold)(turns[k]).0 == count(rs[k])
      ensures StallsFor(events, threshold)(turns[k]).1 == ms(rs[k])
    {
      ReportIs(events, turns[k], threshold);
      assert turns[k] in turns;
      TimesAreThere(events, turns[k]);
    }
    TotalsAdd(turns, StallsFor(events, threshold), rs, count, ms);
    StallsAre(index, events, threshold);
    TurnsAreThere(events, turns, rs);
  }

  lemma TurnsAreThere(events: seq<Entry>, turns: seq<int>, rs: seq<TurnReport>)
    requires forall t :: t in turns <==> exists e :: e in events && IsAgentEntry()(e) && e.turn == t
    requires |rs| == |turns| && forall k | 0 <= k < |turns| :: rs[k].turn == turns[k]
    ensures forall e | e in events && IsAudio(e) :: exists r :: r in rs && r.turn == e.turn
  {
    forall e | e in events && IsAudio(e) ensures exists r :: r in rs && r.turn == e.turn {
      assert IsAgentEntry()(e) && e.turn in turns;
      var k :| 0 <= k < |turns| && turns[k] == e.turn;
      assert rs[k] in rs;
    }
  }

  lemma StallsAre(index: int, events: seq<Entry>, threshold: int)
    ensures var (count, ms) := Metrics.Total(TurnsOf(events, IsAgentEntry()), StallsFor(events, threshold));
            var out := Compute(index, events, threshold);
            out.stallCount == count && out.stallMs == ms
  {
    SortedAlike(events);
    StallsPermute(SortedLog(events), events, threshold);
  }

  lemma TimesAreThere(events: seq<Entry>, t: int)
    requires exists e :: e in events && IsAgentEntry()(e) && e.turn == t
    ensures HeardAt(events, t) != []
  {
    var e :| e in events && IsAgentEntry()(e) && e.turn == t;
    StableSortSorts(Times(events, AgentOf(t)), IntLess());
    TimesCounted(events, t, e.ts, (x: Entry) => IsAudio(x) && x.turn == t && x.ts == e.ts);
    SumBounds(events, Tally((x: Entry) => IsAudio(x) && x.turn == t && x.ts == e.ts));
    assert Tally((x: Entry) => IsAudio(x) && x.turn == t && x.ts == e.ts)(e) == 1;
  }

  // ---- reordering ----

  /** The positions that come after a greater number. */
  ghost function Behind(keys: seq<(int, int)>): set<int> {
    set k | 0 <= k < |keys| && exists j :: 0 <= j < k && keys[j].1 > keys[k].1
  }

  lemma {:induction false} KeysCounted(events: seq<Entry>, x: (int, int), p: Entry -> bool)
    requires forall e :: p(e) <==> IsAudio(e) && (e.ts, e.frame.seqNo) == x
    ensures multiset(Map(Filter(events, IsAgentEntry()), Key()))[x] == Count(events, p)
  {
    if events != [] {
      var n := |events| - 1;
      KeysCounted(events[..n], x, p);
      SumLast(events, Tally(p));
      var before := Filter(events[..n], IsAgentEntry());
      if IsAgent(events[n]) {
        assert Filter(events, IsAgentEntry()) == before + [events[n]];
        assert Map(before + [events[n]], Key()) == Map(before, Key()) + [Key()(events[n])];
      } else {
        assert Filter(events, IsAgentEntry()) == before;
      }
    }
  }

  lemma KeysOf(events: seq<Entry>, x: (int, int))
    ensures multiset(Map(Filter(SortedLog(events), IsAgentEntry()), Key()))[x]
            == Count(events, (e: Entry) => IsAudio(e) && (e.ts, e.frame.seqNo) == x)
  {
    var p := (e: Entry) => IsAudio(e) && (e.ts, e.frame.seqNo) == x;
    KeysCounted(SortedLog(events), x, p);
    CountSorted(events, p);
  }

  lemma KeysInOrder(events: seq<Entry>)
    ensures Sorted(Map(Filter(SortedLog(events), IsAgentEntry()), Key()), KeyLess())
  {
    LogOrder();
    StableSortSorts(events, LogLess());
    AgentsOnly(SortedLog(events));
    Metrics.KeysSorted(Filter(SortedLog(events), IsAgentEntry()));
  }

  lemma LateIsBehind(keys: seq<(int, int)>)
    ensures Late(Map(keys, Second())) == Behind(keys)
  {
    forall k | 0 <= k < |keys| ensures k in Late(Map(keys, Second())) <==> k in Behind(keys) {
      assert forall j | 0 <= j < |keys| :: Map(keys, Second())[j] == keys[j].1;
    }
  }

  /** The reorderings reported are the agent frames that came after one with a greater number, by time and, within a
      millisecond, by number. */
  lemma ReorderReported(index: int, events: seq<Entry>, threshold: int) returns (keys: seq<(int, int)>)
    ensures forall x: (int, int) ::
              multiset(keys)[x] == Count(events, (e: Entry) => IsAudio(e) && (e.ts, e.frame.seqNo) == x)
    ensures forall i, j | 0 <= i < j < |keys| ::
              keys[i].0 < keys[j].0 || (keys[i].0 == keys[j].0 && keys[i].1 <= keys[j].1)
    ensures Compute(index, events, threshold).reorderedFrames == |Behind(keys)|
  {
    keys := Map(Filter(SortedLog(events), IsAgentEntry()), Key());
    forall x: (int, int)
      ensures multiset(keys)[x] == Count(events, (e: Entry) => IsAudio(e) && (e.ts, e.frame.seqNo) == x)
    {
      KeysOf(events, x);
    }
    KeysInOrder(events);
    forall i, j | 0 <= i < j < |keys|
      ensures keys[i].0 < keys[j].0 || (keys[i].0 == keys[j].0 && keys[i].1 <= keys[j].1)
    {
      assert !KeyLess()(keys[j], keys[i]);
    }
    LateKeys(events);
    LateIsBehind(keys);
  }

  lemma LateKeys(events: seq<Entry>)
    ensures Reordered(SortedLog(events))
            == |Late(Map(Map(Filter(SortedLog(events), IsAgentEntry()), Key()), Second()))|
  {
    SeqsAreKeys(SortedLog(events));
    OvertakenCounts(AgentSeqs(SortedLog(events)));
  }
}
