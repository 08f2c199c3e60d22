/** Session metrics (internal/metrics/metrics.go), as functions of a session's log that do not mention its order. */
module Metrics {
  import opened Audio
  import opened Basics
  import opened Sums
  import opened Sorting
  import opened EventLog

  // ---- the latest and earliest entry of a kind ----

  function Later(a: Option<int>, b: int): Option<int> {
    if a.Some? && a.value >= b then a else Some(b)
  }

  function Earlier(a: Option<int>, b: int): Option<int> {
    if a.Some? && a.value <= b then a else Some(b)
  }

  /** When the last of the entries satisfying p was logged. */
  function Latest(s: seq<Entry>, p: Entry -> bool): Option<int> {
    if s == [] then None
    else
      var r := Latest(s[..|s| - 1], p);
      if p(s[|s| - 1]) then Later(r, s[|s| - 1].ts) else r
  }

  function Earliest(s: seq<Entry>, p: Entry -> bool): Option<int> {
    if s == [] then None
    else
      var r := Earliest(s[..|s| - 1], p);
      if p(s[|s| - 1]) then Earlier(r, s[|s| - 1].ts) else r
  }

  lemma {:induction false} LatestIs(s: seq<Entry>, p: Entry -> bool)
    ensures match Latest(s, p)
            case None => forall e | e in s :: !p(e)
            case Some(x) => (exists e :: e in s && p(e) && e.ts == x) && forall e | e in s && p(e) :: e.ts <= x
  {
    if s != [] {
      var n := |s| - 1;
      LatestIs(s[..n], p);
      assert s == s[..n] + [s[n]];
    }
  }

  lemma {:induction false} EarliestIs(s: seq<Entry>, p: Entry -> bool)
    ensures match Earliest(s, p)
            case None => forall e | e in s :: !p(e)
            case Some(x) => (exists e :: e in s && p(e) && e.ts == x) && forall e | e in s && p(e) :: x <= e.ts
  {
    if s != [] {
      var n := |s| - 1;
      EarliestIs(s[..n], p);
      assert s == s[..n] + [s[n]];
    }
  }

  lemma ExtremesPermute(a: seq<Entry>, b: seq<Entry>, p: Entry -> bool)
    requires multiset(a) == multiset(b)
    ensures Latest(a, p) == Latest(b, p) && Earliest(a, p) == Earliest(b, p)
  {
    assert forall e :: e in a <==> e in multiset(b);
    LatestIs(a, p);
    LatestIs(b, p);
    EarliestIs(a, p);
    EarliestIs(b, p);
  }

  // ---- turn spans ----

  /** A turn as the caller saw it: when it started and ended, if it was seen to. */
  datatype TurnSpan = TurnSpan(start: Option<int>, end: Option<int>)

  function StartOf(t: int): Entry -> bool { (e: Entry) => e.typ.TurnStarted? && e.turn == t }
  function EndOf(t: int): Entry -> bool { (e: Entry) => e.typ.TurnEnded? && e.turn == t }

  function SpanOf(events: seq<Entry>, t: int): TurnSpan {
    TurnSpan(Latest(events, StartOf(t)), Latest(events, EndOf(t)))
  }

  // ---- time to stop ----

  predicate IsAgent(e: Entry) { e.typ.Recv? && e.frame.kind.AgentAudio? }
  function BargeOf(t: int): Entry -> bool { (e: Entry) => e.typ.BargedIn? && e.turn == t }

  /** An agent frame of turn t received at or after the barge-in and before the turn's end. */
  function StillTalking(t: int, barge: int, end: Option<int>): Entry -> bool {
    (e: Entry) => IsAgent(e) && e.turn == t && e.ts >= barge && (end.Some? ==> e.ts < end.value)
  }

  function BargeAt(events: seq<Entry>, t: int): Option<int> { Earliest(events, BargeOf(t)) }

  function StopTime(events: seq<Entry>, t: int): int {
    match BargeAt(events, t)
    case None => 0
    case Some(barge) =>
      match Latest(events, StillTalking(t, barge, SpanOf(events, t).end))
      case None => 0
      case Some(last) => last - barge
  }

  /** The turns of the entries satisfying p, ascending, each once. */
  function AddTurn(ts: seq<int>, t: int): seq<int> {
    if ts == [] || ts[|ts| - 1] < t then ts + [t]
    else if ts[|ts| - 1] == t then ts
    else AddTurn(ts[..|ts| - 1], t) + [ts[|ts| - 1]]
  }

  function TurnsOf(s: seq<Entry>, p: Entry -> bool): seq<int> {
    if s == [] then []
    else
      var r := TurnsOf(s[..|s| - 1], p);
      if p(s[|s| - 1]) then AddTurn(r, s[|s| - 1].turn) else r
  }

  ghost predicate Ascending(ts: seq<int>) {
    forall i, j | 0 <= i < j < |ts| :: ts[i] < ts[j]
  }

  lemma AscendingAppend(r: seq<int>, x: int)
    requires Ascending(r) && forall y | y in r :: y < x
    ensures Ascending(r + [x])
  {
    var s := r + [x];
    forall i, j | 0 <= i < j < |s| ensures s[i] < s[j] {
      assert s[i] == r[i] && r[i] in r;
    }
  }

  lemma {:induction false} AddTurnIs(ts: seq<int>, t: int)
    requires Ascending(ts)
    ensures Ascending(AddTurn(ts, t)) && forall x :: x in AddTurn(ts, t) <==> x in ts || x == t
  {
    if ts != [] && t < ts[|ts| - 1] {
      var n := |ts| - 1;
      AddTurnIs(ts[..n], t);
      assert ts == ts[..n] + [ts[n]];
      var r := AddTurn(ts[..n], t);
      forall x ensures x in AddTurn(ts, t) <==> x in ts || x == t {
        assert x in AddTurn(ts, t) <==> x in r || x == ts[n];
      }
      forall x | x in r ensures x < ts[n] {
        assert x in ts[..n] || x == t;
      }
      AscendingAppend(r, ts[n]);
    } else if ts != [] && ts[|ts| - 1] < t {
      forall x | x in ts ensures x < t {}
    }
  }

  lemma {:induction false} TurnsOfIs(s: seq<Entry>, p: Entry -> bool)
    ensures Ascending(TurnsOf(s, p)) && forall t :: t in TurnsOf(s, p) <==> exists e :: e in s && p(e) && e.turn == t
  {
    if s != [] {
      var n := |s| - 1;
      TurnsOfIs(s[..n], p);
      assert s == s[..n] + [s[n]];
      if p(s[n]) {
        AddTurnIs(TurnsOf(s[..n], p), s[n].turn);
      }
    }
  }

  lemma EmptyOrNot(s: seq<int>)
    ensures |s| == 0 || exists x :: x in s
  {
    if |s| > 0 {
      var x := s[0];
      assert x in s;
    }
  }

  lemma {:induction false} AscendingUnique(a: seq<int>, b: seq<int>)
    requires Ascending(a) && Ascending(b) && forall x :: x in a <==> x in b
    ensures a == b
    decreases |a|
  {
    if a == [] {
      EmptyOrNot(b);
    } else {
      assert a[0] in b && b[0] in a;
      var n, m := |a| - 1, |b| - 1;
      assert a[n] in b && b[m] in a;
      assert a[n] == b[m];
      forall x ensures x in a[..n] <==> x in b[..m] {
        assert x in a[..n] <==> x in a && x != a[n];
        assert x in b[..m] <==> x in b && x != b[m];
      }
      AscendingUnique(a[..n], b[..m]);
      assert a == a[..n] + [a[n]] && b == b[..m] + [b[m]];
    }
  }

  lemma TurnsPermute(a: seq<Entry>, b: seq<Entry>, p: Entry -> bool)
    requires multiset(a) == multiset(b)
    ensures TurnsOf(a, p) == TurnsOf(b, p)
  {
    assert forall e :: e in a <==> e in multiset(b);
    TurnsOfIs(a, p);
    TurnsOfIs(b, p);
    AscendingUnique(TurnsOf(a, p), TurnsOf(b, p));
  }

  function IsBarge(): Entry -> bool { (e: Entry) => e.typ.BargedIn? }

  function StopTimes(events: seq<Entry>, turns: seq<int>): seq<int> {
    seq(|turns|, k requires 0 <= k < |turns| => StopTime(events, turns[k]))
  }

  /** One value for every turn with a barge-in, in turn order. */
  function TimeToStop(events: seq<Entry>): seq<int> {
    StopTimes(events, TurnsOf(events, IsBarge()))
  }

  lemma StopTimePermutes(a: seq<Entry>, b: seq<Entry>, t: int)
    requires multiset(a) == multiset(b)
    ensures StopTime(a, t) == StopTime(b, t)
  {
    ExtremesPermute(a, b, BargeOf(t));
    ExtremesPermute(a, b, EndOf(t));
    if BargeAt(a, t).Some? {
      ExtremesPermute(a, b, StillTalking(t, BargeAt(a, t).value, SpanOf(a, t).end));
    }
  }

  lemma TimeToStopPermutes(a: seq<Entry>, b: seq<Entry>)
    requires multiset(a) == multiset(b)
    ensures TimeToStop(a) == TimeToStop(b)
  {
    TurnsPermute(a, b, IsBarge());
    forall k | 0 <= k < |TimeToStop(a)| ensures TimeToStop(a)[k] == TimeToStop(b)[k] {
      StopTimePermutes(a, b, TurnsOf(a, IsBarge())[k]);
    }
  }

  // ---- double talk ----

  /** The caller's speech, anchored at its send time. */
  function SpeechOf(e: Entry): seq<Frame> {
    if e.typ.Send? && e.frame.kind.Speech? then [Frame(0, e.ts, e.frame.durMs, Silence, 0)] else []
  }

  /** The agent's audio, anchored at its receive time. */
  function AudioOf(e: Entry): seq<Frame> {
    if IsAgent(e) then [Frame(0, e.ts, e.frame.durMs, Silence, 0)] else []
  }

  function Frames(s: seq<Entry>, f: Entry -> seq<Frame>): seq<Frame> {
    if s == [] then [] else Frames(s[..|s| - 1], f) + f(s[|s| - 1])
  }

  function OverlapWith(c: Frame): Frame -> int { (a: Frame) => OverlapMs(c, a) }

  function OverlapAll(agent: seq<Frame>): Frame -> int { (c: Frame) => SumOf(agent, OverlapWith(c)) }

  function Overlaps(caller: seq<Frame>, agent: seq<Frame>): int { SumOf(caller, OverlapAll(agent)) }

  function DoubleTalk(events: seq<Entry>): int {
    Overlaps(Frames(events, SpeechOf), Frames(events, AudioOf))
  }

  function FrameBag(f: Entry -> seq<Frame>): Entry -> multiset<Frame> { (e: Entry) => multiset(f(e)) }

  lemma {:induction false} FramesBag(s: seq<Entry>, f: Entry -> seq<Frame>)
    ensures multiset(Frames(s, f)) == BagOf(s, FrameBag(f))
  {
    if s != [] {
      var n := |s| - 1;
      FramesBag(s[..n], f);
      BagLast(s, FrameBag(f));
    }
  }

  lemma {:induction false} SumsAgree<T>(s: seq<T>, f: T -> int, g: T -> int)
    requires forall x | x in s :: f(x) == g(x)
    ensures SumOf(s, f) == SumOf(s, g)
  {
    if s != [] {
      assert s[0] in s;
      SumsAgree(s[1..], f, g);
    }
  }

  lemma DoubleTalkPermutes(a: seq<Entry>, b: seq<Entry>)
    requires multiset(a) == multiset(b)
    ensures DoubleTalk(a) == DoubleTalk(b)
  {
    FramesBag(a, SpeechOf);
    FramesBag(b, SpeechOf);
    FramesBag(a, AudioOf);
    FramesBag(b, AudioOf);
    BagPermutation(a, b, FrameBag(SpeechOf));
    BagPermutation(a, b, FrameBag(AudioOf));
    var agentA, agentB := Frames(a, AudioOf), Frames(b, AudioOf);
    SumPermutation(Frames(a, SpeechOf), Frames(b, SpeechOf), OverlapAll(agentA));
    forall c | c in Frames(b, SpeechOf) ensures OverlapAll(agentA)(c) == OverlapAll(agentB)(c) {
      SumPermutation(agentA, agentB, OverlapWith(c));
    }
    SumsAgree(Frames(b, SpeechOf), OverlapAll(agentA), OverlapAll(agentB));
  }

  // ---- stalls ----

  function IntLess(): (int, int) -> bool { (a: int, b: int) => a < b }

  function AgentOf(t: int): Entry -> seq<int> {
    (e: Entry) => if IsAgent(e) && e.turn == t then [e.ts] else []
  }

  function Times(s: seq<Entry>, f: Entry -> seq<int>): seq<int> {
    if s == [] then [] else Times(s[..|s| - 1], f) + f(s[|s| - 1])
  }

  /** Receive times of turn t's agent frames, ascending. */
  function HeardAt(events: seq<Entry>, t: int): seq<int> {
    StableSort(Times(events, AgentOf(t)), IntLess())
  }

  /** Whether the gap from a to b counts as a stall. */
  predicate IsStall(a: int, b: int, span: TurnSpan, threshold: int) {
    && b - a > threshold
    && !(span.start.Some? && a < span.start.value)
    && !(span.end.Some? && b >= span.end.value)
  }

  /** How many of the gaps are stalls, and how long they are together. */
  function StallCount(ts: seq<int>, span: TurnSpan, threshold: int): nat {
    if |ts| < 2 then 0
    else
      var n := |ts| - 1;
      StallCount(ts[..n], span, threshold) + (if IsStall(ts[n - 1], ts[n], span, threshold) then 1 else 0)
  }

  function StallMs(ts: seq<int>, span: TurnSpan, threshold: int): int {
    if |ts| < 2 then 0
    else
      var n := |ts| - 1;
      StallMs(ts[..n], span, threshold) + (if IsStall(ts[n - 1], ts[n], span, threshold) then ts[n] - ts[n - 1] else 0)
  }

  function IsAgentEntry(): Entry -> bool { (e: Entry) => IsAgent(e) }

  /** Both for one turn. */
  function TurnStalls(events: seq<Entry>, t: int, threshold: int): (nat, int) {
    var ts, span := HeardAt(events, t), SpanOf(events, t);
    (StallCount(ts, span, threshold), StallMs(ts, span, threshold))
  }

  function StallsFor(events: seq<Entry>, threshold: int): int -> (nat, int) {
    (t: int) => TurnStalls(events, t, threshold)
  }

  /** Both totals over the given turns. */
  function Total(turns: seq<int>, f: int -> (nat, int)): (nat, int) {
    if turns == [] then (0, 0)
    else
      var n := |turns| - 1;
      var (c, ms) := Total(turns[..n], f);
      var (c1, ms1) := f(turns[n]);
      (c + c1, ms + ms1)
  }

  function Stalls(events: seq<Entry>, threshold: int): (nat, int) {
    Total(TurnsOf(events, IsAgentEntry()), StallsFor(events, threshold))
  }

  function TimeBag(f: Entry -> seq<int>): Entry -> multiset<int> { (e: Entry) => multiset(f(e)) }

  lemma {:induction false} TimesBag(s: seq<Entry>, f: Entry -> seq<int>)
    ensures multiset(Times(s, f)) == BagOf(s, TimeBag(f))
  {
    if s != [] {
      var n := |s| - 1;
      TimesBag(s[..n], f);
      BagLast(s, TimeBag(f));
    }
  }

  lemma HeardPermutes(a: seq<Entry>, b: seq<Entry>, t: int)
    requires multiset(a) == multiset(b)
    ensures HeardAt(a, t) == HeardAt(b, t)
  {
    TimesBag(a, AgentOf(t));
    TimesBag(b, AgentOf(t));
    BagPermutation(a, b, TimeBag(AgentOf(t)));
    TotalSortsAlike(Times(a, AgentOf(t)), Times(b, AgentOf(t)), IntLess());
  }

  lemma TurnStallsPermute(a: seq<Entry>, b: seq<Entry>, t: int, threshold: int)
    requires multiset(a) == multiset(b)
    ensures TurnStalls(a, t, threshold) == TurnStalls(b, t, threshold)
  {
    HeardPermutes(a, b, t);
    ExtremesPermute(a, b, StartOf(t));
    ExtremesPermute(a, b, EndOf(t));
  }

  lemma {:induction false} TotalsAgree(turns: seq<int>, f: int -> (nat, int), g: int -> (nat, int))
    requires forall t | t in turns :: f(t) == g(t)
    ensures Total(turns, f) == Total(turns, g)
  {
    if turns != [] {
      var n := |turns| - 1;
      TotalsAgree(turns[..n], f, g);
      var t := turns[n];
      assert t in turns;
    }
  }

  lemma StallsPermute(a: seq<Entry>, b: seq<Entry>, threshold: int)
    requires multiset(a) == multiset(b)
    ensures Stalls(a, threshold) == Stalls(b, threshold)
  {
    TurnsPermute(a, b, IsAgentEntry());
    var turns := TurnsOf(a, IsAgentEntry());
    forall t | t in turns ensures StallsFor(a, threshold)(t) == StallsFor(b, threshold)(t) {
      TurnStallsPermute(a, b, t, threshold);
    }
    TotalsAgree(turns, StallsFor(a, threshold), StallsFor(b, threshold));
  }

  // ---- drops and reordering ----

  function IsDrop(): Entry -> int { (e: Entry) => if e.typ.Drop? then 1 else 0 }

  function Dropped(events: seq<Entry>): int { SumOf(events, IsDrop()) }

  function SeqOf(): Entry -> seq<int> { (e: Entry) => if IsAgent(e) then [e.frame.seqNo] else [] }

  /** Sequence numbers of the agent frames, as they stand in the log. */
  function AgentSeqs(events: seq<Entry>): seq<int> { Times(events, SeqOf()) }

  function RunningMax(ns: seq<int>): Option<int> {
    if ns == [] then None
    else
      var m := RunningMax(ns[..|ns| - 1]);
      if m.Some? && ns[|ns| - 1] < m.value then m else Some(ns[|ns| - 1])
  }

  /** Numbers that come after a greater one. */
  function Overtaken(ns: seq<int>): nat {
    if ns == [] then 0
    else
      var m := RunningMax(ns[..|ns| - 1]);
      Overtaken(ns[..|ns| - 1]) + (if m.Some? && ns[|ns| - 1] < m.value then 1 else 0)
  }

  function Reordered(events: seq<Entry>): nat { Overtaken(AgentSeqs(events)) }

  // ---- all of them ----

  datatype SessionMetrics = SessionMetrics(
    sessionIndex: int,
    timeToStopMs: seq<int>,
    doubleTalkMs: int,
    stallCount: nat,
    stallMs: int,
    droppedFrames: int,
    reorderedFrames: nat)

  /** The metrics of a log in canonical order. */
  function Measure(index: int, events: seq<Entry>, threshold: int): SessionMetrics {
    var (c, ms) := Stalls(events, threshold);
    SessionMetrics(index, TimeToStop(events), DoubleTalk(events), c, ms, Dropped(events), Reordered(events))
  }

  /** ComputeSession: sort, then measure. */
  function Compute(index: int, events: seq<Entry>, threshold: int): SessionMetrics {
    Measure(index, SortedLog(events), threshold)
  }

  // ---- the order of appending does not matter ----

  function Map<T, U>(s: seq<T>, f: T -> U): seq<U> { seq(|s|, k requires 0 <= k < |s| => f(s[k])) }

  function OneOf<T, U>(f: T -> U): T -> multiset<U> { (x: T) => multiset{f(x)} }

  lemma {:induction false} MapBag<T, U>(s: seq<T>, f: T -> U)
    ensures multiset(Map(s, f)) == BagOf(s, OneOf(f))
  {
    if s == [] {
      assert Map(s, f) == [];
    } else {
      MapBag(s[1..], f);
      assert Map(s, f) == [f(s[0])] + Map(s[1..], f);
    }
  }

  /** Receive time and sequence number: what orders agent frames. */
  function Key(): Entry -> (int, int) { (e: Entry) => (e.ts, e.frame.seqNo) }

  function KeyLess(): ((int, int), (int, int)) -> bool {
    (a: (int, int), b: (int, int)) => a.0 < b.0 || (a.0 == b.0 && a.1 < b.1)
  }

  lemma KeyOrder()
    ensures StrictWeak(KeyLess()) && forall x, y :: Tied(KeyLess(), x, y) ==> x == y
  {
    forall x: (int, int), y: (int, int) | Tied(KeyLess(), x, y) ensures x == y {
      assert x == (x.0, x.1) && y == (y.0, y.1);
    }
  }

  lemma SortedIsSort<T(!new)>(s: seq<T>, less: (T, T) -> bool)
    requires StrictWeak(less) && Sorted(s, less)
    ensures StableSort(s, less) == s
  {
    StableSortUnique(s, s, less);
  }

  /** The keys of the agent frames of a log in canonical order are in key order. */
  lemma KeysSorted(s: seq<Entry>)
    requires Sorted(s, LogLess()) && forall e | e in s :: IsAgent(e)
    ensures Sorted(Map(s, Key()), KeyLess())
  {
    forall i, j | 0 <= i < j < |s| ensures !KeyLess()(Map(s, Key())[j], Map(s, Key())[i]) {
      assert !LogLess()(s[j], s[i]);
      assert s[i] in s && s[j] in s;
    }
  }

  function Second(): ((int, int)) -> int { (k: (int, int)) => k.1 }

  lemma {:induction false} SeqsAreKeys(s: seq<Entry>)
    ensures AgentSeqs(s) == Map(Map(Filter(s, IsAgentEntry()), Key()), Second())
  {
    if s != [] {
      var n := |s| - 1;
      SeqsAreKeys(s[..n]);
      var f := Filter(s[..n], IsAgentEntry());
      if IsAgent(s[n]) {
        assert Map(Map(f + [s[n]], Key()), Second()) == Map(Map(f, Key()), Second()) + [s[n].frame.seqNo];
      }
    }
  }

  lemma AgentsOnly(s: seq<Entry>)
    requires Sorted(s, LogLess())
    ensures var f := Filter(s, IsAgentEntry()); Sorted(f, LogLess()) && forall e | e in f :: IsAgent(e)
  {
    FilterSorted(s, IsAgentEntry(), LogLess());
    forall e | e in Filter(s, IsAgentEntry()) ensures IsAgent(e) {
      FilterMember(s, IsAgentEntry(), e);
    }
  }

  lemma SortedKeysAgree(a: seq<Entry>, b: seq<Entry>)
    requires multiset(a) == multiset(b) && Sorted(a, LogLess()) && Sorted(b, LogLess())
    requires (forall e | e in a :: IsAgent(e)) && (forall e | e in b :: IsAgent(e))
    ensures Map(a, Key()) == Map(b, Key())
  {
    KeysSorted(a);
    KeysSorted(b);
    MapBag(a, Key());
    MapBag(b, Key());
    BagPermutation(a, b, OneOf(Key()));
    KeyOrder();
    SortedPermutationsAgree(Map(a, Key()), Map(b, Key()), KeyLess());
  }

  lemma SortedPermutationsAgree<T(!new)>(a: seq<T>, b: seq<T>, less: (T, T) -> bool)
    requires StrictWeak(less) && (forall x, y :: Tied(less, x, y) ==> x == y)
    requires multiset(a) == multiset(b) && Sorted(a, less) && Sorted(b, less)
    ensures a == b
  {
    TotalSortsAlike(a, b, less);
    SortedIsSort(a, less);
    SortedIsSort(b, less);
  }

  /** The frames of two canonically ordered permutations may differ at ties, but their keys do not. */
  lemma KeysAgree(a: seq<Entry>, b: seq<Entry>)
    requires multiset(a) == multiset(b)
    requires Sorted(a, LogLess()) && Sorted(b, LogLess())
    ensures Map(Filter(a, IsAgentEntry()), Key()) == Map(Filter(b, IsAgentEntry()), Key())
  {
    AgentsOnly(a);
    AgentsOnly(b);
    FilterPermutes(a, b, IsAgentEntry());
    SortedKeysAgree(Filter(a, IsAgentEntry()), Filter(b, IsAgentEntry()));
  }

  function Kept<T>(p: T -> bool): T -> multiset<T> { (x: T) => if p(x) then multiset{x} else multiset{} }

  lemma {:induction false} FilterBag<T>(s: seq<T>, p: T -> bool)
    ensures multiset(Filter(s, p)) == BagOf(s, Kept(p))
  {
    if s != [] {
      var n := |s| - 1;
      FilterBag(s[..n], p);
      BagLast(s, Kept(p));
    }
  }

  lemma FilterPermutes<T>(a: seq<T>, b: seq<T>, p: T -> bool)
    requires multiset(a) == multiset(b)
    ensures multiset(Filter(a, p)) == multiset(Filter(b, p))
  {
    FilterBag(a, p);
    FilterBag(b, p);
    BagPermutation(a, b, Kept(p));
  }

  /** Equal multisets of events measure alike, in whatever order they were appended. */
  lemma OrderIndependent(index: int, a: seq<Entry>, b: seq<Entry>, threshold: int)
    requires multiset(a) == multiset(b)
    ensures Compute(index, a, threshold) == Compute(index, b, threshold)
  {
    LogOrder();
    var sa, sb := SortedLog(a), SortedLog(b);
    StableSortSorts(a, LogLess());
    StableSortSorts(b, LogLess());
    TimeToStopPermutes(sa, sb);
    DoubleTalkPermutes(sa, sb);
    StallsPermute(sa, sb, threshold);
    SumPermutation(sa, sb, IsDrop());
    SeqsAreKeys(sa);
    SeqsAreKeys(sb);
    KeysAgree(sa, sb);
  }
}
