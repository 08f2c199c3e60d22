/** What the metrics measure. */
module MetricsMeaning {
  import opened Audio
  import opened Basics
  import opened Sums
  import opened Sorting
  import opened EventLog
  import opened Metrics

  // ---- double talk ----

  /** The milliseconds covered by any of the frames. */
  ghost function Covered(frames: seq<Frame>): set<int> {
    if frames == [] then {} else frames[0].Millis() + Covered(frames[1..])
  }

  predicate Covers(f: Frame, t: int) { f.ts <= t < f.End() }

  /** How many of the frames cover millisecond t. */
  function Cover(frames: seq<Frame>, t: int): nat {
    if frames == [] then 0 else (if Covers(frames[0], t) then 1 else 0) + Cover(frames[1..], t)
  }

  ghost predicate Disjoint(frames: seq<Frame>) {
    forall i, j | 0 <= i < j < |frames| :: frames[i].Millis() !! frames[j].Millis()
  }

  lemma {:induction false} CoveredIsCover(frames: seq<Frame>, t: int)
    ensures t in Covered(frames) <==> Cover(frames, t) > 0
  {
    if frames != [] {
      CoveredIsCover(frames[1..], t);
    }
  }

  lemma {:induction false} DisjointCoverOnce(frames: seq<Frame>, t: int)
    requires Disjoint(frames)
    ensures Cover(frames, t) <= 1
    ensures Cover(frames, t) == 1 ==> exists k :: 0 <= k < |frames| && t in frames[k].Millis()
  {
    if frames != [] {
      var rest := frames[1..];
      assert forall k | 0 <= k < |rest| :: rest[k] == frames[k + 1];
      DisjointCoverOnce(rest, t);
      if Covers(frames[0], t) {
        assert t in frames[0].Millis();
      }
    }
  }

  // A function summed over the milliseconds of a window.

  function WindowSum(f: int -> int, lo: int, hi: int): int
    decreases hi - lo
  {
    if hi <= lo then 0 else WindowSum(f, lo, hi - 1) + f(hi - 1)
  }

  lemma {:induction false} WindowAdds(f: int -> int, g: int -> int, h: int -> int, lo: int, hi: int)
    requires forall t :: f(t) == g(t) + h(t)
    ensures WindowSum(f, lo, hi) == WindowSum(g, lo, hi) + WindowSum(h, lo, hi)
    decreases hi - lo
  {
    if lo < hi {
      WindowAdds(f, g, h, lo, hi - 1);
    }
  }

  lemma {:induction false} WindowZero(f: int -> int, lo: int, hi: int)
    requires forall t :: f(t) == 0
    ensures WindowSum(f, lo, hi) == 0
    decreases hi - lo
  {
    if lo < hi {
      WindowZero(f, lo, hi - 1);
    }
  }

  /** How many pairs of a caller frame and an agent frame cover a millisecond. */
  function Pairs(caller: seq<Frame>, agent: seq<Frame>): int -> int {
    (t: int) => Cover(caller, t) * Cover(agent, t)
  }

  function Min(a: int, b: int): int { if a < b then a else b }
  function Max(a: int, b: int): int { if a < b then b else a }

  lemma OnePair(c: Frame, a: Frame, t: int)
    ensures Pairs([c], [a])(t) == if Covers(c, t) && Covers(a, t) then 1 else 0
  {
    assert [c][1..] == [] && [a][1..] == [];
    assert Cover([c], t) == (if Covers(c, t) then 1 else 0) && Cover([a], t) == if Covers(a, t) then 1 else 0;
  }

  lemma {:induction false} PairWindow(c: Frame, a: Frame, lo: int, hi: int)
    ensures WindowSum(Pairs([c], [a]), lo, hi)
            == Max(0, Min(hi, Min(c.End(), a.End())) - Max(lo, Max(c.ts, a.ts)))
    decreases hi - lo
  {
    if lo < hi {
      PairWindow(c, a, lo, hi - 1);
      OnePair(c, a, hi - 1);
    }
  }

  /** Every frame lies in the window. */
  predicate InWindow(frames: seq<Frame>, lo: int, hi: int) {
    forall f | f in frames :: lo <= f.ts && f.End() <= hi
  }

  lemma {:induction false} FrameOverlaps(c: Frame, agent: seq<Frame>, lo: int, hi: int)
    requires lo <= c.ts && c.End() <= hi
    ensures SumOf(agent, OverlapWith(c)) == WindowSum(Pairs([c], agent), lo, hi)
  {
    if agent == [] {
      WindowZero(Pairs([c], agent), lo, hi);
    } else {
      FrameOverlaps(c, agent[1..], lo, hi);
      PairWindow(c, agent[0], lo, hi);
      forall t ensures Pairs([c], agent)(t) == Pairs([c], [agent[0]])(t) + Pairs([c], agent[1..])(t) {
        SplitAgent([c], agent, t);
      }
      WindowAdds(Pairs([c], agent), Pairs([c], [agent[0]]), Pairs([c], agent[1..]), lo, hi);
    }
  }

  lemma SplitCover(frames: seq<Frame>, t: int)
    requires frames != []
    ensures Cover(frames, t) == Cover([frames[0]], t) + Cover(frames[1..], t)
  {
    assert [frames[0]][1..] == [];
  }

  lemma Spread(p: int, x: int, y: int)
    ensures p * (x + y) == p * x + p * y && (x + y) * p == x * p + y * p
  {}

  lemma SplitAgent(caller: seq<Frame>, agent: seq<Frame>, t: int)
    requires agent != []
    ensures Pairs(caller, agent)(t) == Pairs(caller, [agent[0]])(t) + Pairs(caller, agent[1..])(t)
  {
    SplitCover(agent, t);
    Spread(Cover(caller, t), Cover([agent[0]], t), Cover(agent[1..], t));
  }

  lemma SplitCaller(caller: seq<Frame>, agent: seq<Frame>, t: int)
    requires caller != []
    ensures Pairs(caller, agent)(t) == Pairs([caller[0]], agent)(t) + Pairs(caller[1..], agent)(t)
  {
    SplitCover(caller, t);
    Spread(Cover(agent, t), Cover([caller[0]], t), Cover(caller[1..], t));
  }

  lemma {:induction false} OverlapsArePairs(caller: seq<Frame>, agent: seq<Frame>, lo: int, hi: int)
    requires InWindow(caller, lo, hi)
    ensures Overlaps(caller, agent) == WindowSum(Pairs(caller, agent), lo, hi)
  {
    if caller == [] {
      WindowZero(Pairs(caller, agent), lo, hi);
    } else {
      assert caller[0] in caller && forall f | f in caller[1..] :: f in caller;
      OverlapsArePairs(caller[1..], agent, lo, hi);
      FrameOverlaps(caller[0], agent, lo, hi);
      forall t ensures Pairs(caller, agent)(t) == Pairs([caller[0]], agent)(t) + Pairs(caller[1..], agent)(t) {
        SplitCaller(caller, agent, t);
      }
      WindowAdds(Pairs(caller, agent), Pairs([caller[0]], agent), Pairs(caller[1..], agent), lo, hi);
    }
  }

  /** Double talk is summed millisecond by millisecond: caller frames that cover it times agent frames that do. */
  lemma DoubleTalkIsCover(events: seq<Entry>, lo: int, hi: int)
    requires InWindow(Frames(events, SpeechOf), lo, hi)
    ensures DoubleTalk(events) == WindowSum(Pairs(Frames(events, SpeechOf), Frames(events, AudioOf)), lo, hi)
  {
    OverlapsArePairs(Frames(events, SpeechOf), Frames(events, AudioOf), lo, hi);
  }

  /** Milliseconds both sides cover. */
  ghost function Both(caller: seq<Frame>, agent: seq<Frame>): set<int> { Covered(caller) * Covered(agent) }

  /** No millisecond up to hi that both sides cover is covered twice on one side. */
  ghost predicate OnceBefore(caller: seq<Frame>, agent: seq<Frame>, hi: int) {
    forall t | t in Both(caller, agent) && t < hi :: Cover(caller, t) == 1 && Cover(agent, t) == 1
  }

  lemma ProductOfCovers(p: nat, q: nat)
    ensures p * q >= 0 && (p * q == 0 <==> p == 0 || q == 0) && (p * q == 1 <==> p == 1 && q == 1)
  {
    if p > 0 && q > 0 {
      assert p * q >= p && p * q >= q;
    }
  }

  /** Pairs in one millisecond: none unless both sides cover it, one when each does once. */
  lemma PairsAt(caller: seq<Frame>, agent: seq<Frame>, t: int)
    ensures var n := Pairs(caller, agent)(t);
            && n >= 0 && (n == 0 <==> t !in Both(caller, agent))
            && (n == 1 <==> Cover(caller, t) == 1 && Cover(agent, t) == 1)
  {
    CoveredIsCover(caller, t);
    CoveredIsCover(agent, t);
    ProductOfCovers(Cover(caller, t), Cover(agent, t));
  }

  lemma OneMoreMillisecond(both: set<int>, lo: int, hi: int)
    requires lo < hi
    ensures |both * Span(lo, hi)| == |both * Span(lo, hi - 1)| + (if hi - 1 in both then 1 else 0)
  {
    if hi - 1 in both {
      assert both * Span(lo, hi) == both * Span(lo, hi - 1) + {hi - 1};
    } else {
      assert both * Span(lo, hi) == both * Span(lo, hi - 1);
    }
  }

  lemma OnceUntil(caller: seq<Frame>, agent: seq<Frame>, t: int)
    ensures OnceBefore(caller, agent, t + 1) <==>
              && OnceBefore(caller, agent, t)
              && (t in Both(caller, agent) ==> Cover(caller, t) == 1 && Cover(agent, t) == 1)
  {}

  lemma {:induction false} PairsMeasure(caller: seq<Frame>, agent: seq<Frame>, lo: int, hi: int)
    requires forall t | t in Both(caller, agent) :: lo <= t
    ensures var n, sum := |Both(caller, agent) * Span(lo, hi)|, WindowSum(Pairs(caller, agent), lo, hi);
            sum >= n && (sum == n <==> OnceBefore(caller, agent, hi))
    decreases hi - lo
  {
    var both := Both(caller, agent);
    if hi <= lo {
      assert both * Span(lo, hi) == {};
    } else {
      var t := hi - 1;
      PairsMeasure(caller, agent, lo, t);
      OneMoreMillisecond(both, lo, hi);
      PairsAt(caller, agent, t);
      OnceUntil(caller, agent, t);
    }
  }

  lemma {:induction false} SomeWindow(frames: seq<Frame>) returns (lo: int, hi: int)
    ensures InWindow(frames, lo, hi) && forall t | t in Covered(frames) :: lo <= t < hi
  {
    lo, hi := 0, 0;
    if frames != [] {
      var l, h := SomeWindow(frames[1..]);
      lo, hi := Min(l, frames[0].ts), Max(h, frames[0].End());
      assert forall f | f in frames :: f == frames[0] || f in frames[1..];
    }
  }

  /** No millisecond that both sides cover is covered twice on one side. */
  ghost predicate NeitherTwice(caller: seq<Frame>, agent: seq<Frame>) {
    forall t | t in Both(caller, agent) :: Cover(caller, t) == 1 && Cover(agent, t) == 1
  }

  /** Double talk is at least the number of milliseconds in which both speak, and is that number exactly when no such
      millisecond is covered twice on one side; so it is when neither side overlaps itself. */
  lemma DoubleTalkIsMeasure(events: seq<Entry>)
    ensures var speech, audio := Frames(events, SpeechOf), Frames(events, AudioOf);
            && DoubleTalk(events) >= |Both(speech, audio)|
            && (DoubleTalk(events) == |Both(speech, audio)| <==> NeitherTwice(speech, audio))
            && (Disjoint(speech) && Disjoint(audio) ==> NeitherTwice(speech, audio))
  {
    var speech, audio := Frames(events, SpeechOf), Frames(events, AudioOf);
    var lo, hi := SomeWindow(speech);
    DoubleTalkIsCover(events, lo, hi);
    PairsMeasure(speech, audio, lo, hi);
    assert Both(speech, audio) * Span(lo, hi) == Both(speech, audio);
    if Disjoint(speech) && Disjoint(audio) {
      forall t | t in Both(speech, audio) ensures Cover(speech, t) == 1 && Cover(audio, t) == 1 {
        CoveredIsCover(speech, t);
        CoveredIsCover(audio, t);
        DisjointCoverOnce(speech, t);
        DisjointCoverOnce(audio, t);
      }
    }
  }

  // ---- stalls ----

  ghost predicate Rising(ts: seq<int>) {
    forall i, j | 0 <= i < j < |ts| :: ts[i] <= ts[j]
  }

  /** The stalls of a turn with both ends fit between them, and each is longer than the threshold. */
  lemma {:induction false} StallsFit(ts: seq<int>, span: TurnSpan, threshold: int)
    requires Rising(ts) && span.start.Some? && span.end.Some? && threshold >= 0
    ensures var c, ms := StallCount(ts, span, threshold), StallMs(ts, span, threshold);
            && c * (threshold + 1) <= ms
            && (c == 0 ==> ms == 0)
            && (c > 0 ==> ms < span.end.value - span.start.value && ms <= ts[|ts| - 1] - span.start.value)
  {
    if |ts| >= 2 {
      var n := |ts| - 1;
      StallsFit(ts[..n], span, threshold);
      assert ts[n - 1] <= ts[n];
    }
  }

  lemma SortedTimes(events: seq<Entry>, t: int)
    ensures Rising(HeardAt(events, t))
  {
    StableSortSorts(Times(events, AgentOf(t)), IntLess());
  }

  /** So a turn seen from start to end stalls for less than it lasted. */
  lemma TurnStallsFit(events: seq<Entry>, t: int, threshold: int)
    requires SpanOf(events, t).start.Some? && SpanOf(events, t).end.Some? && threshold >= 0
    ensures var (c, ms) := TurnStalls(events, t, threshold);
            && c * (threshold + 1) <= ms
            && (c > 0 ==> ms < SpanOf(events, t).end.value - SpanOf(events, t).start.value)
  {
    SortedTimes(events, t);
    StallsFit(HeardAt(events, t), SpanOf(events, t), threshold);
  }

  // ---- reordering ----

  lemma {:induction false} RunningMaxIs(ns: seq<int>)
    ensures match RunningMax(ns)
            case None => ns == []
            case Some(m) => m in ns && forall x | x in ns :: x <= m
  {
    if ns != [] {
      var n := |ns| - 1;
      RunningMaxIs(ns[..n]);
      assert ns == ns[..n] + [ns[n]];
    }
  }

  /** The positions that come after a greater number. */
  ghost function Late(ns: seq<int>): set<int> {
    set k | 0 <= k < |ns| && exists j :: 0 <= j < k && ns[j] > ns[k]
  }

  /** Overtaken counts the frames some earlier frame was ahead of. */
  lemma {:induction false} OvertakenCounts(ns: seq<int>)
    ensures Overtaken(ns) == |Late(ns)|
  {
    if ns == [] {
      assert Late(ns) == {};
    } else {
      var n := |ns| - 1;
      OvertakenCounts(ns[..n]);
      LastIsLate(ns);
      LateGrows(ns);
    }
  }

  lemma LastIsLate(ns: seq<int>)
    requires ns != []
    ensures var n := |ns| - 1;
            (exists j :: 0 <= j < n && ns[j] > ns[n])
            <==> RunningMax(ns[..n]).Some? && ns[n] < RunningMax(ns[..n]).value
  {
    var n := |ns| - 1;
    RunningMaxIs(ns[..n]);
    if j :| 0 <= j < n && ns[j] > ns[n] {
      assert ns[j] in ns[..n];
    }
  }

  lemma LateGrows(ns: seq<int>)
    requires ns != []
    ensures var n := |ns| - 1;
            Late(ns) == Late(ns[..n]) + (if exists j :: 0 <= j < n && ns[j] > ns[n] then {n} else {})
  {
    var n := |ns| - 1;
    forall k | 0 <= k < n ensures k in Late(ns) <==> k in Late(ns[..n]) {
      assert forall j | 0 <= j < n :: ns[..n][j] == ns[j];
    }
  }

  /** Nothing is reordered exactly when the numbers never fall. */
  lemma NothingReordered(ns: seq<int>)
    ensures Overtaken(ns) == 0 <==> Rising(ns)
  {
    OvertakenCounts(ns);
    if Rising(ns) {
      assert Late(ns) == {};
    } else {
      var i, j :| 0 <= i < j < |ns| && ns[i] > ns[j];
      assert j in Late(ns);
    }
  }

  // ---- time to stop ----

  /** A stop time is never negative, and is zero exactly when no agent frame counts that came later than the turn's
      earliest barge-in; one that came in the same millisecond counts, with zero. */
  lemma StopTimesNonNegative(events: seq<Entry>, t: int)
    ensures StopTime(events, t) >= 0
    ensures var barge := BargeAt(events, t);
            StopTime(events, t) > 0 <==>
              && barge.Some?
              && exists r ::
                   r in events && StillTalking(t, barge.value, SpanOf(events, t).end)(r) && r.ts > barge.value
    ensures StopTime(events, t) > 0 ==>
              exists b, r :: b in events && r in events && b.typ.BargedIn? && IsAgent(r) && b.turn == t == r.turn
                             && StopTime(events, t) == r.ts - b.ts
  {
    var barge := BargeAt(events, t);
    EarliestIs(events, BargeOf(t));
    if barge.Some? {
      var p := StillTalking(t, barge.value, SpanOf(events, t).end);
      LatestIs(events, p);
      if Latest(events, p).Some? {
        var b :| b in events && BargeOf(t)(b) && b.ts == barge.value;
        var r :| r in events && p(r) && r.ts == Latest(events, p).value;
        assert StopTime(events, t) == r.ts - b.ts;
      }
    }
  }
}
