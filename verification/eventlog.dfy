/** Session event logs (internal/eventlog/eventlog.go). */
module EventLog {
  import opened Audio
  import opened Sorting

  datatype EventType = Send | Recv | TurnStarted | TurnEnded | BargedIn | Drop {
    /** The numbering of the type constants. */
    function Rank(): nat {
      match this
      case Send => 0
      case Recv => 1
      case TurnStarted => 2
      case TurnEnded => 3
      case BargedIn => 4
      case Drop => 5
    }
  }

  /** One log entry; turn markers carry the zero frame. */
  datatype Entry = Entry(typ: EventType, ts: int, turn: int, frame: Frame)

  const NO_FRAME := Frame(0, 0, 0, Silence, 0)

  // ---- the canonical order ----

  predicate CanonicalLess(a: Entry, b: Entry, aSess: int, bSess: int) {
    if a.ts != b.ts then a.ts < b.ts
    else if aSess != bSess then aSess < bSess
    else if a.typ != b.typ then a.typ.Rank() < b.typ.Rank()
    else a.frame.seqNo < b.frame.seqNo
  }

  /** The order of events within one session's log. */
  function LogLess(): (Entry, Entry) -> bool {
    (a: Entry, b: Entry) => CanonicalLess(a, b, 0, 0)
  }

  datatype Merged = Merged(session: int, event: Entry)

  function MergeLess(): (Merged, Merged) -> bool {
    (a: Merged, b: Merged) => CanonicalLess(a.event, b.event, a.session, b.session)
  }

  lemma LogOrder()
    ensures StrictWeak(LogLess())
  {}

  lemma MergeOrder()
    ensures StrictWeak(MergeLess())
  {}

  function SortedLog(events: seq<Entry>): seq<Entry> { StableSort(events, LogLess()) }

  // ---- merging ----

  datatype LogRecord = LogRecord(session: int, events: seq<Entry>)

  function Tag(session: int, events: seq<Entry>): seq<Merged> {
    seq(|events|, k requires 0 <= k < |events| => Merged(session, events[k]))
  }

  /** All events, log after log. */
  function Gathered(logs: seq<LogRecord>): seq<Merged> {
    if logs == [] then []
    else Gathered(logs[..|logs| - 1]) + Tag(logs[|logs| - 1].session, logs[|logs| - 1].events)
  }

  function MergedLogs(logs: seq<LogRecord>): seq<Merged> { StableSort(Gathered(logs), MergeLess()) }

  /** The events of all logs tagged with a session, log after log. */
  function EventsOf(logs: seq<LogRecord>, session: int): seq<Entry> {
    if logs == [] then []
    else
      EventsOf(logs[..|logs| - 1], session)
      + (if logs[|logs| - 1].session == session then logs[|logs| - 1].events else [])
  }

  ghost predicate DistinctSessions(logs: seq<LogRecord>) {
    forall i, j | 0 <= i < j < |logs| :: logs[i].session != logs[j].session
  }

  function InSession(session: int): Merged -> bool { (m: Merged) => m.session == session }

  lemma {:induction false} FilterTag(session: int, events: seq<Entry>, s: int)
    ensures Filter(Tag(session, events), InSession(s)) == if session == s then Tag(session, events) else []
    decreases |events|
  {
    if events != [] {
      var n := |events| - 1;
      FilterTag(session, events[..n], s);
      assert Tag(session, events)[..n] == Tag(session, events[..n]);
    }
  }

  lemma {:induction false} FilterGathered(logs: seq<LogRecord>, s: int)
    ensures Filter(Gathered(logs), InSession(s)) == Tag(s, EventsOf(logs, s))
  {
    if logs != [] {
      var n := |logs| - 1;
      FilterGathered(logs[..n], s);
      FilterConcat(Gathered(logs[..n]), Tag(logs[n].session, logs[n].events), InSession(s));
      FilterTag(logs[n].session, logs[n].events, s);
    }
  }

  /** Within one session the merge order is the log order. */
  lemma {:induction false} InsertTagged(s: int, events: seq<Entry>, e: Entry)
    ensures Insert(Tag(s, events), Merged(s, e), MergeLess()) == Tag(s, Insert(events, e, LogLess()))
    decreases |events|
  {
    if events != [] {
      var n := |events| - 1;
      InsertTagged(s, events[..n], e);
      assert Tag(s, events)[..n] == Tag(s, events[..n]);
    }
  }

  lemma {:induction false} SortTagged(s: int, events: seq<Entry>)
    ensures StableSort(Tag(s, events), MergeLess()) == Tag(s, SortedLog(events))
    decreases |events|
  {
    if events == [] {
      assert Tag(s, events) == [];
    } else {
      var n := |events| - 1;
      SortTagged(s, events[..n]);
      assert Tag(s, events)[..n] == Tag(s, events[..n]);
      InsertTagged(s, SortedLog(events[..n]), events[n]);
    }
  }

  /** Where a type comes in the list of type constants. */
  function Place(typ: EventType): nat {
    if typ == Send then 0 else if typ == Recv then 1 else if typ == TurnStarted then 2
    else if typ == TurnEnded then 3 else if typ == BargedIn then 4 else 5
  }

  /** a comes no later than b by time, then session, then type, then sequence number. */
  predicate NotAfter(a: Merged, b: Merged) {
    || a.event.ts < b.event.ts
    || (a.event.ts == b.event.ts
        && (|| a.session < b.session
            || (a.session == b.session
                && (|| Place(a.event.typ) < Place(b.event.typ)
                    || (a.event.typ == b.event.typ && a.event.frame.seqNo <= b.event.frame.seqNo)))))
  }

  /** Those that agree with z in all four. */
  function AlikeTo(z: Merged): Merged -> bool {
    (m: Merged) => m.event.ts == z.event.ts && m.session == z.session && m.event.typ == z.event.typ
                   && m.event.frame.seqNo == z.event.frame.seqNo
  }

  /** The merge is in canonical order, loses and invents nothing, and keeps ties in the order of the logs. */
  lemma MergeSorts(logs: seq<LogRecord>)
    ensures multiset(MergedLogs(logs)) == multiset(Gathered(logs))
    ensures forall i, j | 0 <= i < j < |MergedLogs(logs)| :: NotAfter(MergedLogs(logs)[i], MergedLogs(logs)[j])
    ensures forall z :: Filter(MergedLogs(logs), AlikeTo(z)) == Filter(Gathered(logs), AlikeTo(z))
  {
    var out, all := MergedLogs(logs), Gathered(logs);
    MergeOrder();
    StableSortSorts(all, MergeLess());
    forall i, j | 0 <= i < j < |out| ensures NotAfter(out[i], out[j]) {
      assert !MergeLess()(out[j], out[i]);
    }
    forall z ensures Filter(out, AlikeTo(z)) == Filter(all, AlikeTo(z)) {
      SortThenFilter(all, AlikeTo(z), MergeLess());
      TiedStay(Filter(all, AlikeTo(z)), z);
      FilterKeeps(all, AlikeTo(z));
    }
  }

  lemma FilterKeeps<T>(s: seq<T>, p: T -> bool)
    ensures forall x | x in Filter(s, p) :: p(x)
  {
    forall x | x in Filter(s, p) ensures p(x) {
      FilterMember(s, p, x);
    }
  }

  /** Sorting leaves what is tied throughout. */
  lemma {:induction false} TiedStay(ms: seq<Merged>, z: Merged)
    ensures (forall m | m in ms :: AlikeTo(z)(m)) ==> StableSort(ms, MergeLess()) == ms
  {
    if ms != [] && forall m | m in ms :: AlikeTo(z)(m) {
      var n := |ms| - 1;
      TiedStay(ms[..n], z);
      assert ms[n] in ms && (n > 0 ==> ms[n - 1] in ms);
    }
  }

  /** The same of one log: it is left ordered by time, then type, then sequence number, and holds the same entries. */
  lemma LogSorts(events: seq<Entry>)
    ensures multiset(SortedLog(events)) == multiset(events)
    ensures forall i, j | 0 <= i < j < |SortedLog(events)| ::
              NotAfter(Merged(0, SortedLog(events)[i]), Merged(0, SortedLog(events)[j]))
  {
    var out := SortedLog(events);
    LogOrder();
    StableSortSorts(events, LogLess());
    forall i, j | 0 <= i < j < |out| ensures NotAfter(Merged(0, out[i]), Merged(0, out[j])) {
      assert !LogLess()(out[j], out[i]);
    }
  }

  /** A session's share of the merge is its own logs, sorted. */
  lemma MergeProjects(logs: seq<LogRecord>, s: int)
    ensures Filter(MergedLogs(logs), InSession(s)) == Tag(s, SortedLog(EventsOf(logs, s)))
  {
    MergeOrder();
    SortThenFilter(Gathered(logs), InSession(s), MergeLess());
    FilterGathered(logs, s);
    SortTagged(s, EventsOf(logs, s));
  }

  lemma {:induction false} EventsOfNone(logs: seq<LogRecord>, s: int)
    requires forall r | r in logs :: r.session != s
    ensures EventsOf(logs, s) == []
  {
    if logs != [] {
      EventsOfNone(logs[..|logs| - 1], s);
    }
  }

  lemma {:induction false} EventsOfOne(logs: seq<LogRecord>, r: LogRecord)
    requires DistinctSessions(logs) && r in logs
    ensures EventsOf(logs, r.session) == r.events
  {
    var n := |logs| - 1;
    if logs[n] == r {
      EventsOfNone(logs[..n], r.session);
    } else {
      assert r in logs[..n];
      EventsOfOne(logs[..n], r);
    }
  }

  /** With distinct session indices, session k's share of the merge is Sort of log k. */
  lemma MergeProjectsEach(logs: seq<LogRecord>, k: nat)
    requires DistinctSessions(logs) && k < |logs|
    ensures Filter(MergedLogs(logs), InSession(logs[k].session)) == Tag(logs[k].session, SortedLog(logs[k].events))
  {
    MergeProjects(logs, logs[k].session);
    EventsOfOne(logs, logs[k]);
  }

  lemma SameEvents(a: seq<LogRecord>, b: seq<LogRecord>, s: int)
    requires multiset(a) == multiset(b) && DistinctSessions(a) && DistinctSessions(b)
    ensures EventsOf(a, s) == EventsOf(b, s)
  {
    assert forall r :: r in a <==> r in multiset(b);
    if r :| r in a && r.session == s {
      EventsOfOne(a, r);
      EventsOfOne(b, r);
    } else {
      EventsOfNone(a, s);
      EventsOfNone(b, s);
    }
  }

  /** Ties never cross sessions. */
  lemma {:induction false} TiesAreInSession(ms: seq<Merged>, z: Merged)
    ensures Class(ms, MergeLess(), z) == Class(Filter(ms, InSession(z.session)), MergeLess(), z)
  {
    if ms != [] {
      var n := |ms| - 1;
      TiesAreInSession(ms[..n], z);
      var f := Filter(ms[..n], InSession(z.session));
      if ms[n].session == z.session {
        assert (f + [ms[n]])[..|f|] == f;
      } else {
        NotOfClass(ms, MergeLess(), z);
        assert Filter(ms, InSession(z.session)) == f;
      }
    }
  }

  lemma {:induction false} DistinctIsStable(a: seq<LogRecord>, b: seq<LogRecord>)
    requires multiset(a) == multiset(b) && DistinctSessions(a)
    ensures DistinctSessions(b)
  {
    forall i, j | 0 <= i < j < |b| ensures b[i].session != b[j].session {
      if b[i].session == b[j].session {
        TwoInBag(b, i, j);
        assert b[i] in multiset(a) && b[j] in multiset(a);
        var k :| 0 <= k < |a| && a[k] == b[i];
        var l :| 0 <= l < |a| && a[l] == b[j];
        assert k == l;
        OnceInBag(a, k);
      }
    }
  }

  lemma TwoInBag<T>(s: seq<T>, i: nat, j: nat)
    requires i < j < |s|
    ensures s[i] == s[j] ==> multiset(s)[s[i]] >= 2
  {
    assert s == s[..i] + [s[i]] + s[i + 1..j] + [s[j]] + s[j + 1..];
  }

  lemma {:induction false} OnceInBag(a: seq<LogRecord>, k: nat)
    requires k < |a| && DistinctSessions(a)
    ensures multiset(a)[a[k]] == 1
  {
    assert a == a[..k] + [a[k]] + a[k + 1..];
    assert a[k] !in a[..k] && a[k] !in a[k + 1..];
  }

  /** With distinct session indices the merge does not depend on the order of the logs. */
  lemma MergeOrderFree(a: seq<LogRecord>, b: seq<LogRecord>)
    requires multiset(a) == multiset(b) && DistinctSessions(a)
    ensures MergedLogs(a) == MergedLogs(b)
  {
    DistinctIsStable(a, b);
    MergeOrder();
    forall z ensures Class(Gathered(a), MergeLess(), z) == Class(Gathered(b), MergeLess(), z) {
      TiesAreInSession(Gathered(a), z);
      TiesAreInSession(Gathered(b), z);
      FilterGathered(a, z.session);
      FilterGathered(b, z.session);
      SameEvents(a, b, z.session);
    }
    SortsAlike(Gathered(a), Gathered(b), MergeLess());
  }

  // ---- logs ----

  /** Put x after everything it does not sort before, moving the rest up. */
  method InsertOne<T>(s: seq<T>, x: T, less: (T, T) -> bool) returns (r: seq<T>)
    ensures r == Insert(s, x, less)
  {
    var j := |s|;
    var moved: seq<T> := [];
    assert s[..j] == s;
    while j > 0 && less(x, s[j - 1])
      invariant 0 <= j <= |s| && Insert(s[..j], x, less) + moved == Insert(s, x, less)
    {
      assert s[..j][..j - 1] == s[..j - 1];
      moved := [s[j - 1]] + moved;
      j := j - 1;
    }
    r := s[..j] + [x] + moved;
  }

  /** Insertion, one element after the other: any stable sort gives the same (StableSortUnique). */
  method SliceStable<T>(s: seq<T>, less: (T, T) -> bool) returns (r: seq<T>)
    ensures r == StableSort(s, less)
  {
    r := [];
    var i := 0;
    while i < |s|
      invariant 0 <= i <= |s| && r == StableSort(s[..i], less)
    {
      assert s[..i + 1][..i] == s[..i];
      r := InsertOne(r, s[i], less);
      i := i + 1;
    }
    assert s[..i] == s;
  }

  class Log {
    const sessionIndex: int
    var events: seq<Entry>

    constructor (sessionIndex: int)
      ensures this.sessionIndex == sessionIndex && events == []
    {
      this.sessionIndex, events := sessionIndex, [];
    }

    method Append(e: Entry)
      modifies this
      ensures events == old(events) + [e]
    {
      events := events + [e];
    }

    method Sort()
      modifies this
      ensures events == SortedLog(old(events)) && multiset(events) == multiset(old(events))
      ensures forall i, j | 0 <= i < j < |events| :: NotAfter(Merged(0, events[i]), Merged(0, events[j]))
    {
      LogSorts(events);
      events := SliceStable(events, LogLess());
    }
  }

  method Merge(logs: seq<LogRecord>) returns (out: seq<Merged>)
    ensures out == MergedLogs(logs) && multiset(out) == multiset(Gathered(logs))
    ensures forall i, j | 0 <= i < j < |out| :: NotAfter(out[i], out[j])
  {
    MergeSorts(logs);
    out := [];
    var i := 0;
    while i < |logs|
      invariant 0 <= i <= |logs| && out == Gathered(logs[..i])
    {
      assert logs[..i + 1][..i] == logs[..i];
      var l := logs[i];
      var k := 0;
      while k < |l.events|
        invariant 0 <= k <= |l.events| && out == Gathered(logs[..i]) + Tag(l.session, l.events[..k])
      {
        assert Tag(l.session, l.events[..k + 1]) == Tag(l.session, l.events[..k]) + [Merged(l.session, l.events[k])];
        out := out + [Merged(l.session, l.events[k])];
        k := k + 1;
      }
      assert l.events[..k] == l.events;
      i := i + 1;
    }
    assert logs[..i] == logs;
    out := SliceStable(out, MergeLess());
  }
}
