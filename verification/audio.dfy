/** Timed frames: positions on a millisecond timeline (internal/audio/frame.go). */
module Audio {

  const DEFAULT_FRAME_MS := 20

  datatype Kind = Silence | Speech | AgentAudio | TurnStart | TurnEnd

  /** The milliseconds of the half-open interval [lo, hi). */
  ghost function Span(lo: int, hi: int): (ms: set<int>)
    ensures forall t :: t in ms <==> lo <= t < hi
    ensures |ms| == if hi <= lo then 0 else hi - lo
    decreases hi - lo
  {
    if hi <= lo then {} else Span(lo, hi - 1) + {hi - 1}
  }

  /** A frame covers the half-open interval [ts, ts + durMs). */
  datatype Frame = Frame(seqNo: int, ts: int, durMs: int, kind: Kind, payloadLen: int) {
    function End(): int { ts + durMs }

    ghost function Millis(): set<int> { Span(ts, End()) }
  }

  /** How many milliseconds two frames share. */
  function OverlapMs(f: Frame, g: Frame): (r: int)
    ensures r == |f.Millis() * g.Millis()|
  {
    var lo := if g.ts > f.ts then g.ts else f.ts;
    var hi := if g.End() < f.End() then g.End() else f.End();
    assert f.Millis() * g.Millis() == Span(lo, hi);
    if hi <= lo then 0 else hi - lo
  }
}
