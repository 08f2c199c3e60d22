/** Frames out of messages (internal/transport/ws_transport.go:53-85): the decoded messages, flattened. */
module WsTransports {
  import opened Basics
  import Audio
  import opened WsFrames
  import opened WsConns
  import opened WsObjects

  /** Decoding a message received at a given time; the endpoint's codec is left open. */
  type Codec = (Message, int) -> Option<seq<Audio.Frame>>

  /** What a transport's Recv can fail with: end of stream, another read error, or the codec. */
  datatype Failure = EndOfStream | ReadFailed(error: ReadError) | DecodeFailed

  datatype Received = Got(frame: Audio.Frame) | Failed(why: Failure)

  function FailureOf(e: ReadError): Failure { if e == ServerClosed then EndOfStream else ReadFailed(e) }

  /** All frames of the messages still to be read, up to the first failure; clock(k) is the time of the k-th decode. */
  function Upcoming(bytes: Bytes, maxMsg: nat, closed: bool, codec: Codec, clock: nat -> int, k: nat)
    : (seq<Audio.Frame>, Failure)
    decreases |bytes|
  {
    var run := ReadMessage(bytes, EMPTY, maxMsg, closed);
    if run.r.Err? then ([], FailureOf(run.r.error))
    else
      ReadBounds(bytes, EMPTY, maxMsg, closed);
      match codec(run.r.value, clock(k))
      case None => ([], DecodeFailed)
      case Some(frames) =>
        var (more, why) := Upcoming(run.rest, maxMsg, closed, codec, clock, k + 1);
        (frames + more, why)
  }

  lemma HeadOff(a: seq<Audio.Frame>, b: seq<Audio.Frame>)
    requires a != []
    ensures (a + b)[0] == a[0] && (a + b)[1..] == a[1..] + b
  {}

  /** A decoded message contributes its frames, or ends the stream. */
  ghost predicate Decodes(frames: Option<seq<Audio.Frame>>, all: (seq<Audio.Frame>, Failure),
                          more: (seq<Audio.Frame>, Failure))
  {
    if frames.None? then all == ([], DecodeFailed)
    else all.0 == frames.value + more.0 && all.1 == more.1 && (frames.value == [] ==> all == more)
  }

  /** What reading one message says about the stream. */
  lemma NextIs(bytes: Bytes, maxMsg: nat, closed: bool, codec: Codec, clock: nat -> int, k: nat,
               all: (seq<Audio.Frame>, Failure), r: Result<Message>, rest: Bytes, closed': bool,
               more: (seq<Audio.Frame>, Failure))
    requires all == Upcoming(bytes, maxMsg, closed, codec, clock, k)
    requires r == ReadMessage(bytes, EMPTY, maxMsg, closed).r && rest == ReadMessage(bytes, EMPTY, maxMsg, closed).rest
    requires r.Ok? ==> closed' == closed && more == Upcoming(rest, maxMsg, closed', codec, clock, k + 1)
    ensures r.Err? ==> all == ([], FailureOf(r.error))
    ensures r.Ok? ==> Decodes(codec(r.value, clock(k)), all, more)
  {
    UpcomingUnfolds(bytes, maxMsg, closed, codec, clock, k);
  }

  lemma UpcomingUnfolds(bytes: Bytes, maxMsg: nat, closed: bool, codec: Codec, clock: nat -> int, k: nat)
    ensures var run := ReadMessage(bytes, EMPTY, maxMsg, closed);
            var all := Upcoming(bytes, maxMsg, closed, codec, clock, k);
            if run.r.Err? then all == ([], FailureOf(run.r.error))
            else
              var frames := codec(run.r.value, clock(k));
              Decodes(frames, all, Upcoming(run.rest, maxMsg, closed, codec, clock, k + 1))
  {
    ReadBounds(bytes, EMPTY, maxMsg, closed);
    var run := ReadMessage(bytes, EMPTY, maxMsg, closed);
    if run.r.Ok? {
      var more := Upcoming(run.rest, maxMsg, closed, codec, clock, k + 1);
      assert [] + more.0 == more.0;
    }
  }

  class WSTransport {
    const conn: WSConn
    const codec: Codec
    const clock: nat -> int   // the injected clock's readings
    var taken: nat            // readings taken
    var pending: seq<Audio.Frame>

    constructor (conn: WSConn, codec: Codec, clock: nat -> int)
      ensures this.conn == conn && this.codec == codec && this.clock == clock && taken == 0 && pending == []
    {
      this.conn, this.codec, this.clock, taken, pending := conn, codec, clock, 0, [];
    }

    /** The frames Recv still has to give out, and how the stream ends. */
    ghost function Stream(): (seq<Audio.Frame>, Failure)
      reads this, conn
    {
      var (frames, why) := Upcoming(conn.inp, conn.maxMsg, conn.closed, codec, clock, taken);
      (pending + frames, why)
    }

    /** Recv: the next frame of the stream, each once, in order; or the failure it ends with. */
    method Recv() returns (r: Received)
      requires conn.Valid()
      modifies this, conn
      ensures conn.Valid()
      ensures var (frames, why) := old(Stream());
              if frames == [] then r == Failed(why)
              else r == Got(frames[0]) && Stream() == (frames[1..], why)
    {
      ghost var all := Upcoming(conn.inp, conn.maxMsg, conn.closed, codec, clock, taken);
      if |pending| > 0 {
        HeadOff(pending, all.0);
        r := Got(pending[0]);
        pending := pending[1..];
        return;
      }
      assert pending + all.0 == all.0;
      r := Fetch(all);
    }

    /** Recv's loop: read until a message decodes to something. */
    method Fetch(ghost all: (seq<Audio.Frame>, Failure)) returns (r: Received)
      requires conn.Valid() && pending == [] && all == Upcoming(conn.inp, conn.maxMsg, conn.closed, codec, clock, taken)
      modifies this, conn
      ensures conn.Valid()
      ensures if all.0 == [] then r == Failed(all.1)
              else r == Got(all.0[0]) && Stream() == (all.0[1..], all.1)
    {
      while true
        invariant conn.Valid() && pending == []
                  && Upcoming(conn.inp, conn.maxMsg, conn.closed, codec, clock, taken) == all
        decreases |conn.inp|
      {
        var msg;
        ghost var more;
        msg, more := NextMessage(all);
        if msg.Err? {
          return Failed(FailureOf(msg.error));
        }
        var frames := codec(msg.value, clock(taken));
        taken := taken + 1;
        if frames.None? {
          return Failed(DecodeFailed);
        }
        if |frames.value| == 0 {
          continue;
        }
        HeadOff(frames.value, more.0);
        pending := pending + frames.value;
        assert pending == frames.value;
        r := Got(pending[0]);
        pending := pending[1..];
        return;
      }
    }

    /** Read, as far as it concerns the stream: `all` before, `more` after. */
    method NextMessage(ghost all: (seq<Audio.Frame>, Failure))
      returns (r: Result<Message>, ghost more: (seq<Audio.Frame>, Failure))
      requires conn.Valid() && all == Upcoming(conn.inp, conn.maxMsg, conn.closed, codec, clock, taken)
      modifies conn
      ensures conn.Valid()
      ensures r.Err? ==> all == ([], FailureOf(r.error))
      ensures r.Ok? ==> |conn.inp| < |old(conn.inp)|
                        && more == Upcoming(conn.inp, conn.maxMsg, conn.closed, codec, clock, taken + 1)
                        && Decodes(codec(r.value, clock(taken)), all, more)
    {
      ghost var bytes, closed := conn.inp, conn.closed;
      r := ReadOne();
      more := Upcoming(conn.inp, conn.maxMsg, conn.closed, codec, clock, taken + 1);
      NextIs(bytes, conn.maxMsg, closed, codec, clock, taken, all, r, conn.inp, conn.closed, more);
    }

    method ReadOne() returns (r: Result<Message>)
      requires conn.Valid()
      modifies conn
      ensures conn.Valid()
      ensures var run := ReadMessage(old(conn.inp), EMPTY, conn.maxMsg, old(conn.closed));
              r == run.r && conn.inp == run.rest
                && (r.Ok? ==> conn.closed == old(conn.closed) && |conn.inp| < |old(conn.inp)|)
    {
      ReadBounds(conn.inp, EMPTY, conn.maxMsg, conn.closed);
      r := conn.Read();
    }
  }
}
