/** RFC 6455 framing (section 5.2), client side (internal/transport/ws.go:238-294, 400-461). */
module WsFrames {
  import opened Basics

  type Byte = b: int | 0 <= b < 256
  type Bytes = seq<Byte>

  const OP_CONTINUATION := 0x0
  const OP_TEXT := 0x1
  const OP_BINARY := 0x2
  const OP_CLOSE := 0x8
  const OP_PING := 0x9
  const OP_PONG := 0xA

  // ---- masking (section 5.3) ----

  function Pow2(n: nat): nat { if n == 0 then 1 else 2 * Pow2(n - 1) }

  /** Exclusive or of the low n bits. */
  function XorBits(a: nat, b: nat, n: nat): (r: nat)
    ensures r < Pow2(n)
  {
    if n == 0 then 0 else 2 * XorBits(a / 2, b / 2, n - 1) + (a % 2 + b % 2) % 2
  }

  function Xor(a: Byte, b: Byte): Byte {
    assert Pow2(8) == 256;
    XorBits(a, b, 8)
  }

  lemma Parity(x: nat, y: nat)
    requires x < 2 && y < 2
    ensures ((x + y) % 2 + y) % 2 == x
  {}

  lemma {:induction false} XorTwice(a: nat, b: nat, n: nat)
    requires a < Pow2(n)
    ensures XorBits(XorBits(a, b, n), b, n) == a
  {
    if n > 0 {
      var x := XorBits(a, b, n);
      assert x / 2 == XorBits(a / 2, b / 2, n - 1) && x % 2 == (a % 2 + b % 2) % 2;
      XorTwice(a / 2, b / 2, n - 1);
      Parity(a % 2, b % 2);
      assert XorBits(x, b, n) == 2 * XorBits(x / 2, b / 2, n - 1) + (x % 2 + b % 2) % 2;
    }
  }

  /** A masking key. */
  datatype Mask = Mask(b0: Byte, b1: Byte, b2: Byte, b3: Byte) {
    function All(): Bytes { [b0, b1, b2, b3] }

    function At(i: nat): Byte { All()[i % 4] }
  }

  function Masked(payload: Bytes, mask: Mask): Bytes {
    seq(|payload|, i requires 0 <= i < |payload| => Xor(payload[i], mask.At(i)))
  }

  /** Masking is its own inverse. */
  lemma MaskTwice(payload: Bytes, mask: Mask)
    ensures Masked(Masked(payload, mask), mask) == payload
  {
    assert Pow2(8) == 256;
    forall i | 0 <= i < |payload| ensures Xor(Xor(payload[i], mask.At(i)), mask.At(i)) == payload[i] {
      XorTwice(payload[i], mask.At(i), 8);
    }
  }

  // ---- lengths ----

  function BigEndian(n: nat, width: nat): (r: Bytes)
    ensures |r| == width
  {
    if width == 0 then [] else BigEndian(n / 256, width - 1) + [n % 256]
  }

  function FromBigEndian(bs: Bytes): nat {
    if bs == [] then 0 else 256 * FromBigEndian(bs[..|bs| - 1]) + bs[|bs| - 1]
  }

  function Pow256(n: nat): nat { if n == 0 then 1 else 256 * Pow256(n - 1) }

  lemma {:induction false} BigEndianRoundTrip(n: nat, width: nat)
    requires n < Pow256(width)
    ensures FromBigEndian(BigEndian(n, width)) == n
  {
    if width > 0 {
      BigEndianRoundTrip(n / 256, width - 1);
      assert BigEndian(n, width)[..width - 1] == BigEndian(n / 256, width - 1);
    }
  }

  lemma {:induction false} FromBigEndianRoundTrip(bs: Bytes)
    ensures FromBigEndian(bs) < Pow256(|bs|) && BigEndian(FromBigEndian(bs), |bs|) == bs
  {
    if bs != [] {
      var n := |bs| - 1;
      FromBigEndianRoundTrip(bs[..n]);
      var v := FromBigEndian(bs);
      assert v / 256 == FromBigEndian(bs[..n]) && v % 256 == bs[n];
      assert bs == bs[..n] + [bs[n]];
    }
  }

  lemma Widths()
    ensures Pow256(2) == 0x1_0000 && Pow256(8) == 0x1_0000_0000_0000_0000
  {
    assert Pow256(4) == 0x1_0000_0000;
  }

  /** The three ways a payload length is written. */
  datatype Form = Short | Medium | Long {
    function Marker(n: nat): nat {
      match this case Short => n case Medium => 126 case Long => 127
    }

    function Width(): nat {
      match this case Short => 0 case Medium => 2 case Long => 8
    }

    predicate Fits(n: nat) {
      match this
      case Short => n <= 125
      case Medium => n < 0x1_0000
      case Long => n < 0x1_0000_0000_0000_0000
    }
  }

  /** The shortest form that fits. */
  function Minimal(n: nat): Form {
    if n <= 125 then Short else if n <= 0xFFFF then Medium else Long
  }

  // ---- whole frames ----

  /** A frame as it stands on the wire. */
  datatype Wire = Wire(fin: bool, rsv: nat, opcode: nat, mask: Option<Mask>, form: Form, payload: Bytes) {
    predicate Valid() { rsv < 8 && opcode < 16 && form.Fits(|payload|) }

    function Head(): Byte
      requires Valid()
    {
      (if fin then 128 else 0) + 16 * rsv + opcode
    }

    function Second(): Byte
      requires Valid()
    {
      (if mask.Some? then 128 else 0) + form.Marker(|payload|)
    }

    function Body(): Bytes {
      match mask case None => payload case Some(m) => m.All() + Masked(payload, m)
    }

    function Front(): Bytes
      requires Valid()
    {
      [Head(), Second()] + BigEndian(|payload|, form.Width())
    }

    function Encode(): Bytes
      requires Valid()
    {
      Front() + Body()
    }
  }

  /** Length form, payload length and where the length field ends. */
  datatype Header = Header(form: Form, n: nat, start: nat)

  function ParseHeader(bytes: Bytes): Option<Header> {
    if |bytes| < 2 then None
    else
      var form := if bytes[1] % 128 == 126 then Medium else if bytes[1] % 128 == 127 then Long else Short;
      var start := 2 + form.Width();
      if |bytes| < start then None
      else Some(Header(form, if form.Short? then bytes[1] % 128 else FromBigEndian(bytes[2..start]), start))
  }

  function MaskAt(bytes: Bytes, start: nat): (m: Mask)
    requires start + 4 <= |bytes|
    ensures m.All() == bytes[start..start + 4]
  {
    Mask(bytes[start], bytes[start + 1], bytes[start + 2], bytes[start + 3])
  }

  /** Mask and payload, and what follows them. */
  function ParseBody(bytes: Bytes, start: nat, n: nat, masked: bool): Option<(Option<Mask>, Bytes, Bytes)>
    requires start <= |bytes|
  {
    var body := if masked then start + 4 else start;
    if |bytes| < body + n then None
    else
      var raw := bytes[body..body + n];
      if masked then
        var mask := MaskAt(bytes, start);
        Some((Some(mask), Masked(raw, mask), bytes[body + n..]))
      else Some((None, raw, bytes[body + n..]))
  }

  /** The reference decoder of section 5.2: one frame off the front, masked or not. */
  function Parse(bytes: Bytes): Option<(Wire, Bytes)> {
    match ParseHeader(bytes)
    case None => None
    case Some(Header(form, n, start)) =>
      match ParseBody(bytes, start, n, bytes[1] >= 128)
      case None => None
      case Some((mask, payload, rest)) =>
        Some((Wire(bytes[0] >= 128, bytes[0] / 16 % 8, bytes[0] % 16, mask, form, payload), rest))
  }

  lemma HeadFields(w: Wire)
    requires w.Valid()
    ensures (w.Head() >= 128) == w.fin && w.Head() / 16 % 8 == w.rsv && w.Head() % 16 == w.opcode
    ensures (w.Second() >= 128) == w.mask.Some? && w.Second() % 128 == w.form.Marker(|w.payload|)
  {}

  lemma LengthFields(w: Wire)
    requires w.Valid()
    ensures !w.form.Short? ==> FromBigEndian(BigEndian(|w.payload|, w.form.Width())) == |w.payload|
  {
    Widths();
    if !w.form.Short? {
      BigEndianRoundTrip(|w.payload|, w.form.Width());
    }
  }

  /** Where the parts of an encoded frame lie. */
  predicate LaidOut(w: Wire, rest: Bytes, b: Bytes)
    requires w.Valid()
  {
    var start := 2 + w.form.Width();
    var body := if w.mask.Some? then start + 4 else start;
    && |b| == body + |w.payload| + |rest|
    && b[0] == w.Head() && b[1] == w.Second()
    && b[2..start] == BigEndian(|w.payload|, w.form.Width())
    && (w.mask.Some? ==> b[start..start + 4] == w.mask.value.All()
                         && b[body..body + |w.payload|] == Masked(w.payload, w.mask.value))
    && (w.mask.None? ==> b[body..body + |w.payload|] == w.payload)
    && b[body + |w.payload|..] == rest
  }

  /** Cutting a concatenation where its parts meet. */
  lemma Cuts(head: Bytes, length: Bytes, mask: Bytes, data: Bytes, rest: Bytes, b: Bytes)
    requires |head| == 2 && b == head + length + (mask + data) + rest
    ensures var start := 2 + |length|;
            var body := start + |mask|;
            && |b| == body + |data| + |rest| && b[0] == head[0] && b[1] == head[1]
            && b[2..start] == length && b[start..body] == mask
            && b[body..body + |data|] == data && b[body + |data|..] == rest
  {}

  lemma Layout(w: Wire, rest: Bytes)
    requires w.Valid()
    ensures LaidOut(w, rest, w.Encode() + rest)
  {
    var head, length := [w.Head(), w.Second()], BigEndian(|w.payload|, w.form.Width());
    if w.mask.Some? {
      Cuts(head, length, w.mask.value.All(), Masked(w.payload, w.mask.value), rest, w.Encode() + rest);
    } else {
      assert [] + w.payload == w.payload;
      Cuts(head, length, [], w.payload, rest, w.Encode() + rest);
    }
  }

  lemma HeaderLaidOut(w: Wire, rest: Bytes, b: Bytes)
    requires w.Valid() && LaidOut(w, rest, b)
    ensures ParseHeader(b) == Some(Header(w.form, |w.payload|, 2 + w.form.Width()))
  {
    HeadFields(w);
    LengthFields(w);
  }

  lemma BodyLaidOut(w: Wire, rest: Bytes, b: Bytes)
    requires w.Valid() && LaidOut(w, rest, b)
    ensures ParseBody(b, 2 + w.form.Width(), |w.payload|, w.mask.Some?) == Some((w.mask, w.payload, rest))
  {
    if w.mask.Some? {
      MaskTwice(w.payload, w.mask.value);
    }
  }

  lemma ParseLaidOut(w: Wire, rest: Bytes, b: Bytes)
    requires w.Valid() && LaidOut(w, rest, b)
    ensures Parse(b) == Some((w, rest))
  {
    HeadFields(w);
    HeaderLaidOut(w, rest, b);
    BodyLaidOut(w, rest, b);
  }

  /** Decoding what was encoded gives the frame back, and leaves what follows it. */
  lemma ParseEncode(w: Wire, rest: Bytes)
    requires w.Valid()
    ensures Parse(w.Encode() + rest) == Some((w, rest))
  {
    Layout(w, rest);
    ParseLaidOut(w, rest, w.Encode() + rest);
  }

  lemma ParsedParts(bytes: Bytes)
    requires Parse(bytes).Some?
    ensures var (w, rest) := Parse(bytes).value;
            && w.Valid() && w.Head() == bytes[0] && w.Second() == bytes[1]
            && BigEndian(|w.payload|, w.form.Width()) == bytes[2..2 + w.form.Width()]
  {
    HeaderParts(bytes);
  }

  lemma HeaderParts(bytes: Bytes)
    requires ParseHeader(bytes).Some?
    ensures var h := ParseHeader(bytes).value;
            && h.start == 2 + h.form.Width() <= |bytes| && h.form.Fits(h.n) && h.form.Marker(h.n) == bytes[1] % 128
            && BigEndian(h.n, h.form.Width()) == bytes[2..h.start]
  {
    Widths();
    var h := ParseHeader(bytes).value;
    if !h.form.Short? {
      FromBigEndianRoundTrip(bytes[2..h.start]);
    }
  }

  /** And every decoded frame re-encodes to the bytes it came from: nothing else decodes to it. */
  lemma EncodeParse(bytes: Bytes)
    requires Parse(bytes).Some?
    ensures var (w, rest) := Parse(bytes).value; w.Valid() && w.Encode() + rest == bytes
  {
    var (w, rest) := Parse(bytes).value;
    ParsedParts(bytes);
    ParsedBody(bytes);
    Reassembled(bytes, 2 + w.form.Width(), w.Head(), w.Second(), BigEndian(|w.payload|, w.form.Width()), w.Body(),
                rest);
  }

  lemma ParsedBody(bytes: Bytes)
    requires Parse(bytes).Some?
    ensures var (w, rest) := Parse(bytes).value;
            2 + w.form.Width() <= |bytes| && bytes[2 + w.form.Width()..] == w.Body() + rest
  {
    var h := ParseHeader(bytes).value;
    BodyParts(bytes, h.start, h.n, bytes[1] >= 128);
  }

  lemma BodyParts(bytes: Bytes, start: nat, n: nat, masked: bool)
    requires start <= |bytes| && ParseBody(bytes, start, n, masked).Some?
    ensures var (mask, payload, rest) := ParseBody(bytes, start, n, masked).value;
            bytes[start..] == (match mask case None => payload case Some(m) => m.All() + Masked(payload, m)) + rest
  {
    if masked {
      var mask := MaskAt(bytes, start);
      MaskTwice(bytes[start + 4..start + 4 + n], mask);
      assert bytes[start..] == mask.All() + bytes[start + 4..start + 4 + n] + bytes[start + 4 + n..];
    } else {
      assert bytes[start..] == bytes[start..start + n] + bytes[start + n..];
    }
  }

  lemma Reassembled(bytes: Bytes, start: nat, h: Byte, s: Byte, length: Bytes, body: Bytes, rest: Bytes)
    requires 2 <= start <= |bytes| && bytes[0] == h && bytes[1] == s
    requires bytes[2..start] == length && bytes[start..] == body + rest
    ensures [h, s] + length + body + rest == bytes
  {
    assert bytes == [h, s] + bytes[2..start] + bytes[start..];
  }

  // ---- what the client writes ----

  /** The frame writeFrame puts on the wire: final, masked, in the shortest form. */
  function ClientFrame(opcode: nat, payload: Bytes, mask: Mask): Wire {
    Wire(true, 0, opcode, Some(mask), Minimal(|payload|), payload)
  }

  /** Every opcode, payload and mask comes back from the reference decoder with the minimal length form. */
  lemma ClientFrameDecodes(opcode: nat, payload: Bytes, mask: Mask, rest: Bytes)
    requires opcode < 16 && |payload| < 0x1_0000_0000_0000_0000
    ensures ClientFrame(opcode, payload, mask).Valid()
    ensures var r := Parse(ClientFrame(opcode, payload, mask).Encode() + rest);
            && r.Some? && r.value.1 == rest
            && r.value.0.fin && r.value.0.opcode == opcode && r.value.0.payload == payload && r.value.0.rsv == 0
            && r.value.0.mask == Some(mask)
            && (forall f: Form | f.Fits(|payload|) :: r.value.0.form.Width() <= f.Width())
  {
    ParseEncode(ClientFrame(opcode, payload, mask), rest);
  }

  // ---- what the client reads ----

  datatype ReadError =
    | ShortRead | ReservedBits | MaskedFrame | TooLarge | ControlTooLarge | FragmentedControl
    | UnexpectedData | UnexpectedContinuation | UnknownOpcode | ServerClosed | Closed

  datatype Result<+T> = Ok(value: T) | Err(error: ReadError)

  datatype Frame = Frame(fin: bool, opcode: nat, payload: Bytes)

  /** What readFrame does once it knows the length, which it has already compared with the limit when it was 64 bits. */
  function ReadBody(fin: bool, opcode: nat, n: nat, bytes: Bytes, maxMsg: nat): (Result<Frame>, Bytes) {
    if n > maxMsg then (Err(TooLarge), bytes)
    else if opcode >= 8 && n > 125 then (Err(ControlTooLarge), bytes)
    else if opcode >= 8 && !fin then (Err(FragmentedControl), bytes)
    else if |bytes| < n then (Err(ShortRead), [])
    else (Ok(Frame(fin, opcode, bytes[..n])), bytes[n..])
  }

  /** readFrame: its result, and the bytes it has not consumed. */
  function ReadFrame(bytes: Bytes, maxMsg: nat): (Result<Frame>, Bytes) {
    if |bytes| < 2 then (Err(ShortRead), [])
    else
      var (b0, b1, after) := (bytes[0], bytes[1], bytes[2..]);
      if b0 / 16 % 8 != 0 then (Err(ReservedBits), after)
      else if b1 >= 128 then (Err(MaskedFrame), after)
      else if b1 % 128 < 126 then ReadBody(b0 >= 128, b0 % 16, b1 % 128, after, maxMsg)
      else
        var width := if b1 % 128 == 126 then 2 else 8;
        if |after| < width then (Err(ShortRead), [])
        else ReadBody(b0 >= 128, b0 % 16, FromBigEndian(after[..width]), after[width..], maxMsg)
  }

  /** A frame the client accepts. */
  predicate Acceptable(w: Wire, maxMsg: nat) {
    && w.rsv == 0 && w.mask.None? && |w.payload| <= maxMsg
    && (w.opcode >= 8 ==> |w.payload| <= 125 && w.fin)
  }

  /** readFrame accepts exactly the complete, unmasked frames within its limits, and reads them as the reference
      decoder does. Like that decoder it takes lengths not in the shortest form, and 64-bit lengths with the top
      bit set, which section 5.2 forbids senders. */
  lemma AcceptsExactly(bytes: Bytes, maxMsg: nat)
    ensures var (r, rest) := ReadFrame(bytes, maxMsg);
            && (r.Ok? <==> Parse(bytes).Some? && Acceptable(Parse(bytes).value.0, maxMsg))
            && (r.Ok? ==> var (w, after) := Parse(bytes).value;
                          r.value == Frame(w.fin, w.opcode, w.payload) && rest == after && |rest| < |bytes|)
  {
    if |bytes| >= 2 {
      var form := if bytes[1] % 128 == 126 then Medium else if bytes[1] % 128 == 127 then Long else Short;
      var start := 2 + form.Width();
      if |bytes| >= start && bytes[1] < 128 {
        assert bytes[2..][..form.Width()] == bytes[2..start];
        assert bytes[2..][form.Width()..] == bytes[start..];
        var n := if form.Short? then bytes[1] % 128 else FromBigEndian(bytes[2..start]);
        if |bytes| >= start + n {
          assert bytes[start..][..n] == bytes[start..start + n] && bytes[start..][n..] == bytes[start + n..];
        }
      }
    }
  }

  /** The server's encoding of a frame, in any length form that fits. */
  function ServerFrame(f: Frame, form: Form): Wire {
    Wire(f.fin, 0, f.opcode, None, form, f.payload)
  }

  predicate Sendable(f: Frame, form: Form, maxMsg: nat) {
    && f.opcode < 16 && form.Fits(|f.payload|) && |f.payload| <= maxMsg
    && (f.opcode >= 8 ==> |f.payload| <= 125 && f.fin)
  }

  /** readFrame inverts the unmasked encoder. */
  lemma ReadsServerFrame(f: Frame, form: Form, maxMsg: nat, rest: Bytes)
    requires Sendable(f, form, maxMsg)
    ensures ReadFrame(ServerFrame(f, form).Encode() + rest, maxMsg) == (Ok(f), rest)
  {
    ParseEncode(ServerFrame(f, form), rest);
    AcceptsExactly(ServerFrame(f, form).Encode() + rest, maxMsg);
  }

  // ---- streams of frames ----

  function Concat(parts: seq<Bytes>): Bytes {
    if parts == [] then [] else parts[0] + Concat(parts[1..])
  }

  lemma ConcatAssociates(a: Bytes, b: Bytes, c: Bytes)
    ensures a + (b + c) == (a + b) + c
  {}

  lemma {:induction false} ConcatAppend(parts: seq<Bytes>, x: Bytes)
    ensures Concat(parts + [x]) == Concat(parts) + x
    decreases |parts|
  {
    if parts == [] {
      assert (parts + [x])[1..] == [];
    } else {
      assert (parts + [x])[1..] == parts[1..] + [x];
      ConcatAppend(parts[1..], x);
      ConcatAssociates(parts[0], Concat(parts[1..]), x);
    }
  }

  ghost predicate AllEncodable(ws: seq<Wire>) { forall k | 0 <= k < |ws| :: ws[k].Valid() }

  ghost function Encodings(ws: seq<Wire>): seq<Bytes>
    requires AllEncodable(ws)
  {
    seq(|ws|, k requires 0 <= k < |ws| => ws[k].Encode())
  }

  ghost function EncodeAll(ws: seq<Wire>): Bytes
    requires AllEncodable(ws)
  {
    Concat(Encodings(ws))
  }

  lemma EncodeAllSplit(ws: seq<Wire>, rest: Bytes)
    requires ws != [] && AllEncodable(ws)
    ensures AllEncodable(ws[1..]) && EncodeAll(ws) + rest == ws[0].Encode() + (EncodeAll(ws[1..]) + rest)
  {
    assert forall k | 0 <= k < |ws[1..]| :: ws[1..][k] == ws[k + 1];
    assert Encodings(ws)[1..] == Encodings(ws[1..]);
    ConcatAssociates(ws[0].Encode(), Concat(Encodings(ws[1..])), rest);
  }

  lemma EncodeAllAppend(ws: seq<Wire>, w: Wire)
    requires AllEncodable(ws) && w.Valid()
    ensures AllEncodable(ws + [w]) && EncodeAll(ws + [w]) == EncodeAll(ws) + w.Encode()
  {
    assert Encodings(ws + [w]) == Encodings(ws) + [w.Encode()];
    ConcatAppend(Encodings(ws), w.Encode());
  }

  /** Read n frames. */
  function ReadFrames(bytes: Bytes, maxMsg: nat, n: nat): Result<(seq<Frame>, Bytes)> {
    if n == 0 then Ok(([], bytes))
    else
      match ReadFrame(bytes, maxMsg)
      case (Err(e), _) => Err(e)
      case (Ok(f), rest) =>
        match ReadFrames(rest, maxMsg, n - 1)
        case Err(e) => Err(e)
        case Ok((fs, after)) => Ok(([f] + fs, after))
  }

  /** Bytes that read as f, whatever follows them. */
  ghost predicate ReadsAs(part: Bytes, f: Frame, maxMsg: nat) {
    forall tail: Bytes :: ReadFrame(part + tail, maxMsg) == (Ok(f), tail)
  }

  lemma FirstRead(bytes: Bytes, tail: Bytes, fs: seq<Frame>, maxMsg: nat, rest: Bytes)
    requires fs != [] && ReadFrame(bytes, maxMsg) == (Ok(fs[0]), tail)
    requires ReadFrames(tail, maxMsg, |fs| - 1) == Ok((fs[1..], rest))
    ensures ReadFrames(bytes, maxMsg, |fs|) == Ok((fs, rest))
  {
    assert fs == [fs[0]] + fs[1..];
  }

  lemma {:induction false} ReadsParts(parts: seq<Bytes>, fs: seq<Frame>, maxMsg: nat, rest: Bytes)
    requires |parts| == |fs| && forall k | 0 <= k < |fs| :: ReadsAs(parts[k], fs[k], maxMsg)
    ensures ReadFrames(Concat(parts) + rest, maxMsg, |fs|) == Ok((fs, rest))
    decreases |fs|
  {
    if fs == [] {
      assert Concat(parts) + rest == rest;
    } else {
      forall k | 0 <= k < |fs[1..]| ensures ReadsAs(parts[1..][k], fs[1..][k], maxMsg) {
        assert parts[1..][k] == parts[k + 1] && fs[1..][k] == fs[k + 1];
      }
      ReadsParts(parts[1..], fs[1..], maxMsg, rest);
      var tail := Concat(parts[1..]) + rest;
      assert Concat(parts) + rest == parts[0] + tail;
      assert ReadsAs(parts[0], fs[0], maxMsg);
      FirstRead(parts[0] + tail, tail, fs, maxMsg, rest);
    }
  }

  function ServerFrames(fs: seq<Frame>, forms: seq<Form>): seq<Wire>
    requires |fs| == |forms|
  {
    seq(|fs|, k requires 0 <= k < |fs| => ServerFrame(fs[k], forms[k]))
  }

  /** A concatenation of frames, each in any length form, reads back as exactly those frames. */
  lemma ReadsConcatenation(fs: seq<Frame>, forms: seq<Form>, maxMsg: nat, rest: Bytes)
    requires |fs| == |forms| && forall k | 0 <= k < |fs| :: Sendable(fs[k], forms[k], maxMsg)
    ensures AllEncodable(ServerFrames(fs, forms))
    ensures ReadFrames(EncodeAll(ServerFrames(fs, forms)) + rest, maxMsg, |fs|) == Ok((fs, rest))
  {
    var ws := ServerFrames(fs, forms);
    forall k | 0 <= k < |fs| ensures ws[k].Valid() && ReadsAs(ws[k].Encode(), fs[k], maxMsg) {
      forall tail: Bytes ensures ReadFrame(ws[k].Encode() + tail, maxMsg) == (Ok(fs[k]), tail) {
        ReadsServerFrame(fs[k], forms[k], maxMsg, tail);
      }
    }
    ReadsParts(Encodings(ws), fs, maxMsg, rest);
  }

  /** The first n frames off a stream, as the reference decoder reads them. */
  function ParseFrames(bytes: Bytes, n: nat): Option<(seq<Wire>, Bytes)> {
    if n == 0 then Some(([], bytes))
    else
      match Parse(bytes)
      case None => None
      case Some((w, rest)) =>
        match ParseFrames(rest, n - 1)
        case None => None
        case Some((ws, after)) => Some(([w] + ws, after))
  }

  ghost predicate ParsesAs(part: Bytes, w: Wire) {
    forall tail: Bytes :: Parse(part + tail) == Some((w, tail))
  }

  lemma FirstParse(bytes: Bytes, tail: Bytes, ws: seq<Wire>, rest: Bytes)
    requires ws != [] && Parse(bytes) == Some((ws[0], tail)) && ParseFrames(tail, |ws| - 1) == Some((ws[1..], rest))
    ensures ParseFrames(bytes, |ws|) == Some((ws, rest))
  {
    assert ws == [ws[0]] + ws[1..];
  }

  lemma {:induction false} ParsesParts(parts: seq<Bytes>, ws: seq<Wire>, rest: Bytes)
    requires |parts| == |ws| && forall k | 0 <= k < |ws| :: ParsesAs(parts[k], ws[k])
    ensures ParseFrames(Concat(parts) + rest, |ws|) == Some((ws, rest))
    decreases |ws|
  {
    if ws == [] {
      assert Concat(parts) + rest == rest;
    } else {
      forall k | 0 <= k < |ws[1..]| ensures ParsesAs(parts[1..][k], ws[1..][k]) {
        assert parts[1..][k] == parts[k + 1] && ws[1..][k] == ws[k + 1];
      }
      ParsesParts(parts[1..], ws[1..], rest);
      var tail := Concat(parts[1..]) + rest;
      assert Concat(parts) + rest == parts[0] + tail;
      assert ParsesAs(parts[0], ws[0]);
      FirstParse(parts[0] + tail, tail, ws, rest);
    }
  }

  /** A concatenation of frames, masked or not, decodes to exactly those frames. */
  lemma ParsesConcatenation(ws: seq<Wire>, rest: Bytes)
    requires AllEncodable(ws)
    ensures ParseFrames(EncodeAll(ws) + rest, |ws|) == Some((ws, rest))
  {
    forall k | 0 <= k < |ws| ensures ParsesAs(ws[k].Encode(), ws[k]) {
      forall tail: Bytes ensures Parse(ws[k].Encode() + tail) == Some((ws[k], tail)) {
        ParseEncode(ws[k], tail);
      }
    }
    ParsesParts(Encodings(ws), ws, rest);
  }
}
