/** The HTTP/3 response parser of the interop client (qns/h3client.py): variable-length integers
    (section 16 of RFC 9000), frames (section 7.1 of RFC 9114), and a parser fed in chunks. */
module Http3 {
  import opened Events

  datatype Option<T> = None | Some(value: T)

  const FRAME_DATA: nat := 0x0
  const FRAME_HEADERS: nat := 0x1
  const VARINT_END: nat := 0x4000_0000_0000_0000

  // ---- variable-length integers --------------------------------------------------------------

  /** to_bytes(n, "big"). */
  function BigEndian(v: nat, n: nat): seq<Byte> {
    if n == 0 then [] else BigEndian(v / 256, n - 1) + [v % 256]
  }

  /** encode_varint; None is the ValueError. */
  function EncodeVarint(v: nat): Option<seq<Byte>> {
    if v < 0x40 then Some(BigEndian(v, 1))
    else if v < 0x4000 then Some(BigEndian(v + 0x4000, 2))
    else if v < 0x4000_0000 then Some(BigEndian(v + 0x8000_0000, 4))
    else if v < VARINT_END then Some(BigEndian(v + 0xC000_0000_0000_0000, 8))
    else None
  }

  function VarintSize(first: Byte): nat {
    if first < 0x40 then 1 else if first < 0x80 then 2 else if first < 0xC0 then 4 else 8
  }

  /** The bytes read as a big-endian number behind v. */
  function Shifted(v: nat, s: seq<Byte>): nat
    decreases |s|
  {
    if s == [] then v else Shifted(v, s[..|s| - 1]) * 256 + s[|s| - 1]
  }

  /** What a varint at pos is: its value and the next position, None if buf ends inside it. */
  function Varint(buf: seq<Byte>, pos: nat): Option<(nat, nat)> {
    if pos >= |buf| then None
    else
      var size := VarintSize(buf[pos]);
      if pos + size > |buf| then None
      else Some((Shifted(buf[pos] % 0x40, buf[pos + 1..pos + size]), pos + size))
  }

  /** decode_varint. */
  method DecodeVarint(buf: seq<Byte>, pos: nat) returns (r: Option<(nat, nat)>)
    ensures r == Varint(buf, pos)
  {
    if pos >= |buf| {
      return None;
    }
    var size := VarintSize(buf[pos]);
    if pos + size > |buf| {
      return None;
    }
    var value: nat := buf[pos] % 0x40;
    for i := 1 to size
      invariant value == Shifted(buf[pos] % 0x40, buf[pos + 1..pos + i])
    {
      assert buf[pos + 1..pos + i + 1] == buf[pos + 1..pos + i] + [buf[pos + i]];
      assert (buf[pos + 1..pos + i] + [buf[pos + i]])[..i - 1] == buf[pos + 1..pos + i];
      value := value * 256 + buf[pos + i];
    }
    return Some((value, pos + size));
  }

  /** A varint is self-delimiting: longer buffers read the same, no strict prefix decodes. */
  lemma VarintPrefix(buf: seq<Byte>, pos: nat, more: seq<Byte>)
    requires Varint(buf, pos).Some?
    ensures Varint(buf + more, pos) == Varint(buf, pos)
    ensures forall n: nat :: pos <= n < Varint(buf, pos).value.1 ==> Varint(buf[..n], pos) == None
  {
    var size := VarintSize(buf[pos]);
    assert (buf + more)[pos + 1..pos + size] == buf[pos + 1..pos + size];
  }

  function Power(n: nat): nat { if n == 0 then 1 else 256 * Power(n - 1) }

  lemma {:induction false} BigEndianLength(v: nat, n: nat)
    ensures |BigEndian(v, n)| == n
  {
    if n > 0 { BigEndianLength(v / 256, n - 1); }
  }

  lemma {:induction false} ShiftedBigEndian(v: nat, n: nat)
    requires v < Power(n)
    ensures |BigEndian(v, n)| == n && Shifted(0, BigEndian(v, n)) == v
  {
    if n > 0 {
      ShiftedBigEndian(v / 256, n - 1);
      var s := BigEndian(v / 256, n - 1);
      assert (s + [v % 256])[..n - 1] == s;
    }
  }

  lemma {:induction false} ShiftedSplit(a: nat, s: seq<Byte>)
    requires s != []
    ensures Shifted(a, s) == Shifted(a * 256 + s[0], s[1..])
    decreases |s|
  {
    if |s| == 1 {
      assert s[..0] == [] && s[1..] == [];
    } else {
      var front := s[..|s| - 1];
      ShiftedSplit(a, front);
      assert s[1..][..|s| - 2] == front[1..];
    }
  }

  /** Clearing the two length bits of the first byte takes the marker off the value. */
  lemma {:induction false} MarkerOff(a: nat, b: nat, s: seq<Byte>)
    requires b <= a
    ensures Shifted(a, s) == Shifted(b, s) + (a - b) * Power(|s|)
    decreases |s|
  {
    if s != [] {
      var front := s[..|s| - 1];
      MarkerOff(a, b, front);
      assert Power(|s|) == 256 * Power(|front|);
      assert (a - b) * Power(|s|) == 256 * ((a - b) * Power(|front|));
    }
  }

  lemma {:induction false} ShiftedBounds(a: nat, s: seq<Byte>)
    ensures a * Power(|s|) <= Shifted(a, s) < (a + 1) * Power(|s|)
    decreases |s|
  {
    if s != [] {
      var front := s[..|s| - 1];
      ShiftedBounds(a, front);
      assert Power(|s|) == 256 * Power(|front|);
      assert a * Power(|s|) == 256 * (a * Power(|front|));
      assert (a + 1) * Power(|s|) == 256 * ((a + 1) * Power(|front|));
    }
  }

  lemma Powers()
    ensures Power(0) == 1 && Power(1) == 0x100 && Power(2) == 0x1_0000 && Power(3) == 0x100_0000
    ensures Power(4) == 0x1_0000_0000 && Power(7) == 0x100_0000_0000_0000 && Power(8) == 0x1_0000_0000_0000_0000
  {
    assert Power(2) == 256 * Power(1) && Power(3) == 256 * Power(2) && Power(4) == 256 * Power(3);
    assert Power(5) == 256 * Power(4) && Power(6) == 256 * Power(5) && Power(7) == 256 * Power(6);
    assert Power(8) == 256 * Power(7);
  }

  lemma MulMono(a: nat, b: nat, p: nat)
    requires a <= b
    ensures a * p <= b * p
  {
    assert (b - a) * p >= 0;
    assert b * p == a * p + (b - a) * p;
  }

  lemma Distribute(a: nat, b: nat, p: nat)
    ensures (a + b) * p == a * p + b * p
  {
  }

  lemma ProductOrder(a: nat, b: nat, p: nat)
    ensures a * p < b * p ==> a < b
  {
    if a >= b { MulMono(b, a, p); }
  }

  /** The first digit of a number just above m * p. */
  lemma FirstDigit(d: nat, m: nat, v: nat, p: nat)
    requires v < 0x40 * p && d * p <= v + m * p < (d + 1) * p
    ensures m <= d < m + 0x40
  {
    ProductOrder(m, d + 1, p);
    Distribute(m, 0x40, p);
    ProductOrder(d, m + 0x40, p);
  }

  lemma ClearMark(d: nat, m: nat)
    requires m % 0x40 == 0 && m <= d < m + 0x40
    ensures d - d % 0x40 == m
  {
  }

  lemma MarkFits(v: nat, m: nat, p: nat)
    requires m <= 0xC0 && v < 0x40 * p
    ensures v + m * p < 256 * p
  {
    MulMono(m, 0xC0, p);
  }

  /** A number's digits with the mark cleared from the first. */
  lemma Unmarked(s: seq<Byte>, m: nat, v: nat)
    requires s != [] && m % 0x40 == 0 && v < 0x40 * Power(|s| - 1)
    requires Shifted(0, s) == v + m * Power(|s| - 1)
    ensures m <= s[0] < m + 0x40 && Shifted(s[0] % 0x40, s[1..]) == v
  {
    var d: nat, rest, p := s[0], s[1..], Power(|s| - 1);
    ShiftedSplit(0, s);
    ShiftedBounds(d, rest);
    FirstDigit(d, m, v, p);
    MarkerOff(d, d % 0x40, rest);
    ClearMark(d, m);
  }

  /** The first byte of a marked big-endian number says the length, the rest says the value. */
  lemma MarkedDigits(v: nat, m: nat, n: nat, w: nat)
    requires 0 < n && m <= 0xC0 && m % 0x40 == 0 && v < 0x40 * Power(n - 1) && w == v + m * Power(n - 1)
    ensures var s := BigEndian(w, n);
            |s| == n && m <= s[0] < m + 0x40 && Shifted(s[0] % 0x40, s[1..]) == v
  {
    MarkFits(v, m, Power(n - 1));
    ShiftedBigEndian(w, n);
    Unmarked(BigEndian(w, n), m, v);
  }

  lemma VarintWhole(s: seq<Byte>)
    requires s != [] && |s| == VarintSize(s[0])
    ensures Varint(s, 0) == Some((Shifted(s[0] % 0x40, s[1..]), |s|))
  {
    assert s[0 + 1..0 + |s|] == s[1..];
  }

  /** The first byte tells the size, and decoding gives the value back. */
  lemma EncodedVarint(v: nat)
    ensures EncodeVarint(v).Some? <==> v < VARINT_END
    ensures v < VARINT_END ==> var s := EncodeVarint(v).value; Varint(s, 0) == Some((v, |s|)) && |s| > 0
  {
    Powers();
    if v < 0x40 {
      MarkedDigits(v, 0, 1, v);
      VarintWhole(BigEndian(v, 1));
    } else if v < 0x4000 {
      MarkedDigits(v, 0x40, 2, v + 0x4000);
      VarintWhole(BigEndian(v + 0x4000, 2));
    } else if v < 0x4000_0000 {
      MarkedDigits(v, 0x80, 4, v + 0x8000_0000);
      VarintWhole(BigEndian(v + 0x8000_0000, 4));
    } else if v < VARINT_END {
      MarkedDigits(v, 0xC0, 8, v + 0xC000_0000_0000_0000);
      VarintWhole(BigEndian(v + 0xC000_0000_0000_0000, 8));
    }
  }

  /** ... anywhere in a buffer. */
  lemma VarintAt(before: seq<Byte>, v: nat, after: seq<Byte>)
    requires v < VARINT_END && EncodeVarint(v).Some?
    ensures var s := EncodeVarint(v).value;
            Varint(before + s + after, |before|) == Some((v, |before| + |s|))
  {
    EncodedVarint(v);
    var s := EncodeVarint(v).value;
    var buf := before + s + after;
    assert buf[|before|] == s[0];
    assert buf[|before| + 1..|before| + |s|] == s[1..];
    assert s[1..] == s[0 + 1..0 + |s|];
  }

  // ---- frames --------------------------------------------------------------------------------

  datatype Frame = Frame(kind: nat, payload: seq<Byte>)

  predicate Sendable(f: Frame) { f.kind < VARINT_END && |f.payload| < VARINT_END }

  /** encode_frame. */
  function EncodeFrame(f: Frame): seq<Byte>
    requires Sendable(f)
  {
    EncodedVarint(f.kind);
    EncodedVarint(|f.payload|);
    EncodeVarint(f.kind).value + EncodeVarint(|f.payload|).value + f.payload
  }

  /** The frame at the front of the buffer and where it ends; None while it is incomplete. */
  function FrontFrame(buf: seq<Byte>): (r: Option<(Frame, nat)>)
    ensures r.Some? ==> 0 < r.value.1 <= |buf|
  {
    var head := Varint(buf, 0);
    if head.None? then None
    else
      var length := Varint(buf, head.value.1);
      if length.None? then None
      else
        var start: nat, end: nat := length.value.1, length.value.1 + length.value.0;
        if end > |buf| then None else Some((Frame(head.value.0, buf[start..end]), end))
  }

  /** A complete frame reads the same however much follows it. */
  lemma FrontFrameStays(buf: seq<Byte>, more: seq<Byte>)
    requires FrontFrame(buf).Some?
    ensures FrontFrame(buf + more) == FrontFrame(buf)
  {
    var head := Varint(buf, 0);
    VarintPrefix(buf, 0, more);
    VarintPrefix(buf, head.value.1, more);
    var length := Varint(buf, head.value.1);
    var start, end := length.value.1, length.value.1 + length.value.0;
    assert (buf + more)[start..end] == buf[start..end];
  }

  lemma FrontFrameIs(buf: seq<Byte>, kind: nat, at: nat, start: nat, payload: seq<Byte>)
    requires Varint(buf, 0) == Some((kind, at)) && Varint(buf, at) == Some((|payload|, start))
    requires start + |payload| <= |buf| && buf[start..start + |payload|] == payload
    ensures FrontFrame(buf) == Some((Frame(kind, payload), start + |payload|))
  {
  }

  lemma Layout(a: seq<Byte>, b: seq<Byte>, c: seq<Byte>, d: seq<Byte>)
    ensures var buf := a + b + c + d;
            && buf == [] + a + (b + c + d) && buf == a + b + (c + d)
            && buf[|a| + |b|..|a| + |b| + |c|] == c
  {
  }

  lemma FrontFrameEncoded(f: Frame, more: seq<Byte>)
    requires Sendable(f)
    ensures FrontFrame(EncodeFrame(f) + more) == Some((f, |EncodeFrame(f)|))
  {
    EncodedVarint(f.kind);
    EncodedVarint(|f.payload|);
    var a, b, c := EncodeVarint(f.kind).value, EncodeVarint(|f.payload|).value, f.payload;
    Layout(a, b, c, more);
    VarintAt([], f.kind, b + c + more);
    VarintAt(a, |c|, c + more);
    FrontFrameIs(a + b + c + more, f.kind, |a|, |a| + |b|, c);
  }

  // ---- the parser ----------------------------------------------------------------------------

  datatype Parsed = Parsed(buf: seq<Byte>, headers: Option<seq<Byte>>, body: seq<Byte>)

  const NEW := Parsed([], None, [])

  /** What one frame adds. */
  function Take(p: Parsed, f: Frame, rest: seq<Byte>): Parsed {
    if f.kind == FRAME_HEADERS && p.headers.None? then Parsed(rest, Some(f.payload), p.body)
    else if f.kind == FRAME_DATA then Parsed(rest, p.headers, p.body + f.payload)
    else Parsed(rest, p.headers, p.body)
  }

  /** Frames are taken off the front while one is complete. */
  function Settle(p: Parsed): Parsed
    decreases |p.buf|
  {
    var front := FrontFrame(p.buf);
    if front.None? then p else Settle(Take(p, front.value.0, p.buf[front.value.1..]))
  }

  function Fed(p: Parsed, data: seq<Byte>): Parsed { Settle(p.(buf := p.buf + data)) }

  class Response {
    var buf: seq<Byte>
    var headers: Option<seq<Byte>>
    var body: seq<Byte>

    ghost function State(): Parsed
      reads this
    {
      Parsed(buf, headers, body)
    }

    constructor ()
      ensures State() == NEW
    {
      buf, headers, body := [], None, [];
    }

    /** _Response.feed. */
    method Feed(data: seq<Byte>)
      modifies this
      ensures State() == Fed(old(State()), data)
    {
      buf := buf + data;
      while true
        invariant Settle(State()) == Fed(old(State()), data)
        decreases |buf|
      {
        var head := DecodeVarint(buf, 0);
        if head.None? {
          return;
        }
        var length := DecodeVarint(buf, head.value.1);
        if length.None? {
          return;
        }
        var start, end := length.value.1, length.value.1 + length.value.0;
        if end > |buf| {
          return;
        }
        if head.value.0 == FRAME_HEADERS && headers.None? {
          headers := Some(buf[start..end]);
        } else if head.value.0 == FRAME_DATA {
          body := body + buf[start..end];
        }
        buf := buf[end..];
      }
    }
  }

  /** Bytes that follow change nothing about the frames already complete. */
  lemma {:induction false} SettleMore(p: Parsed, more: seq<Byte>)
    ensures Settle(Settle(p).(buf := Settle(p).buf + more)) == Settle(p.(buf := p.buf + more))
    decreases |p.buf|
  {
    var front := FrontFrame(p.buf);
    if front.Some? {
      FrontFrameStays(p.buf, more);
      var end := front.value.1;
      assert (p.buf + more)[end..] == p.buf[end..] + more;
      SettleMore(Take(p, front.value.0, p.buf[end..]), more);
    }
  }

  /** Feeding a then b is feeding a + b: buffer, headers and body. */
  lemma ChunkIndependent(p: Parsed, a: seq<Byte>, b: seq<Byte>)
    ensures Fed(Fed(p, a), b) == Fed(p, a + b)
  {
    SettleMore(p.(buf := p.buf + a), b);
    assert p.buf + a + b == p.buf + (a + b);
  }

  function FedAll(p: Parsed, chunks: seq<seq<Byte>>): Parsed {
    if chunks == [] then p else Fed(FedAll(p, chunks[..|chunks| - 1]), chunks[|chunks| - 1])
  }

  function Joined(chunks: seq<seq<Byte>>): seq<Byte> {
    if chunks == [] then [] else Joined(chunks[..|chunks| - 1]) + chunks[|chunks| - 1]
  }

  lemma {:induction false} ChunksDoNotMatter(chunks: seq<seq<Byte>>)
    ensures FedAll(NEW, chunks) == Fed(NEW, Joined(chunks))
    decreases |chunks|
  {
    if chunks != [] {
      var front, last := chunks[..|chunks| - 1], chunks[|chunks| - 1];
      ChunksDoNotMatter(front);
      ChunkIndependent(NEW, Joined(front), last);
    }
  }

  // ---- the parser inverts the encoder --------------------------------------------------------

  function EncodeFrames(fs: seq<Frame>): seq<Byte>
    requires forall f :: f in fs ==> Sendable(f)
  {
    if fs == [] then [] else EncodeFrame(fs[0]) + EncodeFrames(fs[1..])
  }

  /** The payload of the first HEADERS frame, and the DATA payloads joined. */
  function FirstHeaders(fs: seq<Frame>): Option<seq<Byte>> {
    if fs == [] then None else if fs[0].kind == FRAME_HEADERS then Some(fs[0].payload) else FirstHeaders(fs[1..])
  }

  function AllData(fs: seq<Frame>): seq<Byte> {
    if fs == [] then [] else (if fs[0].kind == FRAME_DATA then fs[0].payload else []) + AllData(fs[1..])
  }

  /** One encoded frame at the front is taken off. */
  lemma SettleFront(p: Parsed, f: Frame, rest: seq<Byte>)
    requires Sendable(f) && p.buf == EncodeFrame(f) + rest
    ensures Settle(p) == Settle(Take(p, f, rest))
  {
    FrontFrameEncoded(f, rest);
    assert p.buf[|EncodeFrame(f)|..] == rest;
  }

  /** ... and adds what it should. */
  lemma TakeFront(p: Parsed, fs: seq<Frame>, rest: seq<Byte>)
    requires fs != []
    ensures var q := Take(p, fs[0], rest);
            && q.body + AllData(fs[1..]) == p.body + AllData(fs)
            && (if q.headers.Some? then q.headers else FirstHeaders(fs[1..]))
               == (if p.headers.Some? then p.headers else FirstHeaders(fs))
  {
    var f, more := fs[0], AllData(fs[1..]);
    if f.kind == FRAME_DATA {
      assert p.body + f.payload + more == p.body + (f.payload + more);
    } else {
      assert [] + more == more;
    }
  }

  lemma {:induction false} SettleFrames(p: Parsed, fs: seq<Frame>)
    requires (forall f :: f in fs ==> Sendable(f)) && p.buf == EncodeFrames(fs)
    ensures Settle(p) == Parsed([], if p.headers.Some? then p.headers else FirstHeaders(fs), p.body + AllData(fs))
    decreases |fs|
  {
    if fs == [] {
      assert p.body + [] == p.body;
    } else {
      var rest := EncodeFrames(fs[1..]);
      SettleFront(p, fs[0], rest);
      TakeFront(p, fs, rest);
      SettleFrames(Take(p, fs[0], rest), fs[1..]);
    }
  }

  /** However the encoding of some frames is cut into chunks, the parser ends with the first
      HEADERS payload, the joined DATA payloads, and nothing left over. */
  lemma ParserInvertsEncoder(fs: seq<Frame>, chunks: seq<seq<Byte>>)
    requires (forall f :: f in fs ==> Sendable(f)) && Joined(chunks) == EncodeFrames(fs)
    ensures FedAll(NEW, chunks) == Parsed([], FirstHeaders(fs), AllData(fs))
  {
    ChunksDoNotMatter(chunks);
    assert NEW.buf + Joined(chunks) == Joined(chunks);
    SettleFrames(NEW.(buf := Joined(chunks)), fs);
    assert [] + AllData(fs) == AllData(fs);
  }
}
