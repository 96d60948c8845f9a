/** The reliable wire format: `[payload length : u32 BE][channel : u8][payload]`.

    `Decode` is the reference reader. It consumes a byte sequence in one go, and
    both incremental readers (the native `FrameReader` and the browser plugin)
    are proved to agree with it however their input is cut into chunks.
 */
module Framing {

  type byte = b: int | 0 <= b < 256

  const HEADER_LEN := 5
  const U32 := 0x1_0000_0000

  datatype Message = Message(channel: byte, payload: seq<byte>)

  // -------------------------------------------------------------------------
  // Encoding
  // -------------------------------------------------------------------------

  /** The four bytes of `n as u32`, most significant first. */
  function BigEndian(n: nat): (r: seq<byte>)
    ensures |r| == 4
  {
    [n / 0x100_0000 % 256, n / 0x1_0000 % 256, n / 0x100 % 256, n % 256]
  }

  function FromBigEndian(b0: byte, b1: byte, b2: byte, b3: byte): (r: nat)
    ensures r < U32
  {
    b0 * 0x100_0000 + b1 * 0x1_0000 + b2 * 0x100 + b3
  }

  /** What `write_frame` produces; the length is truncated to 32 bits. */
  function EncodeFrame(m: Message): (r: seq<byte>)
    ensures |r| == HEADER_LEN + |m.payload|
  {
    BigEndian(|m.payload|) + [m.channel] + m.payload
  }

  function EncodeAll(ms: seq<Message>): (r: seq<byte>) {
    if ms == [] then [] else EncodeFrame(ms[0]) + EncodeAll(ms[1..])
  }

  /** Messages with an empty payload travel on the wire but are never delivered. */
  function NonEmpty(ms: seq<Message>): (r: seq<Message>)
    ensures |r| <= |ms|
  {
    if ms == [] then []
    else (if ms[0].payload == [] then [] else [ms[0]]) + NonEmpty(ms[1..])
  }

  ghost predicate WithinLimit(ms: seq<Message>, limit: nat) {
    forall m :: m in ms ==> |m.payload| <= limit
  }

  function Flatten<T>(chunks: seq<seq<T>>): (r: seq<T>) {
    if chunks == [] then [] else chunks[0] + Flatten(chunks[1..])
  }

  // -------------------------------------------------------------------------
  // Decoding
  // -------------------------------------------------------------------------

  /** What the front of the unread bytes amounts to. */
  datatype Head = NeedMore | TooLarge(announced: nat) | Complete(message: Message)

  function Announced(bytes: seq<byte>): (r: nat)
    requires |bytes| >= HEADER_LEN
    ensures r < U32
  {
    FromBigEndian(bytes[0], bytes[1], bytes[2], bytes[3])
  }

  function Scan(bytes: seq<byte>, limit: nat): (r: Head)
    ensures r.Complete? ==> HEADER_LEN + |r.message.payload| <= |bytes| && |r.message.payload| <= limit
  {
    if |bytes| < HEADER_LEN then NeedMore
    else
      var length := Announced(bytes);
      if length > limit then TooLarge(length)
      else if |bytes| < HEADER_LEN + length then NeedMore
      else Complete(Message(bytes[4], bytes[HEADER_LEN..HEADER_LEN + length]))
  }

  /** All complete frames (the empty ones included), the bytes left over, and
      whether reading stopped at a header that announces too much. */
  datatype Decoded = Decoded(frames: seq<Message>, rest: seq<byte>, tooLarge: bool)
  {
    function Delivered(): (r: seq<Message>) { NonEmpty(frames) }

    /** The same outcome with `earlier` read first. */
    function After(earlier: seq<Message>): (r: Decoded) { this.(frames := earlier + frames) }
  }

  function Decode(bytes: seq<byte>, limit: nat): (r: Decoded)
    decreases |bytes|
  {
    match Scan(bytes, limit)
    case NeedMore => Decoded([], bytes, false)
    case TooLarge(_) => Decoded([], bytes, true)
    case Complete(m) =>
      Decode(bytes[HEADER_LEN + |m.payload|..], limit).After([m])
  }

  // -------------------------------------------------------------------------
  // Properties
  // -------------------------------------------------------------------------

  lemma BigEndianRoundTrip(n: nat)
    requires n < U32
    ensures var b := BigEndian(n); FromBigEndian(b[0], b[1], b[2], b[3]) == n
  {
    var h1, h2, h3 := n / 0x100, n / 0x1_0000, n / 0x100_0000;
    assert n == 0x100 * h1 + n % 256;
    assert h1 == 0x100 * h2 + h1 % 256;
    assert h2 == 0x100 * h3 + h2 % 256;
    assert h3 % 256 == h3;
  }

  lemma FromBigEndianRoundTrip(b0: byte, b1: byte, b2: byte, b3: byte)
    ensures BigEndian(FromBigEndian(b0, b1, b2, b3)) == [b0, b1, b2, b3]
  {
    var n := FromBigEndian(b0, b1, b2, b3);
    assert n / 0x100_0000 == b0;
    assert n / 0x1_0000 == b0 * 256 + b1;
    assert n / 0x100 == b0 * 0x1_0000 + b1 * 256 + b2;
  }

  lemma NonEmptyConcat(a: seq<Message>, b: seq<Message>)
    ensures NonEmpty(a + b) == NonEmpty(a) + NonEmpty(b)
  {
    if a == [] {
      assert a + b == b;
    } else {
      assert (a + b)[1..] == a[1..] + b;
      NonEmptyConcat(a[1..], b);
    }
  }

  lemma EncodeAllConcat(a: seq<Message>, b: seq<Message>)
    ensures EncodeAll(a + b) == EncodeAll(a) + EncodeAll(b)
  {
    if a == [] {
      assert a + b == b;
    } else {
      assert (a + b)[1..] == a[1..] + b;
      EncodeAllConcat(a[1..], b);
    }
  }

  lemma FlattenConcat<T>(a: seq<seq<T>>, b: seq<seq<T>>)
    ensures Flatten(a + b) == Flatten(a) + Flatten(b)
  {
    if a == [] {
      assert a + b == b;
    } else {
      assert (a + b)[1..] == a[1..] + b;
      FlattenConcat(a[1..], b);
    }
  }

  lemma FlattenSnoc<T>(a: seq<seq<T>>, c: seq<T>)
    ensures Flatten(a + [c]) == Flatten(a) + c
  {
    FlattenConcat(a, [c]);
    assert Flatten([c]) == c + Flatten<T>([]);
  }

  /** More bytes never change what an already readable front amounts to. */
  lemma ScanExtends(a: seq<byte>, b: seq<byte>, limit: nat)
    requires !Scan(a, limit).NeedMore?
    ensures Scan(a + b, limit) == Scan(a, limit)
  {
    if Scan(a, limit).Complete? {
      var n := HEADER_LEN + Announced(a);
      assert (a + b)[HEADER_LEN..n] == a[HEADER_LEN..n];
    }
  }

  /** Scanning from `start`, in terms of positions in the whole buffer. */
  lemma ScanAt(buffer: seq<byte>, start: nat, limit: nat)
    requires start <= |buffer|
    ensures Scan(buffer[start..], limit) ==
            if |buffer| - start < HEADER_LEN then NeedMore
            else
              var length := FromBigEndian(buffer[start], buffer[start + 1], buffer[start + 2], buffer[start + 3]);
              var from := start + HEADER_LEN;
              if length > limit then TooLarge(length)
              else if |buffer| - from < length then NeedMore
              else Complete(Message(buffer[start + 4], buffer[from..from + length]))
    ensures forall n :: 0 <= n <= |buffer| - start ==> buffer[start..][n..] == buffer[start + n..]
  {
    var bytes := buffer[start..];
    if |bytes| >= HEADER_LEN && HEADER_LEN + Announced(bytes) <= |bytes| {
      var n := HEADER_LEN + Announced(bytes);
      assert bytes[HEADER_LEN..n] == buffer[start + HEADER_LEN..start + n];
    }
  }

  lemma ScanEncoded(m: Message, tail: seq<byte>, limit: nat)
    requires |m.payload| <= limit < U32
    ensures Scan(EncodeFrame(m) + tail, limit) == Complete(m)
    ensures (EncodeFrame(m) + tail)[HEADER_LEN + |m.payload|..] == tail
  {
    BigEndianRoundTrip(|m.payload|);
    var bytes := EncodeFrame(m) + tail;
    assert bytes[HEADER_LEN..HEADER_LEN + |m.payload|] == m.payload;
  }

  lemma AfterAfter(d: Decoded, late: seq<Message>, early: seq<Message>)
    ensures d.After(late).After(early) == d.After(early + late)
  {
    assert early + (late + d.frames) == early + late + d.frames;
  }

  lemma AfterNothing(d: Decoded)
    ensures d.After([]) == d
  {
    assert [] + d.frames == d.frames;
  }

  /** Reading `a` and then `b` is reading `a + b`: the reader can be suspended
      between any two bytes. */
  lemma {:induction false} DecodeSplit(a: seq<byte>, b: seq<byte>, limit: nat)
    ensures var da := Decode(a, limit);
            Decode(a + b, limit) ==
            if da.tooLarge then da.(rest := da.rest + b)
            else Decode(da.rest + b, limit).After(da.frames)
    decreases |a|
  {
    if !Scan(a, limit).NeedMore? {
      ScanExtends(a, b, limit);
    }
    if Scan(a, limit).Complete? {
      var n := HEADER_LEN + |Scan(a, limit).message.payload|;
      var after := a[n..];
      assert (a + b)[n..] == after + b;
      DecodeSplit(after, b, limit);
      var da := Decode(after, limit);
      if !da.tooLarge {
        AfterAfter(Decode(da.rest + b, limit), da.frames, [Scan(a, limit).message]);
      }
    } else {
      AfterNothing(Decode(a + b, limit));
    }
  }

  lemma SplitInFour<T>(s: seq<T>, i: nat, j: nat, k: nat)
    requires i <= j <= k <= |s|
    ensures s == s[..i] + s[i..j] + s[j..k] + s[k..]
  {
  }

  lemma AnnouncedRoundTrip(bytes: seq<byte>)
    requires |bytes| >= HEADER_LEN
    ensures BigEndian(Announced(bytes)) == bytes[..4]
  {
    FromBigEndianRoundTrip(bytes[0], bytes[1], bytes[2], bytes[3]);
  }

  /** A readable front is exactly the encoding of its message. */
  lemma ReencodeHead(bytes: seq<byte>, limit: nat)
    requires Scan(bytes, limit).Complete?
    ensures var m := Scan(bytes, limit).message;
            bytes == EncodeFrame(m) + bytes[HEADER_LEN + |m.payload|..]
  {
    AnnouncedRoundTrip(bytes);
    SplitInFour(bytes, 4, 5, HEADER_LEN + Announced(bytes));
    assert bytes[4..5] == [bytes[4]];
  }

  lemma EncodeAllCons(m: Message, ms: seq<Message>)
    ensures EncodeAll([m] + ms) == EncodeFrame(m) + EncodeAll(ms)
  {
    assert ([m] + ms)[1..] == ms;
  }

  lemma {:induction false} DecodeStops(bytes: seq<byte>, limit: nat)
    ensures var d := Decode(bytes, limit);
            && WithinLimit(d.frames, limit)
            && !Scan(d.rest, limit).Complete?
            && (d.tooLarge <==> Scan(d.rest, limit).TooLarge?)
    decreases |bytes|
  {
    if Scan(bytes, limit).Complete? {
      DecodeStops(bytes[HEADER_LEN + |Scan(bytes, limit).message.payload|..], limit);
    }
  }

  /** Decoding is a factorisation: the frames re-encode to exactly the consumed
      bytes (each respects the limit, and what is left really is unreadable, by
      `DecodeStops`). */
  lemma {:induction false} DecodeIsExact(bytes: seq<byte>, limit: nat)
    ensures var d := Decode(bytes, limit); EncodeAll(d.frames) + d.rest == bytes
    decreases |bytes|
  {
    if Scan(bytes, limit).Complete? {
      var m := Scan(bytes, limit).message;
      var after := bytes[HEADER_LEN + |m.payload|..];
      var d := Decode(after, limit);
      calc {
        EncodeAll([m] + d.frames) + d.rest;
        { EncodeAllCons(m, d.frames); }
        (EncodeFrame(m) + EncodeAll(d.frames)) + d.rest;
        EncodeFrame(m) + (EncodeAll(d.frames) + d.rest);
        { DecodeIsExact(after, limit); }
        EncodeFrame(m) + after;
        { ReencodeHead(bytes, limit); }
        bytes;
      }
    }
  }

  lemma DecodeOneMore(m: Message, after: seq<byte>, limit: nat)
    requires |m.payload| <= limit < U32
    ensures Decode(EncodeFrame(m) + after, limit) == Decode(after, limit).After([m])
  {
    ScanEncoded(m, after, limit);
  }

  /** Round trip, in front of an arbitrary tail. */
  lemma {:induction false} DecodeEncoded(ms: seq<Message>, tail: seq<byte>, limit: nat)
    requires WithinLimit(ms, limit) && limit < U32
    ensures Decode(EncodeAll(ms) + tail, limit) == Decode(tail, limit).After(ms)
  {
    if ms == [] {
      assert EncodeAll(ms) + tail == tail;
      AfterNothing(Decode(tail, limit));
    } else {
      var m, later := ms[0], ms[1..];
      var e, es := EncodeFrame(m), EncodeAll(later);
      assert EncodeAll(ms) + tail == e + (es + tail);
      DecodeOneMore(m, es + tail, limit);
      DecodeEncoded(later, tail, limit);
      AfterAfter(Decode(tail, limit), later, [m]);
      assert [m] + later == ms;
    }
  }

  /** Prefix safety: whatever prefix of an encoded stream has arrived, the
      messages decoded so far are a prefix of those sent, none is torn, and the
      reader never reports a violation. */
  lemma PrefixSafety(ms: seq<Message>, prefix: seq<byte>, limit: nat)
    requires WithinLimit(ms, limit) && limit < U32
    requires prefix <= EncodeAll(ms)
    ensures var d := Decode(prefix, limit);
            && !d.tooLarge
            && d.frames <= ms
            && d.Delivered() <= NonEmpty(ms)
  {
    var rest := EncodeAll(ms)[|prefix|..];
    assert EncodeAll(ms) == prefix + rest;
    assert EncodeAll(ms) + [] == EncodeAll(ms);
    DecodeEncoded(ms, [], limit);
    assert ms + [] == ms;
    DecodeSplit(prefix, rest, limit);
    var d := Decode(prefix, limit);
    assert ms == d.frames + ms[|d.frames|..];
    NonEmptyConcat(d.frames, ms[|d.frames|..]);
  }

  // -------------------------------------------------------------------------
  // Incremental reading
  // -------------------------------------------------------------------------

  /** What one attempt to pop a message yields. Empty frames are skipped. */
  datatype Next = Nothing | Violation(announced: nat) | Got(message: Message)

  /** One attempt, together with the bytes that remain unread after it. */
  function NextMessage(bytes: seq<byte>, limit: nat): (r: (Next, seq<byte>))
    ensures r.0.Got? ==> |r.1| < |bytes|
    decreases |bytes|
  {
    match Scan(bytes, limit)
    case NeedMore => (Nothing, bytes)
    case TooLarge(announced) => (Violation(announced), bytes)
    case Complete(m) =>
      var after := bytes[HEADER_LEN + |m.payload|..];
      if m.payload == [] then NextMessage(after, limit) else (Got(m), after)
  }

  lemma DeliveredAfter(d: Decoded, m: Message)
    ensures d.After([m]).Delivered() == (if m.payload == [] then [] else [m]) + d.Delivered()
  {
    NonEmptyConcat([m], d.frames);
    assert NonEmpty([m]) == if m.payload == [] then [] else [m];
  }

  /** Popping one message at a time is decoding. */
  lemma {:induction false} NextMessageIsDecode(bytes: seq<byte>, limit: nat)
    ensures var (next, rest) := NextMessage(bytes, limit);
            var d := Decode(bytes, limit);
            match next
            case Nothing => d.Delivered() == [] && !d.tooLarge && d.rest == rest
            case Violation(announced) =>
              d.Delivered() == [] && d.tooLarge && d.rest == rest && Scan(rest, limit) == TooLarge(announced)
            case Got(m) =>
              var later := Decode(rest, limit);
              d.Delivered() == [m] + later.Delivered() && d.tooLarge == later.tooLarge && d.rest == later.rest
    decreases |bytes|
  {
    if Scan(bytes, limit).Complete? {
      var m := Scan(bytes, limit).message;
      var after := bytes[HEADER_LEN + |m.payload|..];
      DeliveredAfter(Decode(after, limit), m);
      if m.payload == [] {
        NextMessageIsDecode(after, limit);
      }
    }
  }

  /** An incremental reader: `rest` is what it holds on to between chunks, and
      it stops at the first violation. */
  function Feed(rest: seq<byte>, chunks: seq<seq<byte>>, limit: nat): (r: Decoded)
    decreases |chunks|
  {
    if chunks == [] then Decoded([], rest, false)
    else
      var d := Decode(rest + chunks[0], limit);
      if d.tooLarge then d else Feed(d.rest, chunks[1..], limit).After(d.frames)
  }

  /** Chunking is invisible: the same messages and the same verdict as decoding
      the whole stream at once. */
  lemma {:induction false} FeedIsDecode(rest: seq<byte>, chunks: seq<seq<byte>>, limit: nat)
    requires Scan(rest, limit).NeedMore?
    ensures var f, d := Feed(rest, chunks, limit), Decode(rest + Flatten(chunks), limit);
            && f.frames == d.frames
            && f.tooLarge == d.tooLarge
            && (!d.tooLarge ==> f.rest == d.rest)
    decreases |chunks|
  {
    if chunks == [] {
      assert rest + Flatten(chunks) == rest;
    } else {
      var here, later := rest + chunks[0], Flatten(chunks[1..]);
      assert rest + Flatten(chunks) == here + later;
      DecodeSplit(here, later, limit);
      DecodeStops(here, limit);
      if !Decode(here, limit).tooLarge {
        FeedIsDecode(Decode(here, limit).rest, chunks[1..], limit);
      }
    }
  }
}
