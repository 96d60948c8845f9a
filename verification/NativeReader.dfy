/** The native side of the reliable stream: `FrameReader` and `reliable_reader`. */
module NativeReader {
  import opened Framing
  import opened Options

  const COMPACT_THRESHOLD := 64 * 1024
  const CHUNK_SIZE := 16 * 1024

  /** `n * k` by addition, so that the accounting below stays linear. */
  ghost function Times(n: nat, k: nat): (r: nat) { if n == 0 then 0 else k + Times(n - 1, k) }

  lemma TimesIsProduct(n: nat, k: nat)
    ensures Times(n, k) == n * k
  {
  }

  lemma TimesIsMonotone(n: nat, m: nat, k: nat)
    requires n <= m
    ensures Times(n, k) <= Times(m, k)
  {
  }

  /** The incremental reader. The consumed prefix `buffer[..start]` is only
      reclaimed by `Compact`. The ghost fields count what that costs. */
  class FrameReader {
    var buffer: seq<byte>
    var start: nat
    const maxPayload: nat

    ghost var reclaimed: nat  // consumed bytes no longer in the buffer
    ghost var drains: nat     // how often live bytes had to be moved
    ghost var moved: nat      // how many of them
    ghost var peak: nat       // longest the buffer has been

    ghost predicate Valid()
      reads this
    {
      && start <= |buffer| <= peak
      && drains * COMPACT_THRESHOLD <= reclaimed
      && moved <= Times(drains, maxPayload + 4)
    }

    /** The received bytes no frame has been made of yet. */
    ghost function Pending(): (r: seq<byte>)
      reads this
      requires Valid()
    {
      buffer[start..]
    }

    ghost function Received(): (r: nat)
      reads this
    {
      reclaimed + |buffer|
    }

    constructor (maxPayload: nat)
      ensures Valid() && this.maxPayload == maxPayload
      ensures Pending() == [] && peak == 0 && Received() == 0
    {
      this.maxPayload := maxPayload;
      buffer, start := [], 0;
      reclaimed, drains, moved, peak := 0, 0, 0, 0;
    }

    method Extend(data: seq<byte>)
      requires Valid()
      modifies this
      ensures Valid()
      ensures Pending() == old(Pending()) + data
      ensures |buffer| == old(|buffer|) + |data|
      ensures peak == if |buffer| > old(peak) then |buffer| else old(peak)
      ensures start == old(start) && reclaimed == old(reclaimed)
    {
      buffer := buffer + data;
      peak := if |buffer| > peak then |buffer| else peak;
    }

    /** Reads the header at `start` and, if it is all there, the frame. */
    method Peek() returns (head: Head)
      requires Valid()
      ensures head == Scan(Pending(), maxPayload)
    {
      ScanAt(buffer, start, maxPayload);
      if |buffer| - start < HEADER_LEN {
        return NeedMore;
      }
      var length := FromBigEndian(buffer[start], buffer[start + 1], buffer[start + 2], buffer[start + 3]);
      var channel := buffer[start + 4];
      if length > maxPayload {
        return TooLarge(length);
      }
      if |buffer| - start < HEADER_LEN + length {
        return NeedMore;
      }
      var payloadStart := start + HEADER_LEN;
      return Complete(Message(channel, buffer[payloadStart..payloadStart + length]));
    }

    /** Pops the next non-empty message. */
    method NextFrame() returns (r: Next)
      requires Valid()
      modifies this
      ensures Valid()
      ensures (r, Pending()) == NextMessage(old(Pending()), maxPayload)
      ensures Received() == old(Received()) && peak == old(peak)
      ensures r.Nothing? ==> start < COMPACT_THRESHOLD && |Pending()| <= maxPayload + 4
      ensures !r.Nothing? ==> buffer == old(buffer)
    {
      ghost var result := NextMessage(Pending(), maxPayload);
      while true
        invariant Valid()
        invariant NextMessage(Pending(), maxPayload) == result
        invariant unchanged(this`buffer, this`peak, this`reclaimed)
        decreases |buffer| - start
      {
        var head := Peek();
        match head
        case NeedMore =>
          Compact();
          return Nothing;
        case TooLarge(announced) =>
          return Violation(announced);
        case Complete(m) =>
          var size := HEADER_LEN + |m.payload|;
          ghost var unread := Pending();
          start := start + size;
          assert unread[size..] == Pending();
          if m.payload != [] {
            return Got(m);
          }
      }
    }

    /** Reclaims the consumed prefix, moving live bytes only when it has grown
        past the threshold. */
    method Compact()
      requires Valid()
      requires |Pending()| <= maxPayload + 4
      modifies this`buffer, this`start, this`reclaimed, this`drains, this`moved
      ensures Valid()
      ensures Pending() == old(Pending()) && Received() == old(Received())
      ensures start < COMPACT_THRESHOLD
      ensures old(moved) <= moved <= old(moved) + maxPayload + 4
      ensures moved > old(moved) ==> old(start) >= COMPACT_THRESHOLD && reclaimed == old(reclaimed) + old(start)
    {
      if start == 0 {
        return;
      }
      if start == |buffer| {
        reclaimed := reclaimed + start;
        buffer, start := [], 0;
      } else if start >= COMPACT_THRESHOLD {
        drains, moved := drains + 1, moved + (|buffer| - start);
        reclaimed := reclaimed + start;
        buffer, start := buffer[start..], 0;
      }
    }

    /** Amortised cost: moving is paid for by bytes already delivered. */
    lemma CompactionIsAmortised()
      requires Valid()
      ensures drains * COMPACT_THRESHOLD <= reclaimed
      ensures moved <= (reclaimed / COMPACT_THRESHOLD) * (maxPayload + 4)
    {
      var budget := reclaimed / COMPACT_THRESHOLD;
      assert drains <= budget;
      TimesIsMonotone(drains, budget, maxPayload + 4);
      TimesIsProduct(budget, maxPayload + 4);
    }
  }

  /** What `reliable_reader` hands on: the messages, then possibly the violation
      that ends the connection. */
  datatype Report = Report(messages: seq<Message>, violation: Option<nat>)
  {
    function After(earlier: seq<Message>): (r: Report) { this.(messages := earlier + messages) }
  }

  function ReportOf(d: Decoded, limit: nat): (r: Report) {
    Report(d.Delivered(),
           match Scan(d.rest, limit)
           case TooLarge(announced) => if d.tooLarge then Some(announced) else None
           case _ => None)
  }

  /** Popping until nothing complete is left: the report and the bytes kept. */
  function Drain(bytes: seq<byte>, limit: nat): (r: (Report, seq<byte>))
    decreases |bytes|
  {
    var (next, rest) := NextMessage(bytes, limit);
    match next
    case Nothing => (Report([], None), rest)
    case Violation(announced) => (Report([], Some(announced)), rest)
    case Got(m) =>
      var (later, left) := Drain(rest, limit);
      (later.After([m]), left)
  }

  lemma {:induction false} DrainIsDecode(bytes: seq<byte>, limit: nat)
    ensures var d := Decode(bytes, limit);
            Drain(bytes, limit) == (ReportOf(d, limit), d.rest)
    decreases |bytes|
  {
    NextMessageIsDecode(bytes, limit);
    var (next, rest) := NextMessage(bytes, limit);
    if next.Got? {
      DrainIsDecode(rest, limit);
    }
  }

  lemma AfterAfter(r: Report, late: seq<Message>, early: seq<Message>)
    ensures r.After(late).After(early) == r.After(early + late)
  {
    assert early + (late + r.messages) == early + late + r.messages;
  }

  lemma AfterNothing(messages: seq<Message>, violation: Option<nat>)
    ensures Report([], violation).After(messages) == Report(messages, violation)
  {
  }

  /** The inner loop of `reliable_reader`. */
  method PopAll(reader: FrameReader) returns (report: Report)
    requires reader.Valid()
    modifies reader
    ensures reader.Valid()
    ensures (report, reader.Pending()) == Drain(old(reader.Pending()), reader.maxPayload)
    ensures reader.Received() == old(reader.Received()) && reader.peak == old(reader.peak)
    ensures report.violation.None? ==> |reader.buffer| < COMPACT_THRESHOLD + reader.maxPayload + 4
  {
    var messages := [];
    ghost var (all, left) := Drain(reader.Pending(), reader.maxPayload);
    while true
      invariant reader.Valid() && reader.Received() == old(reader.Received()) && reader.peak == old(reader.peak)
      invariant var (later, rest) := Drain(reader.Pending(), reader.maxPayload);
                all == later.After(messages) && left == rest
      decreases |reader.Pending()|
    {
      var next := reader.NextFrame();
      match next
      case Got(m) =>
        AfterAfter(Drain(reader.Pending(), reader.maxPayload).0, [m], messages);
        messages := messages + [m];
      case Nothing =>
        AfterNothing(messages, None);
        return Report(messages, None);
      case Violation(announced) =>
        AfterNothing(messages, Some(announced));
        return Report(messages, Some(announced));
    }
  }

  /** One round of the outer loop. */
  method ReadChunk(reader: FrameReader, chunk: seq<byte>) returns (report: Report)
    requires reader.Valid() && |chunk| <= CHUNK_SIZE
    requires |reader.buffer| < COMPACT_THRESHOLD + reader.maxPayload + 4
    modifies reader
    ensures reader.Valid()
    ensures (report, reader.Pending()) == Drain(old(reader.Pending()) + chunk, reader.maxPayload)
    ensures reader.Received() == old(reader.Received()) + |chunk|
    ensures reader.peak <= old(reader.peak) || reader.peak < COMPACT_THRESHOLD + reader.maxPayload + 4 + CHUNK_SIZE
    ensures report.violation.None? ==> |reader.buffer| < COMPACT_THRESHOLD + reader.maxPayload + 4
  {
    reader.Extend(chunk);
    report := PopAll(reader);
  }

  /** The reader has taken in `before`, and reported what it decodes to. */
  ghost predicate SoFar(reader: FrameReader, before: seq<byte>, report: Report)
    reads reader
  {
    var d := Decode(before, reader.maxPayload);
    && reader.Valid() && reader.Received() == |before|
    && !d.tooLarge && reader.Pending() == d.rest && report == ReportOf(d, reader.maxPayload)
    && |reader.buffer| <= COMPACT_THRESHOLD - 1 + reader.maxPayload + 4
    && reader.peak <= COMPACT_THRESHOLD - 1 + reader.maxPayload + 4 + CHUNK_SIZE
  }

  /** One round of the outer loop, on top of the rounds before it. */
  method ReadNext(reader: FrameReader, chunks: seq<seq<byte>>, i: nat, early: Report) returns (report: Report)
    requires i < |chunks| && |chunks[i]| <= CHUNK_SIZE && SoFar(reader, Flatten(chunks[..i]), early)
    modifies reader
    ensures report.violation.None? ==> SoFar(reader, Flatten(chunks[..i + 1]), report)
    ensures report.violation.Some? ==>
              && reader.Valid() && reader.Received() <= |Flatten(chunks)|
              && report == ReportOf(Decode(Flatten(chunks), reader.maxPayload), reader.maxPayload)
              && reader.peak <= COMPACT_THRESHOLD - 1 + reader.maxPayload + 4 + CHUNK_SIZE
  {
    NextChunk(chunks, i, reader.maxPayload);
    var more := ReadChunk(reader, chunks[i]);
    report := more.After(early.messages);
  }

  /** The outer loop, over the chunks the stream yields before it ends. */
  method ReadStream(reader: FrameReader, chunks: seq<seq<byte>>) returns (report: Report)
    requires SoFar(reader, [], Report([], None))
    requires forall c :: c in chunks ==> |c| <= CHUNK_SIZE
    modifies reader
    ensures reader.Valid() && reader.Received() <= |Flatten(chunks)|
    ensures report == ReportOf(Decode(Flatten(chunks), reader.maxPayload), reader.maxPayload)
    ensures reader.peak <= COMPACT_THRESHOLD - 1 + reader.maxPayload + 4 + CHUNK_SIZE
  {
    report := Report([], None);
    var i := 0;
    while i < |chunks|
      invariant 0 <= i <= |chunks| && SoFar(reader, Flatten(chunks[..i]), report)
    {
      report := ReadNext(reader, chunks, i, report);
      i := i + 1;
      if report.violation.Some? {
        return;
      }
    }
    assert chunks[..i] == chunks;
  }

  /** `reliable_reader`: it reports exactly the messages of the concatenated
      bytes, stops at the first violation, and keeps both memory and copying
      bounded. */
  method ReliableReader(chunks: seq<seq<byte>>, maxPayload: nat) returns (report: Report, reader: FrameReader)
    requires forall c :: c in chunks ==> |c| <= CHUNK_SIZE
    ensures report == ReportOf(Decode(Flatten(chunks), maxPayload), maxPayload)
    ensures reader.peak <= COMPACT_THRESHOLD - 1 + maxPayload + 4 + CHUNK_SIZE
    ensures reader.moved <= (|Flatten(chunks)| / COMPACT_THRESHOLD) * (maxPayload + 4)
  {
    reader := new FrameReader(maxPayload);
    report := ReadStream(reader, chunks);
    Budget(reader, |Flatten(chunks)|);
  }

  lemma ReportAfter(d: Decoded, early: seq<Message>, limit: nat)
    ensures ReportOf(d.After(early), limit) == ReportOf(d, limit).After(NonEmpty(early))
  {
    NonEmptyConcat(early, d.frames);
  }

  lemma ReadOn(before: seq<byte>, chunk: seq<byte>, limit: nat)
    requires !Decode(before, limit).tooLarge
    ensures var d0, d := Decode(before, limit), Decode(before + chunk, limit);
            Drain(d0.rest + chunk, limit).1 == d.rest
            && Drain(d0.rest + chunk, limit).0.After(d0.Delivered()) == ReportOf(d, limit)
  {
    var d0 := Decode(before, limit);
    DrainIsDecode(d0.rest + chunk, limit);
    DecodeSplit(before, chunk, limit);
    ReportAfter(Decode(d0.rest + chunk, limit), d0.frames, limit);
  }

  lemma ViolationIsFinal(a: seq<byte>, b: seq<byte>, limit: nat)
    requires Decode(a, limit).tooLarge
    ensures ReportOf(Decode(a + b, limit), limit) == ReportOf(Decode(a, limit), limit)
  {
    DecodeSplit(a, b, limit);
    DecodeStops(a, limit);
    ScanExtends(Decode(a, limit).rest, b, limit);
  }

  lemma ViolationReported(bytes: seq<byte>, limit: nat)
    ensures var d := Decode(bytes, limit); ReportOf(d, limit).violation.Some? == d.tooLarge
  {
    DecodeStops(bytes, limit);
  }

  /** What reading one more chunk does to the decoding of everything so far. */
  lemma NextChunk(chunks: seq<seq<byte>>, i: nat, limit: nat)
    requires i < |chunks| && !Decode(Flatten(chunks[..i]), limit).tooLarge
    ensures |Flatten(chunks[..i + 1])| == |Flatten(chunks[..i])| + |chunks[i]|
    ensures |Flatten(chunks[..i + 1])| <= |Flatten(chunks)|
    ensures var d0, d := Decode(Flatten(chunks[..i]), limit), Decode(Flatten(chunks[..i + 1]), limit);
            var (more, rest) := Drain(d0.rest + chunks[i], limit);
            && d.rest == rest
            && d.tooLarge == more.violation.Some?
            && more.After(d0.Delivered()) == ReportOf(d, limit)
            && (d.tooLarge ==> ReportOf(Decode(Flatten(chunks), limit), limit) == ReportOf(d, limit))
  {
    var before, here, later := Flatten(chunks[..i]), Flatten(chunks[..i + 1]), Flatten(chunks[i + 1..]);
    assert chunks[..i + 1] == chunks[..i] + [chunks[i]];
    FlattenSnoc(chunks[..i], chunks[i]);
    assert chunks == chunks[..i + 1] + chunks[i + 1..];
    FlattenConcat(chunks[..i + 1], chunks[i + 1..]);
    ReadOn(before, chunks[i], limit);
    ViolationReported(here, limit);
    if Decode(here, limit).tooLarge {
      ViolationIsFinal(here, later, limit);
    }
  }

  lemma Budget(reader: FrameReader, received: nat)
    requires reader.Valid() && reader.Received() <= received
    ensures reader.moved <= (received / COMPACT_THRESHOLD) * (reader.maxPayload + 4)
  {
    TimesIsMonotone(reader.drains, received / COMPACT_THRESHOLD, reader.maxPayload + 4);
    TimesIsProduct(received / COMPACT_THRESHOLD, reader.maxPayload + 4);
  }
}
