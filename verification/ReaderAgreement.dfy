/** The browser plugin and the native readers make the same of whatever arrives,
    on both channels, in any chunks and with C# polling at any time in between,
    as long as the browser's queue cap is not hit; and that is the only thing
    they can disagree about. */
module ReaderAgreement {
  import opened Framing
  import opened BrowserSession
  import opened NativeReader
  import opened Datagrams

  function Bytes(ms: seq<Message>): (r: nat) {
    if ms == [] then 0 else |ms[0].payload| + Bytes(ms[1..])
  }

  /** All of `ms` fit the event queue as it is now. */
  predicate Fits(m: Session, ms: seq<Message>) {
    ms == [] || m.queue.queuedBytes + Bytes(ms) <= MAX_QUEUED_BYTES
  }

  /** A session whose handshake is over. */
  ghost predicate Reading(m: Session) { m.link.state == Live && m.link.prologueDone && m.link.transport.Some? }

  lemma BytesConcat(a: seq<Message>, b: seq<Message>)
    ensures Bytes(a + b) == Bytes(a) + Bytes(b)
  {
    if a == [] {
      assert a + b == b;
    } else {
      assert (a + b)[1..] == a[1..] + b;
      BytesConcat(a[1..], b);
    }
  }

  /** `p` is what `m` becomes by queueing `ms`, the reading having come to the
      end described by `rest` and `tooLarge`. */
  ghost predicate Took(m: Session, p: Session, ms: seq<Message>, rest: seq<byte>, tooLarge: bool) {
    && p.limits == m.limits
    && (Fits(m, ms) ==>
         && p.trace.data == m.trace.data + ms
         && (p.link.state == Idle <==> tooLarge)
         && (!tooLarge ==>
              Reading(p) && p.unread == rest && p.queue.queuedBytes == m.queue.queuedBytes + Bytes(ms)))
    && (!Fits(m, ms) ==>
         && p.link.state == Idle
         && p.trace.data <= m.trace.data + ms
         && |p.trace.data| < |m.trace.data| + |ms|)
  }

  lemma TookMore(m: Session, mid: Session, p: Session, ms: seq<Message>, later: seq<Message>, kept: seq<byte>,
                 rest: seq<byte>, tooLarge: bool)
    requires Took(m, mid, ms, kept, false)
    requires if mid.link.state == Idle then p == mid else Took(mid, p, later, rest, tooLarge)
    ensures Took(m, p, ms + later, rest, tooLarge)
  {
    BytesConcat(ms, later);
    if Fits(m, ms) {
      assert m.trace.data + (ms + later) == m.trace.data + ms + later;
    } else {
      assert m.trace.data + (ms + later) == (m.trace.data + ms) + later;
    }
  }

  lemma TakeFrameTook(m: Session, f: Message, why: seq<byte>)
    requires Reading(m) && HEADER_LEN + |f.payload| <= |m.unread|
    ensures Took(m, TakeFrame(m, f, why), if f.payload == [] then [] else [f], m.unread[HEADER_LEN + |f.payload|..],
                false)
  {
    if f.payload != [] {
      assert Bytes([f]) == |f.payload| + Bytes([]);
    }
  }

  lemma {:induction false} ParseFramesTook(m: Session, why: seq<byte>)
    requires Reading(m)
    ensures var d := Decode(m.unread, m.limits.maxReliable);
            Took(m, ParseFrames(m, why), d.Delivered(), d.rest, d.tooLarge)
    decreases |m.unread|
  {
    if Scan(m.unread, m.limits.maxReliable).Complete? {
      var f := Scan(m.unread, m.limits.maxReliable).message;
      var after, mid := m.unread[HEADER_LEN + |f.payload|..], TakeFrame(m, f, why);
      var d := Decode(after, m.limits.maxReliable);
      DeliveredAfter(d, f);
      TakeFrameTook(m, f, why);
      if mid.link.state != Idle {
        ParseFramesTook(mid, why);
      }
      TookMore(m, mid, ParseFrames(m, why), if f.payload == [] then [] else [f], d.Delivered(), after, d.rest,
          d.tooLarge);
    }
  }

  // -------------------------------------------------------------------------
  // Arrivals and polls
  // -------------------------------------------------------------------------

  datatype Op =
    | Read(bytes: seq<byte>)                            // a read of the reliable stream settles
    | Datagram(bytes: seq<byte>)                        // a read of the datagrams settles
    | Polls(capacity: nat, complaint: seq<byte>)        // C# takes an event off the queue

  function Go(m: Session, op: Op, why: seq<byte>): (r: Session) {
    match op
    case Polls(capacity, complaint) => Poll(m, capacity, complaint).0
    case Read(bytes) =>
      if m.link.transport.None? then m else OnReliableRead(m, m.link.transport.value, Chunk(bytes, true), why).m
    case Datagram(bytes) =>
      if m.link.transport.None? then m else OnDatagramRead(m, m.link.transport.value, Chunk(bytes, true), why).m
  }

  function GoOn(m: Session, ops: seq<Op>, why: seq<byte>): (r: Session)
    decreases |ops|
  {
    if ops == [] then m else GoOn(Go(m, ops[0], why), ops[1..], why)
  }

  /** What one arrival holds, with the unread bytes in front of it; and whether
      it announces too long a message. */
  function Holds(unread: seq<byte>, op: Op, limits: Limits): (r: (seq<Message>, bool)) {
    match op
    case Polls(_, _) => ([], false)
    case Read(bytes) =>
      var d := Decode(unread + bytes, limits.maxReliable);
      (d.Delivered(), d.tooLarge)
    case Datagram(bytes) =>
      var d := DecodeDatagram(bytes, limits.maxUnreliable);
      (if d.Some? then [d.value] else [], false)
  }

  function UnreadAfter(unread: seq<byte>, op: Op, limits: Limits): (r: seq<byte>) {
    if op.Read? then Decode(unread + op.bytes, limits.maxReliable).rest else unread
  }

  /** What the native readers hand on of the same arrivals: they go on until a
      violation ends the session. */
  function Native(unread: seq<byte>, ops: seq<Op>, limits: Limits): (r: (seq<Message>, bool))
    decreases |ops|
  {
    if ops == [] then ([], false)
    else
      var (ms, violation) := Holds(unread, ops[0], limits);
      if violation then (ms, true)
      else
        var (later, violated) := Native(UnreadAfter(unread, ops[0], limits), ops[1..], limits);
        (ms + later, violated)
  }

  /** Each arrival fits the event queue as it is when it arrives. */
  ghost predicate FitsThroughout(m: Session, ops: seq<Op>, why: seq<byte>)
    decreases |ops|
  {
    ops == [] ||
    ((m.link.transport.Some? ==> Fits(m, Holds(m.unread, ops[0], m.limits).0)) &&
     FitsThroughout(Go(m, ops[0], why), ops[1..], why))
  }

  /** `p` is what `m` becomes when an arrival that holds `ms` and leaves `rest`
      unread comes in. */
  ghost predicate Heard(m: Session, p: Session, ms: seq<Message>, violation: bool, rest: seq<byte>) {
    && p.limits == m.limits
    && (Fits(m, ms) ==> p.trace.data == m.trace.data + ms && (p.link.state == Idle <==> violation))
    && (!Fits(m, ms) ==>
         p.link.state == Idle && p.trace.data <= m.trace.data + ms && |p.trace.data| < |m.trace.data| + |ms|)
    && (p.link.state == Idle ==> p.link.transport.None?)
    && (p.link.state != Idle ==> Reading(p) && p.unread == rest)
  }

  lemma {:induction false} ParseFramesLinked(m: Session, why: seq<byte>)
    requires Reading(m)
    ensures var p := ParseFrames(m, why); p.link.state == Idle <==> p.link.transport.None?
    decreases |m.unread|
  {
    if Scan(m.unread, m.limits.maxReliable).Complete? {
      var f := Scan(m.unread, m.limits.maxReliable).message;
      var m1 := TakeFrame(m, f, why);
      if m1.link.state != Idle {
        ParseFramesLinked(m1, why);
      }
    }
  }

  lemma ReadIsHeard(m: Session, bytes: seq<byte>, why: seq<byte>)
    requires Reading(m)
    ensures var d := Decode(m.unread + bytes, m.limits.maxReliable);
            Heard(m, Go(m, Read(bytes), why), d.Delivered(), d.tooLarge, d.rest)
  {
    var m0 := m.(unread := m.unread + bytes);
    ParseFramesTook(m0, why);
    ParseFramesLinked(m0, why);
  }

  lemma DatagramIsHeard(m: Session, bytes: seq<byte>, why: seq<byte>)
    requires Reading(m)
    ensures Heard(m, Go(m, Datagram(bytes), why), Holds(m.unread, Datagram(bytes), m.limits).0, false, m.unread)
  {
    var d := DecodeDatagram(bytes, m.limits.maxUnreliable);
    if d.Some? {
      assert Bytes([d.value]) == |d.value.payload| + Bytes([]);
    } else {
      assert m.trace.data + [] == m.trace.data;
    }
  }

  lemma OpIsHeard(m: Session, op: Op, why: seq<byte>)
    requires Reading(m)
    ensures var (ms, violation) := Holds(m.unread, op, m.limits);
            Heard(m, Go(m, op, why), ms, violation, UnreadAfter(m.unread, op, m.limits))
  {
    match op
    case Read(bytes) => ReadIsHeard(m, bytes, why);
    case Datagram(bytes) => DatagramIsHeard(m, bytes, why);
    case Polls(_, _) => assert m.trace.data + [] == m.trace.data;
  }

  /** An ended session hears nothing more. */
  lemma {:induction false} EndedHearsNothing(m: Session, ops: seq<Op>, why: seq<byte>)
    requires m.link.transport.None?
    ensures var p := GoOn(m, ops, why);
            p.trace.data == m.trace.data && p.link == m.link && FitsThroughout(m, ops, why)
    decreases |ops|
  {
    if ops != [] {
      EndedHearsNothing(Go(m, ops[0], why), ops[1..], why);
    }
  }

  /** Agreement on both channels. Given the same arrivals in the same order, the
      browser session, with C# polling in between, hears a prefix of what the
      native readers hand on, and all of it while it lives; and it hears all of it
      and reaches the same verdict if and only if each arrival fits the queue as
      it is at that moment. */
  lemma {:induction false} ArrivalsAgree(m: Session, ops: seq<Op>, why: seq<byte>)
    requires Reading(m)
    ensures var p, (ms, violation) := GoOn(m, ops, why), Native(m.unread, ops, m.limits);
            && p.trace.data <= m.trace.data + ms
            && (p.link.state != Idle ==> p.trace.data == m.trace.data + ms && !violation)
            && ((p.trace.data == m.trace.data + ms && (p.link.state == Idle <==> violation)) <==>
                 FitsThroughout(m, ops, why))
    decreases |ops|
  {
    if ops == [] {
      assert m.trace.data + [] == m.trace.data;
    } else {
      var mid := Go(m, ops[0], why);
      var (ms, violation) := Holds(m.unread, ops[0], m.limits);
      OpIsHeard(m, ops[0], why);
      if mid.link.state == Idle {
        EndedHearsNothing(mid, ops[1..], why);
      } else {
        ArrivalsAgree(mid, ops[1..], why);
      }
      assert forall later: seq<Message> :: m.trace.data + (ms + later) == m.trace.data + ms + later;
    }
  }

  // -------------------------------------------------------------------------
  // One channel at a time
  // -------------------------------------------------------------------------

  /** The reliable bytes among the arrivals. */
  function BytesRead(ops: seq<Op>): (r: seq<byte>) {
    if ops == [] then [] else (if ops[0].Read? then ops[0].bytes else []) + BytesRead(ops[1..])
  }

  function DatagramsRead(ops: seq<Op>): (r: seq<seq<byte>>) {
    if ops == [] then [] else (if ops[0].Datagram? then [ops[0].bytes] else []) + DatagramsRead(ops[1..])
  }

  /** Bytes that hold nothing complete. */
  ghost predicate Incomplete(unread: seq<byte>, limit: nat) { Decode(unread, limit) == Decoded([], unread, false) }

  lemma RestIsIncomplete(bytes: seq<byte>, limit: nat)
    requires !Decode(bytes, limit).tooLarge
    ensures Incomplete(Decode(bytes, limit).rest, limit)
  {
    DecodeStops(bytes, limit);
  }

  lemma {:induction false} NativeIsDecode(unread: seq<byte>, ops: seq<Op>, limits: Limits)
    requires Incomplete(unread, limits.maxReliable) && forall op :: op in ops ==> !op.Datagram?
    ensures var d := Decode(unread + BytesRead(ops), limits.maxReliable);
            Native(unread, ops, limits) == (d.Delivered(), d.tooLarge)
    decreases |ops|
  {
    if ops == [] {
      assert unread + [] == unread;
    } else {
      var limit, later := limits.maxReliable, BytesRead(ops[1..]);
      if ops[0].Read? {
        var here := unread + ops[0].bytes;
        assert unread + (ops[0].bytes + later) == here + later;
        DecodeSplit(here, later, limit);
        var d := Decode(here, limit);
        if !d.tooLarge {
          RestIsIncomplete(here, limit);
          NativeIsDecode(d.rest, ops[1..], limits);
          NonEmptyConcat(d.frames, Decode(d.rest + later, limit).frames);
        }
      } else {
        NativeIsDecode(unread, ops[1..], limits);
        assert [] + later == later;
        assert [] + Native(unread, ops[1..], limits).0 == Native(unread, ops[1..], limits).0;
      }
    }
  }

  lemma {:induction false} NativeIsReceived(unread: seq<byte>, ops: seq<Op>, limits: Limits)
    requires forall op :: op in ops ==> !op.Read?
    ensures Native(unread, ops, limits) == (Received(DatagramsRead(ops), limits.maxUnreliable), false)
    decreases |ops|
  {
    if ops != [] {
      NativeIsReceived(unread, ops[1..], limits);
      var later := Native(unread, ops[1..], limits).0;
      assert [] + later == later;
      if ops[0].Datagram? {
        assert ([ops[0].bytes] + DatagramsRead(ops[1..]))[1..] == DatagramsRead(ops[1..]);
      } else {
        assert [] + DatagramsRead(ops[1..]) == DatagramsRead(ops[1..]);
      }
    }
  }

  /** Reader agreement. A session with no bytes left over, read and polled in any
      way, and the native reader given the same bytes in chunks of its own: the
      session hears a prefix of what the reader reports, all of it while it lives,
      and all of it with the same verdict if and only if what each read completes
      fits the queue as it is then. */
  lemma ReadersAgree(m: Session, ops: seq<Op>, native: seq<seq<byte>>, why: seq<byte>)
    requires Reading(m) && m.unread == [] && (forall op :: op in ops ==> !op.Datagram?)
    requires Flatten(native) == BytesRead(ops)
    ensures var p := GoOn(m, ops, why);
            var report := ReportOf(Decode(Flatten(native), m.limits.maxReliable), m.limits.maxReliable);
            && p.trace.data <= m.trace.data + report.messages
            && (p.link.state != Idle ==>
                 p.trace.data == m.trace.data + report.messages && report.violation.None?)
            && ((p.trace.data == m.trace.data + report.messages &&
                 (p.link.state == Idle <==> report.violation.Some?)) <==> FitsThroughout(m, ops, why))
  {
    ArrivalsAgree(m, ops, why);
    NativeIsDecode([], ops, m.limits);
    assert [] + BytesRead(ops) == BytesRead(ops);
    ViolationReported(Flatten(native), m.limits.maxReliable);
  }

  /** The same for the datagrams that arrive. */
  lemma DatagramReadersAgree(m: Session, ops: seq<Op>, why: seq<byte>)
    requires Reading(m) && forall op :: op in ops ==> !op.Read?
    ensures var p, received := GoOn(m, ops, why), Received(DatagramsRead(ops), m.limits.maxUnreliable);
            && p.trace.data <= m.trace.data + received
            && (p.link.state != Idle ==> p.trace.data == m.trace.data + received)
            && ((p.trace.data == m.trace.data + received && p.link.state != Idle) <==> FitsThroughout(m, ops, why))
  {
    ArrivalsAgree(m, ops, why);
    NativeIsReceived(m.unread, ops, m.limits);
  }
}
