/** The native sending side: `reliable_writer`, which coalesces queued frames
    into writes, and what that means end to end. */
module NativeWriter {
  import opened Framing
  import opened Options
  import opened NativeReader

  const MAX_BATCH := 64 * 1024

  datatype OutMsg = Frame(bytes: seq<byte>) | Close(code: nat)

  /** Everything that reaches the stream, and the close code if it gets that far. */
  datatype Written = Written(batches: seq<seq<byte>>, close: Option<nat>)
  {
    function After(earlier: seq<seq<byte>>): (r: Written) { this.(batches := earlier + batches) }

    /** What gets out when only the first `n` writes succeed. */
    function Accepted(n: nat): (r: Written) {
      if n >= |batches| then this else Written(batches[..n], None)
    }
  }

  lemma WrittenAfter(w: Written, late: seq<byte>, early: seq<seq<byte>>)
    ensures w.After([late]).After(early) == w.After(early + [late])
  {
    assert early + ([late] + w.batches) == early + [late] + w.batches;
  }

  lemma WrittenEnd(early: seq<seq<byte>>, close: Option<nat>)
    ensures Written([], close).After(early) == Written(early, close)
  {
  }

  /** Where one batch ends: its bytes, the next queue position, and a close met
      on the way. */
  datatype Filled = Filled(bytes: seq<byte>, next: nat, close: Option<nat>)

  // -------------------------------------------------------------------------
  // Specification. `ready[i]` says whether message `i` is already queued when
  // `try_recv` looks for it; if not, the batch goes out without it.
  // -------------------------------------------------------------------------

  function Fill(queue: seq<OutMsg>, ready: seq<bool>, i: nat, batch: seq<byte>): (r: Filled)
    requires i <= |queue| == |ready|
    ensures i <= r.next <= |queue|
    decreases |queue| - i
  {
    if |batch| >= MAX_BATCH || i == |queue| || !ready[i] then Filled(batch, i, None)
    else match queue[i]
      case Frame(bytes) => Fill(queue, ready, i + 1, batch + bytes)
      case Close(code) => Filled(batch, i + 1, Some(code))
  }

  function Batches(queue: seq<OutMsg>, ready: seq<bool>, i: nat): (r: Written)
    requires i <= |queue| == |ready|
    decreases |queue| - i
  {
    if i == |queue| then Written([], None)
    else match queue[i]
      case Close(code) => Written([], Some(code))
      case Frame(bytes) =>
        var f := Fill(queue, ready, i + 1, bytes);
        var later := if f.close.Some? then Written([], f.close) else Batches(queue, ready, f.next);
        if f.bytes == [] then later else later.After([f.bytes])
  }

  /** The number of frames in front of the first close, from `i` on. */
  function Frames(queue: seq<OutMsg>, i: nat): (n: nat)
    requires i <= |queue|
    ensures i <= n <= |queue|
    ensures forall k :: i <= k < n ==> queue[k].Frame?
    ensures n < |queue| ==> queue[n].Close?
    decreases |queue| - i
  {
    if i == |queue| || queue[i].Close? then i else Frames(queue, i + 1)
  }

  /** The frames at positions `i..j`, joined. */
  function Joined(queue: seq<OutMsg>, i: nat, j: nat): (r: seq<byte>)
    requires i <= j <= |queue| && forall k :: i <= k < j ==> queue[k].Frame?
    decreases j
  {
    if i == j then [] else Joined(queue, i, j - 1) + queue[j - 1].bytes
  }

  // -------------------------------------------------------------------------
  // Implementation
  // -------------------------------------------------------------------------

  /** `reliable_writer`. The stream accepts the first `accepts` writes and fails
      the one after; the queue is closed after its last message. */
  method ReliableWriter(queue: seq<OutMsg>, ready: seq<bool>, accepts: nat) returns (w: Written)
    requires |ready| == |queue|
    ensures w == Batches(queue, ready, 0).Accepted(accepts)
  {
    ghost var all := Batches(queue, ready, 0);
    w := Written([], None);
    var i := 0;
    assert all.After([]) == all;
    while i < |queue|
      invariant i <= |queue| && w.close.None? && |w.batches| <= accepts
      invariant all == Batches(queue, ready, i).After(w.batches)
      decreases |queue| - i
    {
      var batch, closeWith := [], None;
      match queue[i] {
        case Frame(bytes) => batch := bytes;
        case Close(code) => closeWith := Some(code);
      }
      i := i + 1;
      ghost var first := i;
      ghost var filled := if closeWith.None? then Fill(queue, ready, i, batch) else Filled(batch, i, closeWith);
      while closeWith.None? && |batch| < MAX_BATCH
        invariant first <= i <= |queue|
        invariant filled == if closeWith.None? then Fill(queue, ready, i, batch) else Filled(batch, i, closeWith)
        decreases |queue| - i, closeWith.None?
      {
        if i == |queue| || !ready[i] {
          break;
        }
        match queue[i] {
          case Frame(bytes) => batch := batch + bytes;
          case Close(code) => closeWith := Some(code);
        }
        i := i + 1;
      }
      assert filled == Filled(batch, i, closeWith);
      ghost var later := if closeWith.Some? then Written([], closeWith) else Batches(queue, ready, i);
      assert all == (if batch == [] then later else later.After([batch])).After(w.batches);
      if batch != [] {
        WrittenAfter(later, batch, w.batches);
        if |w.batches| == accepts {
          return;
        }
        w := w.(batches := w.batches + [batch]);
      }
      WrittenEnd(w.batches, closeWith);
      if closeWith.Some? {
        w := w.(close := closeWith);
        return;
      }
    }
    WrittenEnd(w.batches, None);
  }

  // -------------------------------------------------------------------------
  // What is written
  // -------------------------------------------------------------------------

  lemma {:induction false} JoinedSplit(queue: seq<OutMsg>, i: nat, j: nat, k: nat)
    requires i <= j <= k <= |queue| && forall n :: i <= n < k ==> queue[n].Frame?
    ensures Joined(queue, i, k) == Joined(queue, i, j) + Joined(queue, j, k)
    decreases k
  {
    if j < k {
      JoinedSplit(queue, i, j, k - 1);
      var a, b, c := Joined(queue, i, j), Joined(queue, j, k - 1), queue[k - 1].bytes;
      assert a + b + c == a + (b + c);
    } else {
      assert Joined(queue, i, k) == Joined(queue, i, j) + [];
    }
  }

  lemma FramesFrom(queue: seq<OutMsg>, i: nat, k: nat)
    requires i <= |queue| && i <= k <= Frames(queue, i)
    ensures Frames(queue, k) == Frames(queue, i)
    decreases |queue| - i
  {
    if i < k { FramesFrom(queue, i + 1, k); }
  }

  /** One batch, started at `i` with `k - i` frames in it: it is a contiguous
      window of the queue, every proper prefix of which is below the cap. */
  lemma {:induction false} FillIsWindow(queue: seq<OutMsg>, ready: seq<bool>, i: nat, k: nat)
    requires i <= |queue| && i < k <= Frames(queue, i) && |ready| == |queue|
    requires |Joined(queue, i, k - 1)| < MAX_BATCH
    ensures var f, n := Fill(queue, ready, k, Joined(queue, i, k)), Frames(queue, i);
            var end := if f.close.Some? then f.next - 1 else f.next;
            && k <= end <= n
            && f.bytes == Joined(queue, i, end)
            && |Joined(queue, i, end - 1)| < MAX_BATCH
            && (f.close.Some? ==> end == n < |queue| && f.close == Some(queue[n].code))
    decreases |queue| - k
  {
    var batch, n := Joined(queue, i, k), Frames(queue, i);
    if |batch| < MAX_BATCH && k < |queue| && ready[k] && queue[k].Frame? {
      assert k < n;
      FillIsWindow(queue, ready, i, k + 1);
    }
  }

  ghost predicate IsWindow(queue: seq<OutMsg>, b: seq<byte>, i: nat, j: nat) {
    && i < j <= Frames(queue, 0) && b == Joined(queue, i, j) && |Joined(queue, i, j - 1)| < MAX_BATCH
  }

  /** Batching is invisible: whatever the schedule, the writes concatenate to the
      frames in front of the first close, which is reached exactly when there is
      one; and each write is a window that only its last frame takes past the cap. */
  lemma {:induction false} BatchesPreserve(queue: seq<OutMsg>, ready: seq<bool>, i: nat)
    requires i <= Frames(queue, 0) && |ready| == |queue|
    ensures var w, n := Batches(queue, ready, i), Frames(queue, 0);
            && Flatten(w.batches) == Joined(queue, i, n)
            && w.close == (if n < |queue| then Some(queue[n].code) else None)
            && forall b :: b in w.batches ==> exists j, k :: IsWindow(queue, b, j, k)
    decreases |queue| - i
  {
    var n := Frames(queue, 0);
    FramesFrom(queue, 0, i);
    if i < |queue| && queue[i].Frame? {
      assert Joined(queue, i, i + 1) == queue[i].bytes;
      FillIsWindow(queue, ready, i, i + 1);
      var f := Fill(queue, ready, i + 1, queue[i].bytes);
      var end := if f.close.Some? then f.next - 1 else f.next;
      assert IsWindow(queue, f.bytes, i, end);
      JoinedSplit(queue, i, end, n);
      if f.close.None? {
        BatchesPreserve(queue, ready, end);
      }
    }
  }

  /** The bound that does hold: a write can pass the cap by at most one frame. */
  lemma BatchBound(queue: seq<OutMsg>, ready: seq<bool>, largest: nat)
    requires |ready| == |queue|
    requires forall m :: m in queue && m.Frame? ==> |m.bytes| <= largest
    ensures forall b :: b in Batches(queue, ready, 0).batches ==> |b| <= MAX_BATCH - 1 + largest
  {
    BatchesPreserve(queue, ready, 0);
    forall b | b in Batches(queue, ready, 0).batches
      ensures |b| <= MAX_BATCH - 1 + largest
    {
      var i, j :| IsWindow(queue, b, i, j);
      assert queue[j - 1] in queue;
    }
  }

  /** No window of frames that is below the cap without its last frame is above
      the cap with it. */
  ghost predicate NoFrameCrossesTheCap(queue: seq<OutMsg>) {
    forall i, j :: 0 <= i < j <= Frames(queue, 0) && |Joined(queue, i, j - 1)| < MAX_BATCH ==>
      |Joined(queue, i, j)| <= MAX_BATCH
  }

  ghost predicate CapHolds(queue: seq<OutMsg>, ready: seq<bool>)
    requires |ready| == |queue|
  {
    forall b :: b in Batches(queue, ready, 0).batches ==> |b| <= MAX_BATCH
  }

  /** The schedule that makes the batch starting at `i` as long as it can get. */
  function HoldUntil(size: nat, i: nat): (ready: seq<bool>)
    ensures |ready| == size && forall k :: 0 <= k < size ==> ready[k] == (k > i)
  {
    seq(size, k => k > i)
  }

  lemma {:induction false} SinglesUpTo(queue: seq<OutMsg>, ready: seq<bool>, n: nat, i: nat)
    requires n <= i < Frames(queue, 0) && ready == HoldUntil(|queue|, i)
    ensures forall b :: b in Batches(queue, ready, i).batches ==> b in Batches(queue, ready, n).batches
    decreases i - n
  {
    if n < i {
      assert Fill(queue, ready, n + 1, queue[n].bytes) == Filled(queue[n].bytes, n + 1, None);
      SinglesUpTo(queue, ready, n + 1, i);
    }
  }

  lemma {:induction false} FillReaches(queue: seq<OutMsg>, ready: seq<bool>, i: nat, k: nat, j: nat)
    requires i < k <= j <= Frames(queue, 0) && ready == HoldUntil(|queue|, i)
    requires |Joined(queue, i, j - 1)| < MAX_BATCH
    ensures Fill(queue, ready, k, Joined(queue, i, k)) == Fill(queue, ready, j, Joined(queue, i, j))
    decreases j - k
  {
    if k < j {
      JoinedSplit(queue, i, k, j - 1);
      FillReaches(queue, ready, i, k + 1, j);
    }
  }

  lemma CrossingOvershoots(queue: seq<OutMsg>, i: nat, j: nat)
    requires i < j <= Frames(queue, 0)
    requires |Joined(queue, i, j - 1)| < MAX_BATCH < |Joined(queue, i, j)|
    ensures !CapHolds(queue, HoldUntil(|queue|, i))
  {
    var ready := HoldUntil(|queue|, i);
    FillReaches(queue, ready, i, i + 1, j);
    assert Joined(queue, i, i + 1) == Joined(queue, i, i) + queue[i].bytes == queue[i].bytes;
    SinglesUpTo(queue, ready, 0, i);
    assert Batches(queue, ready, i).batches[0] == Joined(queue, i, j);
  }

  lemma NoCrossingKeepsCap(queue: seq<OutMsg>, ready: seq<bool>)
    requires |ready| == |queue| && NoFrameCrossesTheCap(queue)
    ensures CapHolds(queue, ready)
  {
    BatchesPreserve(queue, ready, 0);
    forall b | b in Batches(queue, ready, 0).batches
      ensures |b| <= MAX_BATCH
    {
      var i, j :| IsWindow(queue, b, i, j);
    }
  }

  lemma CapNeedsNoCrossing(queue: seq<OutMsg>)
    requires forall ready: seq<bool> :: |ready| == |queue| ==> CapHolds(queue, ready)
    ensures NoFrameCrossesTheCap(queue)
  {
    forall i: nat, j: nat | i < j <= Frames(queue, 0) && |Joined(queue, i, j - 1)| < MAX_BATCH
      ensures |Joined(queue, i, j)| <= MAX_BATCH
    {
      if |Joined(queue, i, j)| > MAX_BATCH {
        CrossingOvershoots(queue, i, j);
      }
    }
  }

  /** The documented 64 KB cap on a write holds under every schedule exactly when
      no frame of the queue can cross it. */
  lemma CapHoldsExactly(queue: seq<OutMsg>)
    ensures (forall ready: seq<bool> :: |ready| == |queue| ==> CapHolds(queue, ready)) <==> NoFrameCrossesTheCap(queue)
  {
    if NoFrameCrossesTheCap(queue) {
      forall ready: seq<bool> | |ready| == |queue|
        ensures CapHolds(queue, ready)
      {
        NoCrossingKeepsCap(queue, ready);
      }
    }
    if forall ready: seq<bool> :: |ready| == |queue| ==> CapHolds(queue, ready) {
      CapNeedsNoCrossing(queue);
    }
  }

  // -------------------------------------------------------------------------
  // End to end
  // -------------------------------------------------------------------------

  /** What the application asks for: messages, and a disconnect. */
  datatype Request = Send(message: Message) | Disconnect(code: nat)

  function Enqueue(rs: seq<Request>): (queue: seq<OutMsg>)
    ensures |queue| == |rs|
  {
    seq(|rs|, i requires 0 <= i < |rs| =>
      match rs[i] case Send(m) => Frame(EncodeFrame(m)) case Disconnect(code) => Close(code))
  }

  /** The messages in front of the first disconnect. */
  function SentBefore(rs: seq<Request>): (r: seq<Message>) {
    if rs == [] || rs[0].Disconnect? then [] else [rs[0].message] + SentBefore(rs[1..])
  }

  lemma {:induction false} QueueEncodes(rs: seq<Request>, i: nat)
    requires i <= |rs|
    ensures var queue := Enqueue(rs);
            Joined(queue, i, Frames(queue, i)) == EncodeAll(SentBefore(rs[i..]))
    decreases |rs| - i
  {
    var queue := Enqueue(rs);
    if i < |rs| && rs[i].Send? {
      QueueEncodes(rs, i + 1);
      assert rs[i..][1..] == rs[i + 1..];
      JoinedSplit(queue, i, i + 1, Frames(queue, i));
      assert Joined(queue, i, i + 1) == queue[i].bytes;
      EncodeAllCons(rs[i].message, SentBefore(rs[i + 1..]));
    }
  }

  /** What the writer puts on the wire is the encoding of the messages sent
      before the first disconnect, however it batches them. */
  lemma WireIsEncoding(rs: seq<Request>, ready: seq<bool>)
    requires |ready| == |rs|
    ensures Flatten(Batches(Enqueue(rs), ready, 0).batches) == EncodeAll(SentBefore(rs))
  {
    BatchesPreserve(Enqueue(rs), ready, 0);
    QueueEncodes(rs, 0);
    assert rs[0..] == rs;
  }

  lemma NoViolation(bytes: seq<byte>, limit: nat)
    requires !Decode(bytes, limit).tooLarge
    ensures ReportOf(Decode(bytes, limit), limit) == Report(Decode(bytes, limit).Delivered(), None)
  {
  }

  /** Reliable delivery. Whatever batches the writer makes and whatever chunks
      the network makes of a prefix of them, the receiver reports a prefix of the
      non-empty messages sent before the first disconnect, and no violation; and
      all of them once every byte has arrived. */
  lemma EndToEnd(rs: seq<Request>, ready: seq<bool>, chunks: seq<seq<byte>>, sendLimit: nat, limit: nat)
    requires |ready| == |rs| && sendLimit <= limit < U32
    requires WithinLimit(SentBefore(rs), sendLimit)
    requires Flatten(chunks) <= Flatten(Batches(Enqueue(rs), ready, 0).batches)
    ensures var report, sent := ReportOf(Decode(Flatten(chunks), limit), limit), NonEmpty(SentBefore(rs));
            && report.violation.None?
            && report.messages <= sent
            && (Flatten(chunks) == Flatten(Batches(Enqueue(rs), ready, 0).batches) ==> report.messages == sent)
  {
    var sent, bytes := SentBefore(rs), Flatten(chunks);
    WireIsEncoding(rs, ready);
    PrefixSafety(sent, bytes, limit);
    NoViolation(bytes, limit);
    DecodeEncoded(sent, [], limit);
    assert EncodeAll(sent) + [] == EncodeAll(sent) && sent + [] == sent;
  }

  /** A concrete overshoot: two messages of 39995 bytes that are both queued. */
  lemma CapIsNotHard()
    ensures exists rs: seq<Request>, ready: seq<bool> :: |ready| == |rs| && !CapHolds(Enqueue(rs), ready)
  {
    var m := Message(0, seq(39_995, i => 0));
    var rs := [Send(m), Send(m)];
    var queue := Enqueue(rs);
    assert queue[0] == queue[1] == Frame(EncodeFrame(m)) && |EncodeFrame(m)| == 40_000;
    assert Frames(queue, 2) == 2 && Frames(queue, 1) == 2;
    assert Joined(queue, 0, 0) == [];
    assert |Joined(queue, 0, 1)| == 40_000;
    assert |Joined(queue, 0, 2)| == 80_000;
    CrossingOvershoots(queue, 0, 2);
  }
}
