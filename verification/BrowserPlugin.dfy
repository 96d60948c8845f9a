/** The browser plugin itself: one object updated in place, over a real byte
    buffer. Every method is proved to do to the session value of
    `BrowserSession` what that module says. */
module BrowserPlugin {
  import opened Framing
  import opened JsNumbers
  import opened Options
  import opened Grammar
  import opened BrowserSession

  const INITIAL_CAPACITY := 16384
  const COMPACT_AT := 65536

  class MirrorWTransport {
    const supported: bool
    var transport: Option<nat>
    var state: State
    var url: seq<byte>
    var datagramWriter: bool
    var reliableWriter: bool
    var prologueDone: bool
    var maxReliable: nat
    var maxUnreliable: nat
    var events: seq<Event>
    var queuedBytes: nat
    var pendingSend: int
    var buffer: array<byte>
    var bufferStart: nat
    var bufferEnd: nat

    ghost var word: seq<Kind>
    ghost var data: seq<Message>
    ghost var wire: seq<byte>
    var epoch: nat  // stands for the identity of the JavaScript session object
    ghost var largestChunk: nat

    /** The live range lies in the buffer, and the buffer has only ever grown to
        hold one unfinished frame and one chunk. */
    ghost predicate Shaped()
      reads this`bufferStart, this`bufferEnd, this`buffer, this`maxReliable, this`largestChunk
    {
      && bufferStart <= bufferEnd <= buffer.Length
      && INITIAL_CAPACITY <= buffer.Length
      && (buffer.Length == INITIAL_CAPACITY || buffer.Length < 2 * (maxReliable + 4 + largestChunk))
    }

    /** Between calls a running session never holds a complete frame. */
    ghost predicate Valid()
      reads this
    {
      Shaped() && (state != Idle ==> bufferEnd - bufferStart <= maxReliable + 4)
    }

    /** The received bytes no frame has been made of yet. */
    ghost function Unread(): (r: seq<byte>)
      reads this`buffer, this`bufferStart, this`bufferEnd, buffer
      requires bufferStart <= bufferEnd <= buffer.Length
    {
      buffer[bufferStart..bufferEnd]
    }

    ghost function LimitsView(): (r: Limits)
      reads this`url, this`maxReliable, this`maxUnreliable
    {
      Limits(supported, url, maxReliable, maxUnreliable)
    }

    ghost function LinkView(): (r: Link)
      reads this`transport, this`state, this`datagramWriter, this`reliableWriter, this`prologueDone, this`pendingSend
    {
      Link(transport, state, datagramWriter, reliableWriter, prologueDone, pendingSend)
    }

    ghost function QueueView(): (r: Queue)
      reads this`events, this`queuedBytes
    {
      Queue(events, queuedBytes)
    }

    ghost function TraceView(): (r: Trace)
      reads this`word, this`data, this`wire, this`epoch
    {
      Trace(word, data, wire, epoch)
    }

    ghost function View(): (r: Session)
      reads this, buffer
      requires Shaped()
    {
      Session(LimitsView(), LinkView(), QueueView(), Unread(), TraceView())
    }

    /** No session has been started yet; the buffer is replaced before first use. */
    constructor (supported: bool)
      ensures Valid() && this.supported == supported && fresh(buffer)
      ensures View() == Session(Limits(supported, [], 65536, 1024), Link(None, Idle, false, false, false, 0),
                                Queue([], 0), [], Trace([], [], [], 0))
      ensures largestChunk == 0
    {
      this.supported := supported;
      transport, state, url := None, Idle, [];
      datagramWriter, reliableWriter, prologueDone := false, false, false;
      maxReliable, maxUnreliable := 65536, 1024;
      events, queuedBytes, pendingSend := [], 0, 0;
      buffer := new byte[INITIAL_CAPACITY];
      bufferStart, bufferEnd := 0, 0;
      word, data, wire, epoch, largestChunk := [], [], [], 0, 0;
    }

    method ResetLink()
      modifies this`transport, this`state, this`datagramWriter, this`reliableWriter, this`prologueDone, this`pendingSend
      ensures LinkView() == Link(None, Idle, false, false, false, 0)
    {
      transport := None;
      state := Idle;
      datagramWriter := false;
      reliableWriter := false;
      prologueDone := false;
      pendingSend := 0;
    }

    method ResetBuffer()
      modifies this`buffer, this`bufferStart, this`bufferEnd, this`largestChunk
      ensures fresh(buffer) && buffer.Length == INITIAL_CAPACITY && bufferStart == bufferEnd == 0 && largestChunk == 0
    {
      buffer := new byte[INITIAL_CAPACITY];
      bufferStart := 0;
      bufferEnd := 0;
      largestChunk := 0;
    }

    method ResetQueue()
      modifies this`events, this`queuedBytes, this`word, this`data, this`wire, this`epoch
      ensures QueueView() == Queue([], 0) && TraceView() == Trace([], [], [], old(epoch) + 1)
    {
      events := [];
      queuedBytes := 0;
      word, data, wire, epoch := [], [], [], epoch + 1;
    }

    method Reset()
      requires Shaped()
      modifies this`transport, this`state, this`datagramWriter, this`reliableWriter, this`prologueDone,
               this`pendingSend, this`buffer, this`bufferStart, this`bufferEnd, this`largestChunk, this`events,
               this`queuedBytes, this`word, this`data, this`wire, this`epoch
      ensures Valid() && fresh(buffer) && buffer.Length == INITIAL_CAPACITY && largestChunk == 0
      ensures View() == BrowserSession.Reset(old(View()))
    {
      ResetLink();
      ResetBuffer();
      ResetQueue();
      assert Unread() == [];
    }

    method Push(e: Event)
      requires Shaped()
      modifies this`events, this`queuedBytes, this`word
      ensures Shaped() && View() == BrowserSession.Push(old(View()), e)
    {
      events := events + [e];
      queuedBytes := queuedBytes + |e.data|;
      word := word + [e.kind];
    }

    method CloseLink()
      modifies this`state, this`datagramWriter, this`reliableWriter, this`transport
      ensures LinkView() == old(LinkView()).(state := Idle, datagramWriter := false, reliableWriter := false,
                  transport := None)
    {
      state := Idle;
      datagramWriter := false;
      reliableWriter := false;
      transport := None;
    }

    method Close(code: int, why: seq<byte>)
      requires Shaped()
      modifies this`state, this`datagramWriter, this`reliableWriter, this`transport, this`events, this`queuedBytes,
               this`word
      ensures Shaped() && View() == BrowserSession.Close(old(View()), code, why)
    {
      if state == Idle {
        return;
      }
      CloseLink();
      assert View() == old(View()).Closed();
      Push(Event(Disconnected, 0, code, why, epoch));
    }

    method Fail(code: int, why: seq<byte>)
      requires Shaped()
      modifies this`state, this`datagramWriter, this`reliableWriter, this`transport, this`events, this`queuedBytes,
               this`word
      ensures Shaped() && View() == BrowserSession.Fail(old(View()), code, why)
    {
      Push(Event(Error, 0, code, why, epoch));
      Close(code, why);
    }

    method PushData(channel: byte, payload: seq<byte>, why: seq<byte>)
      requires Shaped()
      modifies this`state, this`datagramWriter, this`reliableWriter, this`transport, this`events, this`queuedBytes,
               this`word, this`data
      ensures Shaped() && View() == BrowserSession.PushData(old(View()), channel, payload, why)
    {
      if queuedBytes + |payload| > MAX_QUEUED_BYTES {
        Fail(ERROR_UNEXPECTED, why);
        return;
      }
      Push(Event(Data, channel, ERROR_NONE, payload, epoch));
      data := data + [Message(channel, payload)];
    }

    // -----------------------------------------------------------------------
    // The reliable stream
    // -----------------------------------------------------------------------

    /** `buffer.copyWithin(0, bufferStart, bufferEnd)`, then the live range is
        the moved one. */
    method MoveToFront()
      requires Shaped()
      modifies this`bufferStart, this`bufferEnd, buffer
      ensures Shaped() && Unread() == old(Unread())
      ensures bufferStart == 0 && bufferEnd == old(bufferEnd - bufferStart)
    {
      var pending := bufferEnd - bufferStart;
      forall i | 0 <= i < pending {
        buffer[i] := buffer[bufferStart + i];
      }
      assert buffer[0..pending] == old(buffer[bufferStart..bufferEnd]);
      bufferStart, bufferEnd := 0, pending;
    }

    /** Replaces the buffer by one at least `needed` long. */
    method Grow(needed: nat)
      requires Shaped() && buffer.Length < needed < maxReliable + 5 + largestChunk
      modifies this`buffer, this`bufferStart, this`bufferEnd
      ensures Shaped() && fresh(buffer) && Unread() == old(Unread())
      ensures bufferStart == 0 && bufferEnd == old(bufferEnd - bufferStart) && needed <= buffer.Length
    {
      var pending := bufferEnd - bufferStart;
      var size := buffer.Length;
      while size < needed
        invariant 0 < size < 2 * needed && buffer.Length <= size
        decreases needed - size
      {
        size := size * 2;
      }
      var grown := new byte[size](i requires 0 <= i < size reads this, buffer =>
        if bufferStart + i < bufferEnd <= buffer.Length then buffer[bufferStart + i] else 0);
      assert grown[0..pending] == buffer[bufferStart..bufferEnd];
      buffer := grown;
      bufferStart := 0;
      bufferEnd := pending;
    }

    method Append(chunk: seq<byte>)
      requires Valid() && state != Idle
      modifies this`buffer, this`bufferStart, this`bufferEnd, this`largestChunk, buffer
      ensures Shaped() && (buffer == old(buffer) || fresh(buffer))
      ensures Unread() == old(Unread()) + chunk
      ensures largestChunk == old(largestChunk) || largestChunk == |chunk|
    {
      largestChunk := if |chunk| > largestChunk then |chunk| else largestChunk;
      var needed := bufferEnd - bufferStart + |chunk|;
      if needed > buffer.Length {
        Grow(needed);
      } else if bufferEnd + |chunk| > buffer.Length {
        MoveToFront();
      }
      Write(chunk);
    }

    /** `buffer.set(chunk, bufferEnd)`. */
    method Write(chunk: seq<byte>)
      requires Shaped() && bufferEnd + |chunk| <= buffer.Length
      modifies this`bufferEnd, buffer
      ensures Shaped() && Unread() == old(Unread()) + chunk
    {
      ghost var before := Unread();
      forall i | 0 <= i < |chunk| {
        buffer[bufferEnd + i] := chunk[i];
      }
      assert buffer[bufferStart..bufferEnd + |chunk|] == before + chunk;
      bufferEnd := bufferEnd + |chunk|;
    }

    /** The header at `bufferStart`, decoded with signed 32 bit shifts, and the
        frame behind it if all of it has arrived. */
    method Peek() returns (head: Head)
      requires Shaped()
      ensures head == Scan(Unread(), maxReliable)
    {
      assert buffer[..bufferEnd][bufferStart..] == Unread();
      ScanAt(buffer[..bufferEnd], bufferStart, maxReliable);
      var available := bufferEnd - bufferStart;
      if available < HEADER_LEN {
        return NeedMore;
      }
      var at := bufferStart;
      var length := FrameLength(buffer[at], buffer[at + 1], buffer[at + 2], buffer[at + 3]);
      FrameLengthIsBigEndian(buffer[at], buffer[at + 1], buffer[at + 2], buffer[at + 3]);
      var channel := buffer[at + 4];
      if length > maxReliable {
        return TooLarge(length);
      }
      if available < HEADER_LEN + length {
        return NeedMore;
      }
      var from := at + HEADER_LEN;
      assert buffer[..bufferEnd][from..from + length] == buffer[from..from + length];
      return Complete(Message(channel, buffer[from..from + length]));
    }

    method Skip(n: nat)
      requires Shaped() && n <= bufferEnd - bufferStart
      modifies this`bufferStart
      ensures Shaped() && Unread() == old(Unread())[n..]
    {
      bufferStart := bufferStart + n;
    }

    method TakeFrame(f: Message, why: seq<byte>)
      requires Shaped() && HEADER_LEN + |f.payload| <= bufferEnd - bufferStart
      modifies this`bufferStart, this`state, this`datagramWriter, this`reliableWriter, this`transport, this`events,
               this`queuedBytes, this`word, this`data
      ensures Shaped() && View() == BrowserSession.TakeFrame(old(View()), f, why)
    {
      ghost var m := View();
      Skip(HEADER_LEN + |f.payload|);
      assert View() == m.(unread := m.unread[HEADER_LEN + |f.payload|..]);
      if f.payload != [] {
        PushData(f.channel, f.payload, why);
      }
    }

    /** One round of the frame loop; `more` says whether there is another. */
    method FrameStep(why: seq<byte>) returns (more: bool)
      requires Shaped()
      modifies this`bufferStart, this`state, this`datagramWriter, this`reliableWriter, this`transport, this`events,
               this`queuedBytes, this`word, this`data
      ensures Shaped()
      ensures more ==> BrowserSession.ParseFrames(View(), why) == BrowserSession.ParseFrames(old(View()), why)
      ensures more ==> bufferStart > old(bufferStart)
      ensures !more ==> View() == BrowserSession.ParseFrames(old(View()), why)
      ensures !more && state != Idle ==> bufferEnd - bufferStart <= maxReliable + 4
    {
      ghost var m := View();
      var head := Peek();
      match head {
        case NeedMore =>
          more := false;
        case TooLarge(_) =>
          Fail(ERROR_INVALID_RECEIVE, why);
          more := false;
        case Complete(f) =>
          TakeFrame(f, why);
          more := f.payload == [] || state != Idle;
      }
    }

    method FrameLoop(why: seq<byte>)
      requires Shaped()
      modifies this`bufferStart, this`state, this`datagramWriter, this`reliableWriter, this`transport, this`events,
               this`queuedBytes, this`word, this`data
      ensures Shaped() && View() == BrowserSession.ParseFrames(old(View()), why)
      ensures state != Idle ==> bufferEnd - bufferStart <= maxReliable + 4
    {
      var more := true;
      while more
        invariant Shaped()
        invariant if more then BrowserSession.ParseFrames(View(), why) == BrowserSession.ParseFrames(old(View()), why)
                  else View() == BrowserSession.ParseFrames(old(View()), why)
        invariant !more && state != Idle ==> bufferEnd - bufferStart <= maxReliable + 4
        decreases more, bufferEnd - bufferStart
      {
        more := FrameStep(why);
      }
    }

    /** Reclaims the consumed prefix once it is worth the move. */
    method Reclaim()
      requires Shaped()
      modifies this`bufferStart, this`bufferEnd, buffer
      ensures Shaped() && Unread() == old(Unread())
      ensures bufferEnd - bufferStart == old(bufferEnd - bufferStart)
    {
      if bufferStart == bufferEnd {
        bufferStart := 0;
        bufferEnd := 0;
      } else if bufferStart >= COMPACT_AT {
        MoveToFront();
      }
    }

    method HandshakeComplete(datagrams: bool) returns (started: seq<Callback>)
      requires Shaped()
      modifies this`state, this`events, this`queuedBytes, this`word
      ensures Shaped() && Effect(View(), started) == BrowserSession.HandshakeComplete(old(View()), datagrams)
    {
      if state != Connecting {
        return [];
      }
      state := Live;
      assert View() == old(View()).(link := old(View()).link.(state := Live));
      Push(Event(Connected, 0, ERROR_NONE, url, epoch));
      started := [];
      if datagrams && transport.Some? {
        started := [Callback(transport.value, DatagramRead)];
      }
    }

    method PrologueMatches() returns (same: bool)
      requires Shaped() && bufferEnd - bufferStart >= |PROLOGUE|
      ensures same == (View().unread[..|PROLOGUE|] == PROLOGUE)
    {
      for i := 0 to |PROLOGUE|
        invariant forall k :: 0 <= k < i ==> Unread()[k] == PROLOGUE[k]
      {
        assert buffer[bufferStart + i] == Unread()[i];
        if buffer[bufferStart + i] != PROLOGUE[i] {
          assert Unread()[..|PROLOGUE|][i] != PROLOGUE[i];
          return false;
        }
      }
      assert Unread()[..|PROLOGUE|] == PROLOGUE;
      return true;
    }

    method AcceptPrologue()
      requires Shaped() && bufferEnd - bufferStart >= |PROLOGUE|
      modifies this`bufferStart, this`prologueDone
      ensures Shaped() && View() == old(View()).Greeted()
    {
      Skip(|PROLOGUE|);
      prologueDone := true;
    }

    /** The prologue, once four bytes are there; `go` says whether the frame
        loop follows. */
    method ParsePrologue(datagrams: bool, why: seq<byte>) returns (started: seq<Callback>, go: bool)
      requires Shaped() && !prologueDone
      modifies this`bufferStart, this`prologueDone, this`state, this`datagramWriter, this`reliableWriter,
               this`transport, this`events, this`queuedBytes, this`word
      ensures Shaped() && (Effect(View(), started), go) == BrowserSession.ParsePrologue(old(View()), datagrams, why)
      ensures !go && state != Idle ==> bufferEnd - bufferStart < |PROLOGUE|
    {
      started, go := [], false;
      if bufferEnd - bufferStart < |PROLOGUE| {
        return;
      }
      var same := PrologueMatches();
      if !same {
        Fail(ERROR_INVALID_RECEIVE, why);
        return;
      }
      AcceptPrologue();
      started := HandshakeComplete(datagrams);
      go := state == Live;
    }

    /** Delivers what is complete and tidies up the buffer. */
    method ParseBuffered(why: seq<byte>)
      requires Shaped()
      modifies this, buffer
      ensures Valid() && buffer == old(buffer) && largestChunk == old(largestChunk)
      ensures View() == BrowserSession.ParseFrames(old(View()), why)
    {
      FrameLoop(why);
      if state == Idle {
        return;
      }
      ghost var parsed := View();
      Reclaim();
      assert View() == parsed;
    }

    method Parse(datagrams: bool, why: seq<byte>) returns (started: seq<Callback>)
      requires Shaped() && state != Idle
      modifies this, buffer
      ensures Valid() && buffer == old(buffer) && largestChunk == old(largestChunk)
      ensures Effect(View(), started) == BrowserSession.Parse(old(View()), datagrams, why)
    {
      started := [];
      if !prologueDone {
        var go: bool;
        started, go := ParsePrologue(datagrams, why);
        if !go {
          return;
        }
      }
      ParseBuffered(why);
    }

    // -----------------------------------------------------------------------
    // Promise callbacks
    // -----------------------------------------------------------------------

    predicate IsCurrent(session: nat)
      reads this`transport
    {
      transport == Some(session)
    }

    method OnReady(o: Outcome, why: seq<byte>) returns (started: seq<Callback>)
      requires Valid()
      modifies this
      ensures Valid() && buffer == old(buffer) && largestChunk == old(largestChunk)
      ensures Effect(View(), started) == BrowserSession.OnReady(old(View()), o, why)
    {
      started := [];
      if transport.None? || state != Connecting {
        return;
      }
      if o.Threw? {
        Fail(ERROR_UNEXPECTED, why);
        return;
      }
      datagramWriter := true;
      started := [Callback(transport.value, StreamOpened)];
    }

    method OnStreamOpened(session: nat, o: Outcome, why: seq<byte>) returns (started: seq<Callback>)
      requires Valid()
      modifies this
      ensures Valid() && buffer == old(buffer) && largestChunk == old(largestChunk)
      ensures Effect(View(), started) == BrowserSession.OnStreamOpened(old(View()), session, o, why)
    {
      started := [];
      if !IsCurrent(session) {
        return;
      }
      if o.Rejected? || o.Threw? {
        Fail(ERROR_CONNECTION_CLOSED, why);
        return;
      }
      reliableWriter := true;
      wire := PROLOGUE;
      started := [Callback(session, PrologueWritten)];
    }

    method OnReliableRead(session: nat, o: Outcome, why: seq<byte>) returns (started: seq<Callback>)
      requires Valid() && (transport.Some? ==> state != Idle)
      modifies this, buffer
      ensures Valid() && (buffer == old(buffer) || fresh(buffer))
      ensures largestChunk == old(largestChunk) || (o.Chunk? && largestChunk == |o.bytes|)
      ensures Effect(View(), started) == BrowserSession.OnReliableRead(old(View()), session, o, why)
    {
      started := [];
      if !IsCurrent(session) {
        return;
      }
      if !o.Chunk? {
        Close(ERROR_CONNECTION_CLOSED, why);
        return;
      }
      ghost var m := View();
      Append(o.bytes);
      assert View() == m.(unread := m.unread + o.bytes);
      started := Parse(o.datagrams, why);
      if !IsCurrent(session) {
        return;
      }
      started := started + [Callback(session, ReliableRead)];
    }

    method OnDatagramRead(session: nat, o: Outcome, why: seq<byte>) returns (started: seq<Callback>)
      requires Valid()
      modifies this
      ensures Valid() && buffer == old(buffer) && largestChunk == old(largestChunk)
      ensures Effect(View(), started) == BrowserSession.OnDatagramRead(old(View()), session, o, why)
    {
      started := [];
      if !o.Chunk? || !IsCurrent(session) {
        return;
      }
      if |o.bytes| > 0 {
        var length := |o.bytes| - 1;
        if length <= maxUnreliable {
          PushData(o.bytes[0], o.bytes[1..], why);
          if !IsCurrent(session) {
            return;
          }
        }
      }
      started := [Callback(session, DatagramRead)];
    }

    method OnFrameWritten(session: nat, size: nat, o: Outcome, why: seq<byte>)
      requires Valid()
      modifies this
      ensures Valid() && buffer == old(buffer) && largestChunk == old(largestChunk)
      ensures Effect(View(), []) == BrowserSession.OnFrameWritten(old(View()), session, size, o, why)
    {
      if !IsCurrent(session) {
        return;
      }
      if o.Rejected? || o.Threw? {
        Close(ERROR_CONNECTION_CLOSED, why);
      } else {
        pendingSend := pendingSend - size;
      }
    }

    method OnClosed(session: nat, why: seq<byte>)
      requires Valid()
      modifies this
      ensures Valid() && buffer == old(buffer) && largestChunk == old(largestChunk)
      ensures Effect(View(), []) == BrowserSession.OnClosed(old(View()), session, why)
    {
      if !IsCurrent(session) {
        return;
      }
      Close(ERROR_CONNECTION_CLOSED, why);
    }

    method OnReadySettled(session: nat, o: Outcome, why: seq<byte>) returns (started: seq<Callback>)
      requires Valid()
      modifies this
      ensures Valid() && buffer == old(buffer) && largestChunk == old(largestChunk)
      ensures Effect(View(), started) == BrowserSession.OnReadySettled(old(View()), session, o, why)
    {
      started := [];
      if !IsCurrent(session) {
        return;
      }
      if o.Rejected? {
        Fail(ERROR_CONNECTION_CLOSED, why);
      } else {
        started := OnReady(o, why);
      }
    }

    method OnPrologueWritten(session: nat, o: Outcome, why: seq<byte>) returns (started: seq<Callback>)
      requires Valid()
      modifies this
      ensures Valid() && buffer == old(buffer) && largestChunk == old(largestChunk)
      ensures Effect(View(), started) == BrowserSession.OnPrologueWritten(old(View()), session, o, why)
    {
      started := [];
      if !IsCurrent(session) {
        return;
      }
      if o.Rejected? || o.Threw? {
        Fail(ERROR_CONNECTION_CLOSED, why);
      } else {
        started := [Callback(session, ReliableRead)];
      }
    }

    /** The promise behind `cb` settles. */
    method Settle(cb: Callback, o: Outcome, why: seq<byte>) returns (started: seq<Callback>)
      requires Valid() && (transport.Some? ==> state != Idle)
      modifies this, buffer
      ensures Valid() && (buffer == old(buffer) || fresh(buffer))
      ensures largestChunk == old(largestChunk) || (o.Chunk? && largestChunk == |o.bytes|)
      ensures Effect(View(), started) == BrowserSession.React(old(View()), cb, o, why)
    {
      started := [];
      match cb.kind
      case SessionClosed => OnClosed(cb.session, why);
      case SessionReady => started := OnReadySettled(cb.session, o, why);
      case StreamOpened => started := OnStreamOpened(cb.session, o, why);
      case PrologueWritten => started := OnPrologueWritten(cb.session, o, why);
      case ReliableRead => started := OnReliableRead(cb.session, o, why);
      case DatagramRead => started := OnDatagramRead(cb.session, o, why);
      case FrameWritten(size) => OnFrameWritten(cb.session, size, o, why);
    }

    // -----------------------------------------------------------------------
    // Calls from C#
    // -----------------------------------------------------------------------

    method RefuseUnsupported(why: seq<byte>)
      requires Valid() && !supported
      modifies this`events, this`word
      ensures Valid()
      ensures View() == BrowserSession.Connect(old(View()), url, Created, maxReliable, maxUnreliable, why).m
    {
      var error := Event(Error, 0, ERROR_UNEXPECTED, why, epoch);
      events := events + [error, error.(kind := Disconnected)];
      word := word + [Error, Disconnected];
    }

    method Connect(url: seq<byte>, attempt: Attempt, maxReliable: nat, maxUnreliable: nat, why: seq<byte>)
      returns (started: seq<Callback>)
      requires Valid()
      modifies this
      ensures Valid() && (buffer == old(buffer) || fresh(buffer))
      ensures largestChunk == old(largestChunk) || largestChunk == 0
      ensures Effect(View(), started) ==
              BrowserSession.Connect(old(View()), url, attempt, maxReliable, maxUnreliable, why)
    {
      started := [];
      if !supported {
        RefuseUnsupported(why);
        return;
      }
      Renew(url, maxReliable, maxUnreliable);
      if attempt.Created? {
        StartConnecting();
        started := [Callback(epoch, SessionClosed), Callback(epoch, SessionReady)];
      } else {
        FailToStart(why);
      }
    }

    method Renew(url: seq<byte>, maxReliable: nat, maxUnreliable: nat)
      requires Valid()
      modifies this
      ensures Valid() && fresh(buffer) && largestChunk == 0
      ensures View() == BrowserSession.Reset(old(View())).(limits := Limits(supported, url, maxReliable, maxUnreliable))
    {
      Reset();
      SetLimits(url, maxReliable, maxUnreliable);
    }

    method SetLimits(url: seq<byte>, maxReliable: nat, maxUnreliable: nat)
      requires Shaped() && buffer.Length == INITIAL_CAPACITY
      modifies this`url, this`maxReliable, this`maxUnreliable
      ensures Shaped() && View() == old(View()).(limits := Limits(supported, url, maxReliable, maxUnreliable))
    {
      this.url := url;
      this.maxReliable := maxReliable;
      this.maxUnreliable := maxUnreliable;
    }

    method FailToStart(why: seq<byte>)
      requires Shaped()
      modifies this`state, this`datagramWriter, this`reliableWriter, this`transport, this`events, this`queuedBytes,
               this`word
      ensures Shaped() && state == Idle
      ensures var m := old(View());
              View() == BrowserSession.Fail(m.(link := m.link.(state := Connecting)), ERROR_UNEXPECTED, why)
    {
      ghost var m := View();
      state := Connecting;
      assert View() == m.(link := m.link.(state := Connecting));
      Fail(ERROR_UNEXPECTED, why);
    }

    method StartConnecting()
      requires Shaped()
      modifies this`transport, this`state
      ensures Shaped()
      ensures View() == old(View()).(link := old(View()).link.(transport := Some(epoch), state := Connecting))
    {
      transport := Some(epoch);
      state := Connecting;
    }

    method LocalDisconnect(why: seq<byte>)
      requires Valid()
      modifies this
      ensures Valid() && buffer == old(buffer) && largestChunk == old(largestChunk)
      ensures View() == BrowserSession.LocalDisconnect(old(View()), why)
    {
      if state == Idle {
        return;
      }
      Close(ERROR_CONNECTION_CLOSED, why);
    }

    method Send(channel: int, payload: seq<byte>, reliable: bool, why: seq<byte>)
      returns (started: seq<Callback>, accepted: bool)
      requires Valid() && |payload| < TWO31
      modifies this
      ensures Valid() && buffer == old(buffer) && largestChunk == old(largestChunk)
      ensures (Effect(View(), started), accepted) == BrowserSession.Send(old(View()), channel, payload, reliable, why)
    {
      started, accepted := [], false;
      if state != Live {
        return;
      }
      if !reliable {
        accepted := datagramWriter;
        return;
      }
      if !reliableWriter {
        return;
      }
      var frame := MakeFrame(channel, payload);
      if pendingSend + |frame| > MAX_PENDING_SEND_BYTES {
        Fail(ERROR_UNEXPECTED, why);
        return;
      }
      HandOver(frame);
      if transport.Some? {
        started := [Callback(transport.value, FrameWritten(|frame|))];
      }
      accepted := true;
    }

    static method MakeFrame(channel: int, payload: seq<byte>) returns (frame: seq<byte>)
      requires |payload| < TWO31
      ensures frame == EncodeFrame(Message(channel % 256, payload))
    {
      LengthBytesAreBigEndian(|payload|);
      frame := LengthBytes(|payload|) + [channel % 256] + payload;
    }

    method HandOver(frame: seq<byte>)
      requires Valid()
      modifies this`pendingSend, this`wire
      ensures Valid() && View() == old(View()).HandedOver(frame)
    {
      pendingSend := pendingSend + |frame|;
      wire := wire + frame;
    }

    method Poll(capacity: nat, why: seq<byte>) returns (r: Option<Event>)
      requires Valid()
      modifies this
      ensures Valid() && buffer == old(buffer) && largestChunk == old(largestChunk)
      ensures (View(), r) == BrowserSession.Poll(old(View()), capacity, why)
    {
      if events == [] {
        return None;
      }
      var e := events[0];
      events := events[1..];
      queuedBytes := Max(0, queuedBytes - |e.data|);
      if |e.data| > capacity {
        var shown := if |why| > capacity then why[..capacity] else why;
        return Some(Event(Error, 0, ERROR_INVALID_RECEIVE, shown, e.origin));
      }
      return Some(e);
    }
  }
}
