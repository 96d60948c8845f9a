/** The browser plugin's session object as a value, and what each of its
    functions does to it.

    `word`, `data`, `wire` and `epoch` are bookkeeping the program does not keep:
    the kinds and the messages queued since the last `Reset`, the bytes handed to
    the reliable stream since then, and how many resets there have been. A
    session is identified by the epoch in which its transport was created, so
    that identities never recur, as JavaScript object identities never do. */
module BrowserSession {
  import opened Framing
  import opened Options
  import opened Grammar

  const PROLOGUE: seq<byte> := [77, 87, 84, 49]
  const MAX_QUEUED_BYTES := 16 * 1024 * 1024
  const MAX_PENDING_SEND_BYTES := 4 * 1024 * 1024

  const ERROR_NONE := 0
  const ERROR_INVALID_RECEIVE := 5
  const ERROR_CONNECTION_CLOSED := 7
  const ERROR_UNEXPECTED := 8

  datatype State = Idle | Connecting | Live

  datatype Event = Event(kind: Kind, channel: int, code: int, data: seq<byte>, origin: nat)

  datatype Limits = Limits(supported: bool, url: seq<byte>, maxReliable: nat, maxUnreliable: nat)

  datatype Link = Link(
    transport: Option<nat>,
    state: State,
    datagramWriter: bool,
    reliableWriter: bool,
    prologueDone: bool,
    pendingSend: int)

  datatype Queue = Queue(events: seq<Event>, queuedBytes: nat)

  datatype Trace = Trace(word: seq<Kind>, data: seq<Message>, wire: seq<byte>, epoch: nat)

  datatype Session = Session(limits: Limits, link: Link, queue: Queue, unread: seq<byte>, trace: Trace)
  {
    predicate IsCurrent(session: nat) { link.transport == Some(session) }

    function Greeted(): (r: Session)
      requires |unread| >= |PROLOGUE|
    {
      this.(unread := unread[|PROLOGUE|..], link := link.(prologueDone := true))
    }

    function Opened(): (r: Session) {
      this.(link := link.(reliableWriter := true), trace := trace.(wire := PROLOGUE))
    }

    function Paid(size: nat): (r: Session) { this.(link := link.(pendingSend := link.pendingSend - size)) }

    function HandedOver(frame: seq<byte>): (r: Session) {
      this.(link := link.(pendingSend := link.pendingSend + |frame|), trace := trace.(wire := trace.wire + frame))
    }

    function Closed(): (r: Session) {
      this.(link := link.(state := Idle, datagramWriter := false, reliableWriter := false, transport := None))
    }
  }

  // -------------------------------------------------------------------------
  // Queueing and closing
  // -------------------------------------------------------------------------

  function Push(m: Session, e: Event): (r: Session) {
    m.(queue := Queue(m.queue.events + [e], m.queue.queuedBytes + |e.data|),
       trace := m.trace.(word := m.trace.word + [e.kind]))
  }

  function Close(m: Session, code: int, why: seq<byte>): (r: Session) {
    if m.link.state == Idle then m
    else Push(m.Closed(), Event(Disconnected, 0, code, why, m.trace.epoch))
  }

  function Fail(m: Session, code: int, why: seq<byte>): (r: Session) {
    Close(Push(m, Event(Error, 0, code, why, m.trace.epoch)), code, why)
  }

  function PushData(m: Session, channel: byte, payload: seq<byte>, why: seq<byte>): (r: Session) {
    if m.queue.queuedBytes + |payload| > MAX_QUEUED_BYTES then Fail(m, ERROR_UNEXPECTED, why)
    else
      var p := Push(m, Event(Data, channel, ERROR_NONE, payload, m.trace.epoch));
      p.(trace := p.trace.(data := p.trace.data + [Message(channel, payload)]))
  }

  function Reset(m: Session): (r: Session) {
    Session(m.limits, Link(None, Idle, false, false, false, 0), Queue([], 0), [], Trace([], [], [], m.trace.epoch + 1))
  }

  // -------------------------------------------------------------------------
  // Promise callbacks
  // -------------------------------------------------------------------------

  /** A promise whose settlement has not been seen yet, with the session its
      callback captured. */
  datatype Callback = Callback(session: nat, kind: CallbackKind)

  datatype CallbackKind =
    | SessionClosed
    | SessionReady
    | StreamOpened
    | PrologueWritten
    | ReliableRead
    | DatagramRead
    | FrameWritten(size: nat)

  /** How a promise settles. `Threw` is a fulfilled promise whose callback runs
      into an exception when it asks the browser for a reader or a writer;
      `datagrams` says whether the datagram reader is available when needed. */
  datatype Outcome =
    | Rejected
    | Ended
    | Threw
    | Chunk(bytes: seq<byte>, datagrams: bool)

  /** A new session value and the promises that were started on the way. */
  datatype Effect = Effect(m: Session, started: seq<Callback>)

  // -------------------------------------------------------------------------
  // The reliable stream
  // -------------------------------------------------------------------------

  /** One complete frame leaves the buffer; only a non-empty one is queued. */
  function TakeFrame(m: Session, f: Message, why: seq<byte>): (r: Session)
    requires HEADER_LEN + |f.payload| <= |m.unread|
    ensures r.unread == m.unread[HEADER_LEN + |f.payload|..]
  {
    var m1 := m.(unread := m.unread[HEADER_LEN + |f.payload|..]);
    if f.payload == [] then m1 else PushData(m1, f.channel, f.payload, why)
  }

  /** The frame loop of `Parse`. */
  function ParseFrames(m: Session, why: seq<byte>): (r: Session)
    decreases |m.unread|
  {
    match Scan(m.unread, m.limits.maxReliable)
    case NeedMore => m
    case TooLarge(_) => Fail(m, ERROR_INVALID_RECEIVE, why)
    case Complete(f) =>
      var m1 := TakeFrame(m, f, why);
      if f.payload != [] && m1.link.state == Idle then m1 else ParseFrames(m1, why)
  }

  function HandshakeComplete(m: Session, datagrams: bool): (r: Effect) {
    if m.link.state != Connecting then Effect(m, [])
    else
      var connected := Event(Connected, 0, ERROR_NONE, m.limits.url, m.trace.epoch);
      var live := Push(m.(link := m.link.(state := Live)), connected);
      Effect(live, if datagrams && m.link.transport.Some? then [Callback(m.link.transport.value, DatagramRead)] else [])
  }

  /** The part of `Parse` in front of the frame loop, and whether to go on. */
  function ParsePrologue(m: Session, datagrams: bool, why: seq<byte>): (r: (Effect, bool)) {
    if |m.unread| < |PROLOGUE| then (Effect(m, []), false)
    else if m.unread[..|PROLOGUE|] != PROLOGUE then (Effect(Fail(m, ERROR_INVALID_RECEIVE, why), []), false)
    else
      var e := HandshakeComplete(m.Greeted(), datagrams);
      (e, e.m.link.state == Live)
  }

  function Parse(m: Session, datagrams: bool, why: seq<byte>): (r: Effect) {
    var (e, go) := if m.link.prologueDone then (Effect(m, []), true) else ParsePrologue(m, datagrams, why);
    if go then e.(m := ParseFrames(e.m, why)) else e
  }

  // -------------------------------------------------------------------------
  // Callbacks
  // -------------------------------------------------------------------------

  function OnReady(m: Session, o: Outcome, why: seq<byte>): (r: Effect) {
    if m.link.transport.None? || m.link.state != Connecting then Effect(m, [])
    else if o.Threw? then Effect(Fail(m, ERROR_UNEXPECTED, why), [])
    else Effect(m.(link := m.link.(datagramWriter := true)), [Callback(m.link.transport.value, StreamOpened)])
  }

  function OnReliableRead(m: Session, session: nat, o: Outcome, why: seq<byte>): (r: Effect) {
    if !m.IsCurrent(session) then Effect(m, [])
    else if !o.Chunk? then Effect(Close(m, ERROR_CONNECTION_CLOSED, why), [])
    else
      var e := Parse(m.(unread := m.unread + o.bytes), o.datagrams, why);
      if !e.m.IsCurrent(session) then e else e.(started := e.started + [Callback(session, ReliableRead)])
  }

  function OnDatagramRead(m: Session, session: nat, o: Outcome, why: seq<byte>): (r: Effect) {
    if !o.Chunk? || !m.IsCurrent(session) then Effect(m, [])
    else if |o.bytes| > 0 && |o.bytes| - 1 <= m.limits.maxUnreliable then
      var m1 := PushData(m, o.bytes[0], o.bytes[1..], why);
      Effect(m1, if m1.IsCurrent(session) then [Callback(session, DatagramRead)] else [])
    else Effect(m, [Callback(session, DatagramRead)])
  }

  function OnClosed(m: Session, session: nat, why: seq<byte>): (r: Effect) {
    Effect(if m.IsCurrent(session) then Close(m, ERROR_CONNECTION_CLOSED, why) else m, [])
  }

  function OnReadySettled(m: Session, session: nat, o: Outcome, why: seq<byte>): (r: Effect) {
    if !m.IsCurrent(session) then Effect(m, [])
    else if o.Rejected? then Effect(Fail(m, ERROR_CONNECTION_CLOSED, why), [])
    else OnReady(m, o, why)
  }

  function OnStreamOpened(m: Session, session: nat, o: Outcome, why: seq<byte>): (r: Effect) {
    if !m.IsCurrent(session) then Effect(m, [])
    else if o.Rejected? || o.Threw? then Effect(Fail(m, ERROR_CONNECTION_CLOSED, why), [])
    else Effect(m.Opened(), [Callback(session, PrologueWritten)])
  }

  function OnPrologueWritten(m: Session, session: nat, o: Outcome, why: seq<byte>): (r: Effect) {
    if !m.IsCurrent(session) then Effect(m, [])
    else if o.Rejected? || o.Threw? then Effect(Fail(m, ERROR_CONNECTION_CLOSED, why), [])
    else Effect(m, [Callback(session, ReliableRead)])
  }

  function OnFrameWritten(m: Session, session: nat, size: nat, o: Outcome, why: seq<byte>): (r: Effect) {
    if !m.IsCurrent(session) then Effect(m, [])
    else if o.Rejected? || o.Threw? then Effect(Close(m, ERROR_CONNECTION_CLOSED, why), [])
    else Effect(m.Paid(size), [])
  }

  /** What the callback `cb` does when its promise settles with `o`. */
  function React(m: Session, cb: Callback, o: Outcome, why: seq<byte>): (r: Effect) {
    match cb.kind
    case SessionClosed => OnClosed(m, cb.session, why)
    case SessionReady => OnReadySettled(m, cb.session, o, why)
    case StreamOpened => OnStreamOpened(m, cb.session, o, why)
    case PrologueWritten => OnPrologueWritten(m, cb.session, o, why)
    case ReliableRead => OnReliableRead(m, cb.session, o, why)
    case DatagramRead => OnDatagramRead(m, cb.session, o, why)
    case FrameWritten(size) => OnFrameWritten(m, cb.session, size, o, why)
  }

  // -------------------------------------------------------------------------
  // Calls from C#
  // -------------------------------------------------------------------------

  /** The certificate hash argument, and whether the browser's constructor throws. */
  datatype Attempt = BadHash | ConstructorThrows | Created

  function Connect(m: Session, url: seq<byte>, attempt: Attempt, maxReliable: nat, maxUnreliable: nat,
                   why: seq<byte>): (r: Effect) {
    if !m.limits.supported then
      var error := Event(Error, 0, ERROR_UNEXPECTED, why, m.trace.epoch);
      Effect(m.(queue := m.queue.(events := m.queue.events + [error, error.(kind := Disconnected)]),
                trace := m.trace.(word := m.trace.word + [Error, Disconnected])), [])
    else
      var r := Reset(m).(limits := Limits(true, url, maxReliable, maxUnreliable));
      if attempt.Created? then
        Effect(r.(link := r.link.(transport := Some(r.trace.epoch), state := Connecting)),
               [Callback(r.trace.epoch, SessionClosed), Callback(r.trace.epoch, SessionReady)])
      else Effect(Fail(r.(link := r.link.(state := Connecting)), ERROR_UNEXPECTED, why), [])
  }

  function LocalDisconnect(m: Session, why: seq<byte>): (r: Session) {
    Close(m, ERROR_CONNECTION_CLOSED, why)
  }

  /** The result adds whether the plugin accepted the message. */
  function Send(m: Session, channel: int, payload: seq<byte>, reliable: bool, why: seq<byte>): (r: (Effect, bool)) {
    if m.link.state != Live then (Effect(m, []), false)
    else if !reliable then (Effect(m, []), m.link.datagramWriter)
    else if !m.link.reliableWriter then (Effect(m, []), false)
    else
      var frame := EncodeFrame(Message(channel % 256, payload));
      if m.link.pendingSend + |frame| > MAX_PENDING_SEND_BYTES then (Effect(Fail(m, ERROR_UNEXPECTED, why), []), false)
      else (Effect(m.HandedOver(frame),
                   if m.link.transport.Some? then [Callback(m.link.transport.value, FrameWritten(|frame|))] else []),
            true)
  }

  function Max(a: int, b: int): (r: int) { if a > b then a else b }

  /** What C# reads out of its header and buffer. An event that does not fit is
      replaced by an error text, which is cut to the capacity if need be. */
  function Rendered(e: Event, capacity: nat, why: seq<byte>): (r: Event) {
    if |e.data| > capacity then
      e.(kind := Error, code := ERROR_INVALID_RECEIVE, channel := 0,
         data := if |why| > capacity then why[..capacity] else why)
    else e
  }

  function Poll(m: Session, capacity: nat, why: seq<byte>): (r: (Session, Option<Event>)) {
    if m.queue.events == [] then (m, None)
    else
      var e := m.queue.events[0];
      (m.(queue := Queue(m.queue.events[1..], Max(0, m.queue.queuedBytes - |e.data|))),
       Some(Rendered(e, capacity, why)))
  }
}
