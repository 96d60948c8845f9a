/** What reaches Mirror through the receive buffer of the WebGL client. An event
    longer than the buffer is shown as something else; as long as everything fits,
    the client's state follows the plugin's and OnData carries exactly the
    messages the plugin has queued, in order. */
module ClientData {
  import opened Framing
  import opened Grammar
  import opened BrowserSession
  import opened BrowserRuns
  import opened ClientSession
  import opened ClientRuns

  /** What is to fit: every text up to `limit` bytes, and the messages as well if
      `messages` says so. */
  datatype Size = Size(limit: nat, messages: bool)
  {
    predicate Holds(e: Event) { |e.data| <= limit || (e.kind.Data? && !messages) }
  }

  predicate IsMessage(e: Event) { e.kind.Data? && 0 <= e.channel < 256 }

  /** The message an event carries, if it does. */
  function Carried(e: Event): (r: seq<Message>) { if IsMessage(e) then [Message(e.channel, e.data)] else [] }

  /** The messages among the queued events. */
  function DataIn(events: seq<Event>): (r: seq<Message>) {
    if events == [] then [] else Carried(events[0]) + DataIn(events[1..])
  }

  lemma {:induction false} DataInSnoc(events: seq<Event>, e: Event)
    ensures DataIn(events + [e]) == DataIn(events) + Carried(e)
  {
    if events == [] {
      assert events + [e] == [e] && [e][1..] == [];
      assert Carried(e) + [] == [] + Carried(e);
    } else {
      var head, tail := Carried(events[0]), events[1..];
      assert (events + [e])[0] == events[0] && (events + [e])[1..] == tail + [e];
      DataInSnoc(tail, e);
      assert head + (DataIn(tail) + Carried(e)) == head + DataIn(tail) + Carried(e);
    }
  }

  /** Everything queued is of the right size, and the messages among it are the
      last ones of the session. */
  ghost predicate Tidy(m: Session, size: Size) {
    && |m.limits.url| <= size.limit
    && (forall e :: e in m.queue.events ==> size.Holds(e) && (e.kind.Data? ==> IsMessage(e)))
    && |DataIn(m.queue.events)| <= |m.trace.data|
    && DataIn(m.queue.events) == m.trace.data[|m.trace.data| - |DataIn(m.queue.events)|..]
  }

  /** The session's messages that C# has polled. */
  function PolledData(m: Session): (r: seq<Message>)
    requires |DataIn(m.queue.events)| <= |m.trace.data|
  {
    m.trace.data[..|m.trace.data| - |DataIn(m.queue.events)|]
  }

  /** `p` is tidy again, C# has polled nothing more, and what was queued is still there. */
  ghost predicate StaysTidy(m: Session, p: Session, size: Size)
    requires Tidy(m, size)
  {
    && Tidy(p, size) && p.limits == m.limits && PolledData(p) == PolledData(m) && m.trace.data <= p.trace.data
  }

  lemma Untouched(m: Session, p: Session, size: Size)
    requires Tidy(m, size) && p.queue == m.queue && p.limits == m.limits && p.trace.data == m.trace.data
    ensures StaysTidy(m, p, size)
  {
  }

  lemma StaysTidyOn(m: Session, p: Session, q: Session, size: Size)
    requires Tidy(m, size) && StaysTidy(m, p, size) && StaysTidy(p, q, size)
    ensures StaysTidy(m, q, size)
  {
  }

  lemma PushStaysTidy(m: Session, e: Event, size: Size)
    requires Tidy(m, size) && size.Holds(e) && !e.kind.Data?
    ensures StaysTidy(m, Push(m, e), size)
  {
    DataInSnoc(m.queue.events, e);
    assert DataIn(m.queue.events) + [] == DataIn(m.queue.events);
  }

  lemma CloseStaysTidy(m: Session, code: int, why: seq<byte>, size: Size)
    requires Tidy(m, size) && |why| <= size.limit
    ensures StaysTidy(m, Close(m, code, why), size)
  {
    PushStaysTidy(m.Closed(), Event(Disconnected, 0, code, why, m.trace.epoch), size);
  }

  lemma FailStaysTidy(m: Session, code: int, why: seq<byte>, size: Size)
    requires Tidy(m, size) && |why| <= size.limit
    ensures StaysTidy(m, Fail(m, code, why), size)
  {
    var e := Event(Error, 0, code, why, m.trace.epoch);
    PushStaysTidy(m, e, size);
    CloseStaysTidy(Push(m, e), code, why, size);
  }

  lemma PushDataStaysTidy(m: Session, channel: byte, payload: seq<byte>, why: seq<byte>, size: Size)
    requires Tidy(m, size) && |why| <= size.limit && (size.messages ==> |payload| <= size.limit)
    ensures StaysTidy(m, PushData(m, channel, payload, why), size)
  {
    if m.queue.queuedBytes + |payload| > MAX_QUEUED_BYTES {
      FailStaysTidy(m, ERROR_UNEXPECTED, why, size);
    } else {
      var e := Event(Data, channel, ERROR_NONE, payload, m.trace.epoch);
      DataInSnoc(m.queue.events, e);
      var k := |m.trace.data| - |DataIn(m.queue.events)|;
      var data := m.trace.data + [Message(channel, payload)];
      assert data[k..] == m.trace.data[k..] + [Message(channel, payload)];
    }
  }

  lemma TakeFrameStaysTidy(m: Session, f: Message, why: seq<byte>, size: Size)
    requires Tidy(m, size) && |why| <= size.limit && (size.messages ==> |f.payload| <= size.limit)
    requires HEADER_LEN + |f.payload| <= |m.unread|
    ensures StaysTidy(m, TakeFrame(m, f, why), size)
  {
    var m0 := m.(unread := m.unread[HEADER_LEN + |f.payload|..]);
    Untouched(m, m0, size);
    if f.payload != [] {
      PushDataStaysTidy(m0, f.channel, f.payload, why, size);
    }
  }

  lemma {:induction false} ParseFramesStaysTidy(m: Session, why: seq<byte>, size: Size)
    requires Tidy(m, size) && |why| <= size.limit && (size.messages ==> m.limits.maxReliable <= size.limit)
    ensures StaysTidy(m, ParseFrames(m, why), size)
    decreases |m.unread|
  {
    match Scan(m.unread, m.limits.maxReliable)
    case NeedMore =>
    case TooLarge(_) => FailStaysTidy(m, ERROR_INVALID_RECEIVE, why, size);
    case Complete(f) =>
      var m1 := TakeFrame(m, f, why);
      TakeFrameStaysTidy(m, f, why, size);
      ParseFramesStaysTidy(m1, why, size);
      StaysTidyOn(m, m1, ParseFrames(m1, why), size);
  }

  lemma GreetingStaysTidy(m: Session, datagrams: bool, size: Size)
    requires Tidy(m, size) && |m.unread| >= |PROLOGUE|
    ensures StaysTidy(m, HandshakeComplete(m.Greeted(), datagrams).m, size)
  {
    var g := m.Greeted();
    Untouched(m, g, size);
    if g.link.state == Connecting {
      var live := g.(link := g.link.(state := Live));
      Untouched(m, live, size);
      PushStaysTidy(live, Event(Connected, 0, ERROR_NONE, g.limits.url, g.trace.epoch), size);
    }
  }

  lemma ParseStaysTidy(m: Session, datagrams: bool, why: seq<byte>, size: Size)
    requires Tidy(m, size) && |why| <= size.limit && (size.messages ==> m.limits.maxReliable <= size.limit)
    ensures StaysTidy(m, Parse(m, datagrams, why).m, size)
  {
    if m.link.prologueDone {
      ParseFramesStaysTidy(m, why, size);
    } else if |m.unread| >= |PROLOGUE| && m.unread[..|PROLOGUE|] != PROLOGUE {
      FailStaysTidy(m, ERROR_INVALID_RECEIVE, why, size);
    } else if |m.unread| >= |PROLOGUE| {
      var p := HandshakeComplete(m.Greeted(), datagrams).m;
      GreetingStaysTidy(m, datagrams, size);
      ParseFramesStaysTidy(p, why, size);
      StaysTidyOn(m, p, ParseFrames(p, why), size);
    }
  }

  /** The limits of a session that is under way. */
  ghost predicate Bounded(m: Session, size: Size) {
    size.messages && m.link.transport.Some? ==>
        m.limits.maxReliable <= size.limit && m.limits.maxUnreliable <= size.limit
  }

  lemma ReliableReadStaysTidy(m: Session, session: nat, o: Outcome, why: seq<byte>, size: Size)
    requires Tidy(m, size) && Bounded(m, size) && |why| <= size.limit
    ensures StaysTidy(m, OnReliableRead(m, session, o, why).m, size)
  {
    if m.IsCurrent(session) {
      if o.Chunk? {
        ParseStaysTidy(m.(unread := m.unread + o.bytes), o.datagrams, why, size);
      } else {
        CloseStaysTidy(m, ERROR_CONNECTION_CLOSED, why, size);
      }
    }
  }

  lemma DatagramReadStaysTidy(m: Session, session: nat, o: Outcome, why: seq<byte>, size: Size)
    requires Tidy(m, size) && Bounded(m, size) && |why| <= size.limit
    ensures StaysTidy(m, OnDatagramRead(m, session, o, why).m, size)
  {
    if m.IsCurrent(session) && o.Chunk? && |o.bytes| > 0 && |o.bytes| - 1 <= m.limits.maxUnreliable {
      PushDataStaysTidy(m, o.bytes[0], o.bytes[1..], why, size);
    }
  }

  lemma LifecycleStaysTidy(m: Session, session: nat, o: Outcome, why: seq<byte>, size: Size)
    requires Tidy(m, size) && |why| <= size.limit
    ensures StaysTidy(m, OnClosed(m, session, why).m, size)
    ensures StaysTidy(m, OnReadySettled(m, session, o, why).m, size)
  {
    CloseStaysTidy(m, ERROR_CONNECTION_CLOSED, why, size);
    FailStaysTidy(m, ERROR_CONNECTION_CLOSED, why, size);
    FailStaysTidy(m, ERROR_UNEXPECTED, why, size);
    Untouched(m, m.(link := m.link.(datagramWriter := true)), size);
  }

  lemma OpeningStaysTidy(m: Session, session: nat, o: Outcome, why: seq<byte>, size: Size)
    requires Tidy(m, size) && |why| <= size.limit
    ensures StaysTidy(m, OnStreamOpened(m, session, o, why).m, size)
    ensures StaysTidy(m, OnPrologueWritten(m, session, o, why).m, size)
  {
    FailStaysTidy(m, ERROR_CONNECTION_CLOSED, why, size);
    Untouched(m, m.Opened(), size);
  }

  lemma FrameWrittenStaysTidy(m: Session, session: nat, paid: nat, o: Outcome, why: seq<byte>, size: Size)
    requires Tidy(m, size) && |why| <= size.limit
    ensures StaysTidy(m, OnFrameWritten(m, session, paid, o, why).m, size)
  {
    CloseStaysTidy(m, ERROR_CONNECTION_CLOSED, why, size);
    Untouched(m, m.Paid(paid), size);
  }

  lemma ReactStaysTidy(m: Session, cb: Callback, o: Outcome, why: seq<byte>, size: Size)
    requires Tidy(m, size) && Bounded(m, size) && |why| <= size.limit
    ensures StaysTidy(m, React(m, cb, o, why).m, size)
  {
    match cb.kind
    case ReliableRead => ReliableReadStaysTidy(m, cb.session, o, why, size);
    case DatagramRead => DatagramReadStaysTidy(m, cb.session, o, why, size);
    case SessionClosed => LifecycleStaysTidy(m, cb.session, o, why, size);
    case SessionReady => LifecycleStaysTidy(m, cb.session, o, why, size);
    case FrameWritten(paid) => FrameWrittenStaysTidy(m, cb.session, paid, o, why, size);
    case _ => OpeningStaysTidy(m, cb.session, o, why, size);
  }

  lemma SendStaysTidy(m: Session, channel: int, payload: seq<byte>, reliable: bool, why: seq<byte>, size: Size)
    requires Tidy(m, size) && |why| <= size.limit
    ensures StaysTidy(m, Send(m, channel, payload, reliable, why).0.m, size)
  {
    FailStaysTidy(m, ERROR_UNEXPECTED, why, size);
    Untouched(m, m.HandedOver(EncodeFrame(Message(channel % 256, payload))), size);
  }

  lemma ConnectIsTidy(m: Session, url: seq<byte>, attempt: Attempt, maxReliable: nat, maxUnreliable: nat,
                      why: seq<byte>, size: Size)
    requires m.limits.supported && |url| <= size.limit && |why| <= size.limit
    requires size.messages ==> maxReliable <= size.limit && maxUnreliable <= size.limit
    ensures var p := BrowserSession.Connect(m, url, attempt, maxReliable, maxUnreliable, why).m;
            Tidy(p, size) && Bounded(p, size) && p.trace.data == []
  {
    var r := Reset(m).(limits := Limits(true, url, maxReliable, maxUnreliable));
    if !attempt.Created? {
      FailStaysTidy(r.(link := r.link.(state := Connecting)), ERROR_UNEXPECTED, why, size);
    }
  }

  lemma PollStaysTidy(m: Session, capacity: nat, why: seq<byte>, size: Size)
    requires Tidy(m, size) && m.queue.events != []
    ensures
      var p, e := Poll(m, capacity, why).0, m.queue.events[0];
      && Tidy(p, size) && p.trace == m.trace && p.limits == m.limits && p.link == m.link
      && PolledData(p) == PolledData(m) + Carried(e)
  {
    var e, later := m.queue.events[0], DataIn(m.queue.events[1..]);
    var front := Carried(e);
    var k := |m.trace.data| - |front| - |later|;
    assert m.trace.data[k..] == front + later;
    assert m.trace.data[k + |front|..] == later;
    assert m.trace.data[..k + |front|] == m.trace.data[..k] + front;
  }

  // -------------------------------------------------------------------------
  // Over whole runs
  // -------------------------------------------------------------------------

  /** No text of the move is longer than `texts`, and no buffer is shorter than
      `room`; with `messages`, no message may be longer than `texts` either. */
  predicate Small(v: Move, texts: nat, room: nat, messages: bool) {
    match v
    case GameConnect(url, _, maxReliable, maxUnreliable, why) =>
      |url| <= texts && |why| <= texts && (messages ==> maxReliable <= texts && maxUnreliable <= texts)
    case GameDisconnect(why) => |why| <= texts
    case GameShutdown(why) => |why| <= texts
    case GameSend(_, _, _, _, why) => |why| <= texts
    case ClientTick(capacity, _) => capacity >= room
    case Settlement(_, _, why) => |why| <= texts
  }

  /** The messages Mirror has heard since the last attempt to connect. */
  function HeardData(log: seq<Call>): (r: seq<Message>) {
    if log == [] then []
    else
      match log[|log| - 1]
      case Attempted(_) => []
      case OnData(channel, payload, _) =>
        HeardData(log[..|log| - 1]) + if 0 <= channel < 256 then [Message(channel, payload)] else []
      case _ => HeardData(log[..|log| - 1])
  }

  lemma HeardDataSnoc(log: seq<Call>, c: Call)
    ensures HeardData(log + [c]) ==
            match c
            case Attempted(_) => []
            case OnData(channel, payload, _) =>
              HeardData(log) + if 0 <= channel < 256 then [Message(channel, payload)] else []
            case _ => HeardData(log)
  {
    assert (log + [c])[..|log|] == log;
  }

  lemma RefusalHearsNothing(log: seq<Call>, n: nat)
    ensures HeardData(log + [Attempted(n)] + [OnError(n)] + [OnDisconnected(n)]) == []
  {
    HeardDataSnoc(log, Attempted(n));
    HeardDataSnoc(log + [Attempted(n)], OnError(n));
    HeardDataSnoc(log + [Attempted(n)] + [OnError(n)], OnDisconnected(n));
  }

  /** Nothing is lost on the way to Mirror. */
  ghost predicate NothingLost(s: System, size: Size) {
    && Tidy(s.w.m, size) && Bounded(s.w.m, size) && !s.c.lost
    && (size.messages ==>
         HeardData(s.c.log) <= s.w.m.trace.data && (!s.c.Off() ==> HeardData(s.c.log) == PolledData(s.w.m)))
  }

  /** Steps of the plugin on which the client hears nothing. */
  lemma PluginLosesNothing(s: System, w': World, size: Size)
    requires NothingLost(s, size) && StaysTidy(s.w.m, w'.m, size)
    requires w'.m.link.transport == s.w.m.link.transport || w'.m.link.transport.None?
    ensures NothingLost(System(w', s.c), size)
  {
  }

  lemma ConnectLosesNothing(s: System, url: seq<byte>, attempt: Attempt, maxReliable: nat, maxUnreliable: nat,
                            why: seq<byte>, size: Size, room: nat)
    requires NothingLost(s, size)
    requires Small(GameConnect(url, attempt, maxReliable, maxUnreliable, why), size.limit, room, size.messages)
    ensures NothingLost(Do(s, GameConnect(url, attempt, maxReliable, maxUnreliable, why)), size)
  {
    if s.c.Off() {
      var log, n := s.c.log, s.w.m.trace.epoch;
      if s.w.m.limits.supported {
        ConnectIsTidy(s.w.m, url, attempt, maxReliable, maxUnreliable, why, size);
        HeardDataSnoc(log, Attempted(n + 1));
      } else {
        RefusalHearsNothing(log, n);
      }
    }
  }

  lemma ShutdownLosesNothing(s: System, why: seq<byte>, size: Size)
    requires NothingLost(s, size) && |why| <= size.limit
    ensures NothingLost(Do(s, GameShutdown(why)), size)
  {
    HeardDataSnoc(s.c.log, Stopped);
    CloseStaysTidy(s.w.m, ERROR_CONNECTION_CLOSED, why, size);
  }

  /** A message is only ever polled by a client that is connected. */
  lemma MessagesMeetConnected(s: System, capacity: nat, why: seq<byte>)
    requires SysInv(s) && !s.c.Off() && !s.c.lost && s.w.m.queue.events != [] && s.w.m.queue.events[0].kind.Data?
    ensures s.c.connected
  {
    var m := s.w.m;
    NextEvent(m, capacity, why);
    PhaseMeaning(m.trace.word);
    assert m.trace.word[Polled(m)] == Data;
    assert Seen(m)[0] == Connected;
  }

  lemma DispatchHears(c: Client, e: Event)
    requires !c.Off() && (e.kind.Data? ==> c.connected && IsMessage(e))
    ensures HeardData(Dispatch(c, e).log) ==
            HeardData(c.log) + Carried(e)
  {
    match e.kind
    case Connected => HeardDataSnoc(c.log, OnConnected(e.origin));
    case Data => HeardDataSnoc(c.log, OnData(e.channel, e.data, e.origin));
    case Disconnected => HeardDataSnoc(c.log, OnDisconnected(e.origin));
    case Error => HeardDataSnoc(c.log, OnError(e.origin));
  }

  lemma TickLosesNothing(s: System, capacity: nat, why: seq<byte>, size: Size)
    requires SysInv(s) && NothingLost(s, size) && capacity >= size.limit
    ensures NothingLost(Do(s, ClientTick(capacity, why)), size)
  {
    var m := s.w.m;
    if !s.c.Off() && m.queue.events != [] {
      var e := m.queue.events[0];
      PollStaysTidy(m, capacity, why, size);
      if e.kind.Data? {
        MessagesMeetConnected(s, capacity, why);
      }
      if size.messages {
        assert Rendered(e, capacity, why) == e;
        DispatchHears(s.c, e);
      }
    }
  }

  lemma SendLosesNothing(s: System, channel: int, payload: seq<byte>, maximum: nat, reliable: bool, why: seq<byte>,
                         size: Size)
    requires NothingLost(s, size) && |why| <= size.limit
    ensures NothingLost(Do(s, GameSend(channel, payload, maximum, reliable, why)), size)
  {
    SendStaysTidy(s.w.m, channel, payload, reliable, why, size);
    SendEvolves(s.w.m, channel, payload, reliable, why);
    PluginLosesNothing(s, Step(s.w, CallSend(channel, payload, reliable, why)), size);
  }

  lemma SettlementLosesNothing(s: System, h: nat, o: Outcome, why: seq<byte>, size: Size)
    requires SysInv(s) && NothingLost(s, size) && |why| <= size.limit
    ensures NothingLost(Do(s, Settlement(h, o, why)), size)
  {
    if h in s.w.pending {
      ReactStaysTidy(s.w.m, s.w.pending[h], o, why, size);
      ReactFollows(s.w.m, s.w.pending[h], o, why);
      PluginLosesNothing(s, Step(s.w, Settles(h, o, why)), size);
    }
  }

  lemma MoveLosesNothing(s: System, v: Move, size: Size, room: nat)
    requires SysInv(s) && NothingLost(s, size) && size.limit <= room && Small(v, size.limit, room, size.messages)
    ensures NothingLost(Do(s, v), size)
  {
    match v
    case GameConnect(url, attempt, maxReliable, maxUnreliable, why) =>
      ConnectLosesNothing(s, url, attempt, maxReliable, maxUnreliable, why, size, room);
    case GameDisconnect(why) => CloseStaysTidy(s.w.m, ERROR_CONNECTION_CLOSED, why, size);
    case GameShutdown(why) => ShutdownLosesNothing(s, why, size);
    case GameSend(channel, payload, maximum, reliable, why) =>
      SendLosesNothing(s, channel, payload, maximum, reliable, why, size);
    case ClientTick(capacity, why) => TickLosesNothing(s, capacity, why, size);
    case Settlement(h, o, why) => SettlementLosesNothing(s, h, o, why, size);
  }

  lemma {:induction false} PlayLosesNothing(s: System, moves: seq<Move>, size: Size, room: nat)
    requires SysInv(s) && NothingLost(s, size) && size.limit <= room
    requires forall v :: v in moves ==> Small(v, size.limit, room, size.messages)
    ensures NothingLost(Play(s, moves), size)
    decreases |moves|
  {
    if moves != [] {
      MoveLosesNothing(s, moves[0], size, room);
      MoveKeepsInv(s, moves[0]);
      PlayLosesNothing(Do(s, moves[0]), moves[1..], size, room);
    }
  }

  /** An attempt of a client that is off starts with nothing lost, whatever sizes
      were in force before. */
  lemma AttemptStartsClean(s: System, attempt: Move, size: Size, room: nat)
    requires SysInv(s) && s.c.Off() && (s.w.m.limits.supported || s.w == Initial(false))
    requires attempt.GameConnect? && Small(attempt, size.limit, room, size.messages)
    ensures NothingLost(Do(s, attempt), size)
  {
    var log, n := s.c.log, s.w.m.trace.epoch;
    if s.w.m.limits.supported {
      ConnectIsTidy(s.w.m, attempt.url, attempt.attempt, attempt.maxReliable, attempt.maxUnreliable, attempt.why, size);
      HeardDataSnoc(log, Attempted(n + 1));
    } else {
      RefusalHearsNothing(log, n);
    }
  }

  /** Any run, in which the client is off, then an attempt to connect, then any
      moves of the sizes that attempt is made with. */
  function PlayFrom(supported: bool, before: seq<Move>, attempt: Move, after: seq<Move>): (r: System) {
    Play(Do(Play(Begin(supported), before), attempt), after)
  }

  lemma AttemptLosesNothing(supported: bool, before: seq<Move>, attempt: Move, after: seq<Move>, size: Size, room: nat)
    requires Play(Begin(supported), before).c.Off() && attempt.GameConnect? && size.limit <= room
    requires forall v :: v in [attempt] + after ==> Small(v, size.limit, room, size.messages)
    ensures NothingLost(PlayFrom(supported, before, attempt, after), size)
    ensures SysInv(PlayFrom(supported, before, attempt, after))
  {
    var s := Play(Begin(supported), before);
    InitialInv(supported);
    PlayKeepsInv(Begin(supported), before);
    if supported {
      PlayKeepsSupport(Begin(supported), before);
    } else {
      UnsupportedIsUntouched(Begin(supported), before);
    }
    assert attempt in [attempt] + after;
    AttemptStartsClean(s, attempt, size, room);
    MoveKeepsInv(s, attempt);
    PlayLosesNothing(Do(s, attempt), after, size, room);
    PlayKeepsInv(Do(s, attempt), after);
  }

  /** Data delivery. Whatever went before, if from an attempt on no text and no
      message is longer than the buffer of any tick, what Mirror has heard through
      OnData since the last attempt is, in order, the messages the plugin has queued
      for that session: a prefix at any time, and all of them while the client is on
      and the queue is drained. */
  lemma OnDataIsWhatWasQueued(supported: bool, before: seq<Move>, attempt: Move, after: seq<Move>, limit: nat)
    requires Play(Begin(supported), before).c.Off() && attempt.GameConnect?
    requires forall v :: v in [attempt] + after ==> Small(v, limit, limit, true)
    ensures var s := PlayFrom(supported, before, attempt, after);
            && HeardData(s.c.log) <= s.w.m.trace.data
            && (!s.c.Off() && s.w.m.queue.events == [] ==> HeardData(s.c.log) == s.w.m.trace.data)
  {
    AttemptLosesNothing(supported, before, attempt, after, Size(limit, true), limit);
  }

  // -------------------------------------------------------------------------
  // When a drained client agrees with the plugin
  // -------------------------------------------------------------------------

  ghost predicate Agrees(s: System) { s.w.m.queue.events == [] ==> s.c.State() == s.w.m.link.state }

  /** A client that still waits for a session that is over, with nothing left to
      poll, waits for good: only a shutdown changes anything. */
  lemma {:induction false} WaitsForGood(s: System, moves: seq<Move>)
    requires s.c.connecting && !s.c.connected && s.w.m.queue.events == []
    requires s.w.m.link.state == Idle && s.w.m.link.transport.None?
    requires forall v :: v in moves ==> !v.GameShutdown?
    ensures Play(s, moves).c == s.c && Play(s, moves).w.m == s.w.m
    decreases |moves|
  {
    if moves != [] {
      WaitsForGood(Do(s, moves[0]), moves[1..]);
    }
  }

  function BadHashMoves(room: nat, why: seq<byte>): (r: seq<Move>) {
    [GameConnect([], BadHash, 0, 0, why), ClientTick(room, []), ClientTick(room, [])]
  }

  lemma BadHashRun(room: nat, why: seq<byte>)
    requires room < |why|
    ensures var s := Play(Begin(true), BadHashMoves(room, why));
            && s.w.m.queue.events == [] && s.w.m.link.state == Idle && s.w.m.link.transport.None?
            && s.c.connecting && !s.c.connected
  {
    var v1, v2 := GameConnect([], BadHash, 0, 0, why), ClientTick(room, []);
    var s1 := Do(Begin(true), v1);
    var s2 := Do(s1, v2);
    var s3 := Do(s2, v2);
    var e := Event(Error, 0, ERROR_UNEXPECTED, why, 1);
    assert s1.w.m.queue.events == [e, e.(kind := Disconnected)];
    assert s2.w.m.queue.events == [e.(kind := Disconnected)] && s3.w.m.queue.events == [];
    assert [v1, v2, v2][1..] == [v2, v2] && [v2, v2][1..] == [v2] && [v2][1..] == [];
    assert Play(s2, [v2]) == Play(s3, []) == s3;
    assert Play(s1, [v2, v2]) == s3;
  }

  /** A run in which it does not. The certificate hash setting is not a hash, and so
      long that the complaint about it does not fit the buffer. Both the Error and
      the Disconnected carry that text, so the client hears only of errors, and
      stays connecting until it is shut down, whatever else happens. */
  lemma LongComplaintIsMissed(texts: nat, room: nat, why: seq<byte>, after: seq<Move>)
    requires room < |why| <= texts
    requires forall v :: v in after ==> !v.GameShutdown?
    ensures
      var s := Play(Begin(true), BadHashMoves(room, why));
      && (forall v :: v in BadHashMoves(room, why) ==> Small(v, texts, room, false))
      && s.w.m.queue.events == [] && s.w.m.link.state == Idle && s.c.connecting && !Agrees(s)
      && Play(s, after).c == s.c && Play(s, after).w.m == s.w.m
  {
    BadHashRun(room, why);
    WaitsForGood(Play(Begin(true), BadHashMoves(room, why)), after);
  }

  /** In terms of the moves alone: with texts of up to `texts` bytes and buffers of
      at least `room`, a drained client agrees with the plugin in every run if and
      only if the texts fit the buffers. */
  lemma DrainedClientAgreesExactly(texts: nat, room: nat)
    ensures
      (forall supported, moves :: (forall v :: v in moves ==> Small(v, texts, room, false)) ==>
         Agrees(Play(Begin(supported), moves))) <==> texts <= room
  {
    if texts <= room {
      forall supported, moves | forall v :: v in moves ==> Small(v, texts, room, false)
        ensures Agrees(Play(Begin(supported), moves))
      {
        InitialInv(supported);
        PlayLosesNothing(Begin(supported), moves, Size(texts, false), room);
        DrainedClientAgrees(supported, moves);
      }
    } else {
      LongComplaintIsMissed(texts, room, Blanks(texts), []);
    }
  }

  function Blanks(n: nat): (r: seq<byte>)
    ensures |r| == n
  {
    seq(n, i => 32)
  }
}
