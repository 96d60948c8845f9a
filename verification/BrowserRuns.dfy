/** Every run of the browser plugin: C# calls and promise settlements in any
    order, over any number of sessions.

    A promise settles at most once, at any time or never, possibly long after
    the session whose callback it carries has been replaced. */
module BrowserRuns {
  import opened Framing
  import opened Options
  import opened Grammar
  import opened BrowserSession

  /** The plugin together with the promises still outstanding, by handle. */
  datatype World = World(m: Session, pending: map<nat, Callback>, next: nat)

  datatype Action =
    | CallConnect(url: seq<byte>, attempt: Attempt, maxReliable: nat, maxUnreliable: nat, why: seq<byte>)
    | CallDisconnect(why: seq<byte>)
    | CallSend(channel: int, payload: seq<byte>, reliable: bool, why: seq<byte>)
    | CallPoll(capacity: nat, why: seq<byte>)
    | Settles(handle: nat, outcome: Outcome, why: seq<byte>)

  function Initial(supported: bool): (r: World) {
    World(Session(Limits(supported, [], 65536, 1024), Link(None, Idle, false, false, false, 0), Queue([], 0), [],
                  Trace([], [], [], 0)),
          map[], 0)
  }

  function Register(pending: map<nat, Callback>, next: nat, started: seq<Callback>): (r: map<nat, Callback>)
    decreases |started|
  {
    if started == [] then pending else Register(pending[next := started[0]], next + 1, started[1..])
  }

  function Apply(w: World, e: Effect): (r: World) {
    World(e.m, Register(w.pending, w.next, e.started), w.next + |e.started|)
  }

  function Step(w: World, a: Action): (r: World) {
    match a
    case CallConnect(url, attempt, maxReliable, maxUnreliable, why) =>
      Apply(w, Connect(w.m, url, attempt, maxReliable, maxUnreliable, why))
    case CallDisconnect(why) => w.(m := LocalDisconnect(w.m, why))
    case CallSend(channel, payload, reliable, why) => Apply(w, Send(w.m, channel, payload, reliable, why).0)
    case CallPoll(capacity, why) => w.(m := Poll(w.m, capacity, why).0)
    case Settles(h, outcome, why) =>
      if h !in w.pending then w
      else Apply(w.(pending := w.pending - {h}), React(w.m, w.pending[h], outcome, why))
  }

  function Run(w: World, actions: seq<Action>): (r: World)
    decreases |actions|
  {
    if actions == [] then w else Run(Step(w, actions[0]), actions[1..])
  }

  // -------------------------------------------------------------------------
  // The invariant of a session between steps
  // -------------------------------------------------------------------------

  function Total(events: seq<Event>): (r: nat) {
    if events == [] then 0 else |events[0].data| + Total(events[1..])
  }

  function DataTotal(events: seq<Event>): (r: nat) {
    if events == [] then 0 else (if events[0].kind.Data? then |events[0].data| else 0) + DataTotal(events[1..])
  }

  /** The counter is exact, and queued data is below the cap. */
  ghost predicate Counted(q: Queue) {
    q.queuedBytes == Total(q.events) && DataTotal(q.events) <= MAX_QUEUED_BYTES
  }

  /** The queue is the part of the session's word that has not been polled. */
  ghost predicate Suffix(m: Session) {
    && |m.queue.events| <= |m.trace.word|
    && forall i :: 0 <= i < |m.queue.events| ==>
         && m.queue.events[i].origin == m.trace.epoch
         && m.queue.events[i].kind == m.trace.word[|m.trace.word| - |m.queue.events| + i]
  }

  /** Where the session is in its word. */
  ghost predicate Phased(m: Session) {
    match m.link.state
    case Connecting => m.trace.word == [] && !m.link.prologueDone
    case Live => PhaseOf(m.trace.word) == Open && m.link.prologueDone
    case Idle => PhaseOf(m.trace.word) == Over || (m.trace.word == [] && m.trace.epoch == 0)
  }

  ghost predicate Linked(m: Session) {
    && (m.link.transport.None? <==> m.link.state == Idle)
    && (m.link.transport.Some? ==> m.link.transport.value == m.trace.epoch)
  }

  ghost predicate Sound(m: Session) {
    if m.limits.supported then Counted(m.queue) && Suffix(m) && Phased(m) && Linked(m)
    else m.link.state == Idle && m.link.transport.None? && m.queue.queuedBytes == 0
  }

  lemma TotalSnoc(events: seq<Event>, e: Event)
    ensures Total(events + [e]) == Total(events) + |e.data|
    ensures DataTotal(events + [e]) == DataTotal(events) + if e.kind.Data? then |e.data| else 0
  {
    if events == [] {
      assert events + [e] == [e];
    } else {
      assert (events + [e])[1..] == events[1..] + [e];
      TotalSnoc(events[1..], e);
    }
  }

  lemma DataIsPartOfTotal(events: seq<Event>)
    ensures DataTotal(events) <= Total(events)
  {
  }

  lemma PushCounts(m: Session, e: Event)
    requires Counted(m.queue) && (e.kind.Data? ==> m.queue.queuedBytes + |e.data| <= MAX_QUEUED_BYTES)
    ensures Counted(Push(m, e).queue)
  {
    TotalSnoc(m.queue.events, e);
    DataIsPartOfTotal(m.queue.events);
  }

  /** Queueing one more event of this session keeps the queue consistent and
      advances the word. */
  lemma PushFlows(m: Session, e: Event)
    requires Counted(m.queue) && Suffix(m) && e.origin == m.trace.epoch
    requires e.kind.Data? ==> m.queue.queuedBytes + |e.data| <= MAX_QUEUED_BYTES
    ensures var p := Push(m, e);
            Counted(p.queue) && Suffix(p) && PhaseOf(p.trace.word) == Advance(PhaseOf(m.trace.word), e.kind)
  {
    PushCounts(m, e);
    PhaseSnoc(m.trace.word, e.kind);
  }

  ghost predicate Running(m: Session) {
    && m.limits.supported && m.link.state != Idle
    && Counted(m.queue) && Suffix(m)
  }

  lemma CloseIsSound(m: Session, code: int, why: seq<byte>)
    requires Running(m) && PhaseOf(m.trace.word) in {Fresh, Open, Failed}
    ensures Sound(Close(m, code, why)) && Close(m, code, why).link.state == Idle
  {
    PushFlows(m.Closed(), Event(Disconnected, 0, code, why, m.trace.epoch));
  }

  /** Error and Disconnected are queued together, so no step ends between them. */
  lemma FailIsSound(m: Session, code: int, why: seq<byte>)
    requires Running(m) && PhaseOf(m.trace.word) in {Fresh, Open}
    ensures Sound(Fail(m, code, why)) && Fail(m, code, why).link.state == Idle
  {
    var e := Event(Error, 0, code, why, m.trace.epoch);
    PushFlows(m, e);
    CloseIsSound(Push(m, e), code, why);
  }

  lemma PushDataIsSound(m: Session, channel: byte, payload: seq<byte>, why: seq<byte>)
    requires Sound(m) && m.link.state == Live
    ensures Sound(PushData(m, channel, payload, why))
  {
    if m.queue.queuedBytes + |payload| > MAX_QUEUED_BYTES {
      FailIsSound(m, ERROR_UNEXPECTED, why);
    } else {
      PushFlows(m, Event(Data, channel, ERROR_NONE, payload, m.trace.epoch));
    }
  }

  /** A session is closed once: its end is told once, and what comes after it
      tells nothing more. */
  lemma CloseTellsOnce(m: Session, code: int, why: seq<byte>, again: int, more: seq<byte>)
    requires m.link.state != Idle
    ensures Close(m, code, why).trace.word == m.trace.word + [Disconnected]
    ensures Close(Close(m, code, why), again, more) == Close(m, code, why)
  {
  }

  /** A failure is told as an Error and, right behind it, the end. */
  lemma FailTellsErrorThenEnd(m: Session, code: int, why: seq<byte>)
    requires m.link.state != Idle
    ensures Fail(m, code, why).trace.word == m.trace.word + [Error, Disconnected]
    ensures Fail(m, code, why).trace.data == m.trace.data
  {
    assert m.trace.word + [Error] + [Disconnected] == m.trace.word + [Error, Disconnected];
  }

  /** A message is queued whole, or not at all and the session fails; which of the
      two depends on the cap alone. */
  lemma PushDataIsAllOrNothing(m: Session, channel: byte, payload: seq<byte>, why: seq<byte>)
    requires m.link.state == Live
    ensures
      var p := PushData(m, channel, payload, why);
      if m.queue.queuedBytes + |payload| <= MAX_QUEUED_BYTES then
        p.trace.data == m.trace.data + [Message(channel, payload)] && p.link == m.link &&
        p.trace.word == m.trace.word + [Data]
      else
        p.trace.data == m.trace.data && p.link.state == Idle && p.trace.word == m.trace.word + [Error, Disconnected]
  {
    FailTellsErrorThenEnd(m, ERROR_UNEXPECTED, why);
  }

  lemma {:induction false} ParseFramesIsSound(m: Session, why: seq<byte>)
    requires Sound(m) && m.link.state == Live
    ensures Sound(ParseFrames(m, why))
    decreases |m.unread|
  {
    match Scan(m.unread, m.limits.maxReliable)
    case NeedMore =>
    case TooLarge(_) => FailIsSound(m, ERROR_INVALID_RECEIVE, why);
    case Complete(f) =>
      var m0 := m.(unread := m.unread[HEADER_LEN + |f.payload|..]);
      assert Sound(m0);
      if f.payload != [] {
        PushDataIsSound(m0, f.channel, f.payload, why);
      }
      var m1 := TakeFrame(m, f, why);
      if m1.link.state == Live {
        ParseFramesIsSound(m1, why);
      }
  }

  lemma ParseIsSound(m: Session, datagrams: bool, why: seq<byte>)
    requires Sound(m) && m.link.state != Idle
    ensures Sound(Parse(m, datagrams, why).m)
  {
    if m.link.prologueDone {
      ParseFramesIsSound(m, why);
    } else if |m.unread| >= |PROLOGUE| {
      if m.unread[..|PROLOGUE|] != PROLOGUE {
        FailIsSound(m, ERROR_INVALID_RECEIVE, why);
      } else {
        var g := m.Greeted();
        var live := g.(link := g.link.(state := Live));
        PushFlows(live, Event(Connected, 0, ERROR_NONE, g.limits.url, g.trace.epoch));
        ParseFramesIsSound(HandshakeComplete(g, datagrams).m, why);
      }
    }
  }

  lemma ReliableReadIsSound(m: Session, session: nat, o: Outcome, why: seq<byte>)
    requires Sound(m)
    ensures Sound(OnReliableRead(m, session, o, why).m)
  {
    if m.IsCurrent(session) {
      if o.Chunk? {
        var m0 := m.(unread := m.unread + o.bytes);
        assert Sound(m0);
        ParseIsSound(m0, o.datagrams, why);
      } else {
        CloseIsSound(m, ERROR_CONNECTION_CLOSED, why);
      }
    }
  }

  lemma DatagramReadIsSound(m: Session, session: nat, o: Outcome, why: seq<byte>)
    requires Sound(m) && (m.IsCurrent(session) ==> m.link.state == Live)
    ensures Sound(OnDatagramRead(m, session, o, why).m)
  {
    if m.IsCurrent(session) && o.Chunk? && |o.bytes| > 0 {
      PushDataIsSound(m, o.bytes[0], o.bytes[1..], why);
    }
  }

  lemma EndingIsSound(m: Session, code: int, why: seq<byte>)
    requires Sound(m) && m.link.transport.Some?
    ensures Sound(Close(m, code, why)) && Sound(Fail(m, code, why))
  {
    CloseIsSound(m, code, why);
    FailIsSound(m, code, why);
  }

  /** Writers, the send counter and the bytes sent do not matter to it. */
  lemma SoundIgnores(m: Session, m': Session)
    requires Sound(m) && m'.limits == m.limits && m'.queue == m.queue
    requires m'.trace.word == m.trace.word && m'.trace.epoch == m.trace.epoch
    requires m'.link.state == m.link.state && m'.link.transport == m.link.transport
    requires m'.link.prologueDone == m.link.prologueDone
    ensures Sound(m')
  {
  }

  lemma ReadyIsSound(m: Session, session: nat, o: Outcome, why: seq<byte>)
    requires Sound(m)
    ensures Sound(OnReadySettled(m, session, o, why).m)
  {
    if m.IsCurrent(session) {
      if o.Rejected? {
        EndingIsSound(m, ERROR_CONNECTION_CLOSED, why);
      } else if o.Threw? {
        EndingIsSound(m, ERROR_UNEXPECTED, why);
      } else {
        SoundIgnores(m, OnReady(m, o, why).m);
      }
    }
  }

  lemma StreamOpenedIsSound(m: Session, session: nat, o: Outcome, why: seq<byte>)
    requires Sound(m)
    ensures Sound(OnStreamOpened(m, session, o, why).m)
  {
    if m.IsCurrent(session) {
      if o.Rejected? || o.Threw? {
        EndingIsSound(m, ERROR_CONNECTION_CLOSED, why);
      } else {
        SoundIgnores(m, m.Opened());
      }
    }
  }

  lemma PrologueWrittenIsSound(m: Session, session: nat, o: Outcome, why: seq<byte>)
    requires Sound(m)
    ensures Sound(OnPrologueWritten(m, session, o, why).m)
  {
    if m.IsCurrent(session) {
      EndingIsSound(m, ERROR_CONNECTION_CLOSED, why);
    }
  }

  lemma ClosedIsSound(m: Session, session: nat, why: seq<byte>)
    requires Sound(m)
    ensures Sound(OnClosed(m, session, why).m)
  {
    if m.IsCurrent(session) {
      EndingIsSound(m, ERROR_CONNECTION_CLOSED, why);
    }
  }

  lemma FrameWrittenIsSound(m: Session, session: nat, size: nat, o: Outcome, why: seq<byte>)
    requires Sound(m)
    ensures Sound(OnFrameWritten(m, session, size, o, why).m)
  {
    if m.IsCurrent(session) {
      ClosedIsSound(m, session, why);
      SoundIgnores(m, m.Paid(size));
    }
  }

  lemma ReactIsSound(m: Session, cb: Callback, o: Outcome, why: seq<byte>)
    requires Sound(m)
    requires cb.kind.DatagramRead? && m.IsCurrent(cb.session) ==> m.link.state == Live
    ensures Sound(React(m, cb, o, why).m)
  {
    match cb.kind
    case ReliableRead => ReliableReadIsSound(m, cb.session, o, why);
    case DatagramRead => DatagramReadIsSound(m, cb.session, o, why);
    case SessionReady => ReadyIsSound(m, cb.session, o, why);
    case SessionClosed => ClosedIsSound(m, cb.session, why);
    case FrameWritten(size) => FrameWrittenIsSound(m, cb.session, size, o, why);
    case StreamOpened => StreamOpenedIsSound(m, cb.session, o, why);
    case PrologueWritten => PrologueWrittenIsSound(m, cb.session, o, why);
  }

  /** The guard at the top of every callback: a settlement for a session that
      is no longer current does nothing and starts nothing. */
  lemma StaleIsSilent(m: Session, cb: Callback, o: Outcome, why: seq<byte>)
    requires !m.IsCurrent(cb.session)
    ensures React(m, cb, o, why) == Effect(m, [])
  {
  }

  lemma ConnectIsSound(m: Session, url: seq<byte>, attempt: Attempt, maxReliable: nat, maxUnreliable: nat,
                       why: seq<byte>)
    requires Sound(m)
    ensures Sound(Connect(m, url, attempt, maxReliable, maxUnreliable, why).m)
  {
    if m.limits.supported {
      var r := Reset(m).(limits := Limits(true, url, maxReliable, maxUnreliable));
      if !attempt.Created? {
        FailIsSound(r.(link := r.link.(state := Connecting)), ERROR_UNEXPECTED, why);
      }
    }
  }

  lemma SendIsSound(m: Session, channel: int, payload: seq<byte>, reliable: bool, why: seq<byte>)
    requires Sound(m)
    ensures Sound(Send(m, channel, payload, reliable, why).0.m)
  {
    if m.link.state == Live {
      FailIsSound(m, ERROR_UNEXPECTED, why);
    }
  }

  /** The clamp at zero never acts: what is polled was counted. */
  lemma PollIsSound(m: Session, capacity: nat, why: seq<byte>)
    requires Sound(m)
    ensures Sound(Poll(m, capacity, why).0)
    ensures m.limits.supported && m.queue.events != [] ==> m.queue.queuedBytes >= |m.queue.events[0].data|
  {
  }

  // -------------------------------------------------------------------------
  // Outstanding promises
  // -------------------------------------------------------------------------

  /** What a callback may change: a session is only ever replaced by `Connect`. */
  ghost predicate Evolves(m: Session, m': Session) {
    && m'.limits == m.limits && m'.trace.epoch == m.trace.epoch
    && (m'.link.transport == m.link.transport || m'.link.transport.None?)
    && (m.link.state == Live ==> m'.link.state in {Live, Idle})
    && (m.link.state == Idle ==> m'.link.state == Idle)
    && m.trace.word <= m'.trace.word && Polled(m') == Polled(m)
  }

  /** How many of the session's events C# has taken. */
  function Polled(m: Session): (r: int) { |m.trace.word| - |m.queue.events| }

  lemma {:induction false} ParseFramesEvolves(m: Session, why: seq<byte>)
    ensures var p := ParseFrames(m, why);
            Evolves(m, p) && p.link.pendingSend == m.link.pendingSend
            && (m.link.state != Idle ==> p.link.state in {m.link.state, Idle})
    decreases |m.unread|
  {
    if Scan(m.unread, m.limits.maxReliable).Complete? {
      var f := Scan(m.unread, m.limits.maxReliable).message;
      ParseFramesEvolves(TakeFrame(m, f, why), why);
    }
  }

  lemma ParseEvolves(m: Session, datagrams: bool, why: seq<byte>)
    requires m.link.state != Idle
    ensures var e := Parse(m, datagrams, why);
            && Evolves(m, e.m) && e.m.link.pendingSend == m.link.pendingSend
            && (forall cb :: cb in e.started ==>
                 m.IsCurrent(cb.session) && cb.kind == DatagramRead && e.m.link.state in {Live, Idle})
  {
    if m.link.prologueDone {
      ParseFramesEvolves(m, why);
    } else if |m.unread| >= |PROLOGUE| && m.unread[..|PROLOGUE|] == PROLOGUE {
      ParseFramesEvolves(HandshakeComplete(m.Greeted(), datagrams).m, why);
    }
  }

  /** How many bytes a callback still has to take off the send counter. */
  function Owed(cb: Callback, session: nat): (r: nat) {
    if cb.kind.FrameWritten? && cb.session == session then cb.kind.size else 0
  }

  /** What a settlement leads to: the promises it starts belong to the session
      it was for, and the send counter follows. */
  ghost predicate Follows(m: Session, cb: Callback, e: Effect) {
    && Evolves(m, e.m)
    && (forall c :: c in e.started ==>
         && c.session == cb.session && m.IsCurrent(c.session) && !c.kind.FrameWritten?
         && (c.kind.DatagramRead? ==> e.m.link.state in {Live, Idle} || cb.kind.DatagramRead?))
    && (e.m.link.transport.Some? ==>
         e.m.link.pendingSend == m.link.pendingSend - Owed(cb, e.m.link.transport.value))
  }

  lemma ReliableReadFollows(m: Session, session: nat, o: Outcome, why: seq<byte>)
    requires m.link.transport.Some? ==> m.link.state != Idle
    ensures Follows(m, Callback(session, ReliableRead), OnReliableRead(m, session, o, why))
  {
    if o.Chunk? && m.IsCurrent(session) {
      ParseEvolves(m.(unread := m.unread + o.bytes), o.datagrams, why);
    }
  }

  lemma DatagramReadFollows(m: Session, session: nat, o: Outcome, why: seq<byte>)
    ensures Follows(m, Callback(session, DatagramRead), OnDatagramRead(m, session, o, why))
  {
  }

  lemma LifecycleFollows(m: Session, session: nat, o: Outcome, why: seq<byte>)
    ensures Follows(m, Callback(session, SessionClosed), OnClosed(m, session, why))
    ensures Follows(m, Callback(session, SessionReady), OnReadySettled(m, session, o, why))
  {
  }

  lemma OpeningFollows(m: Session, session: nat, o: Outcome, why: seq<byte>)
    ensures Follows(m, Callback(session, StreamOpened), OnStreamOpened(m, session, o, why))
    ensures Follows(m, Callback(session, PrologueWritten), OnPrologueWritten(m, session, o, why))
  {
  }

  lemma FrameWrittenFollows(m: Session, session: nat, size: nat, o: Outcome, why: seq<byte>)
    requires m.link.transport.Some? ==> m.link.state != Idle
    ensures Follows(m, Callback(session, FrameWritten(size)), OnFrameWritten(m, session, size, o, why))
  {
  }

  lemma ReactFollows(m: Session, cb: Callback, o: Outcome, why: seq<byte>)
    requires m.link.transport.Some? ==> m.link.state != Idle
    ensures Follows(m, cb, React(m, cb, o, why))
  {
    match cb.kind
    case ReliableRead => ReliableReadFollows(m, cb.session, o, why);
    case DatagramRead => DatagramReadFollows(m, cb.session, o, why);
    case SessionClosed => LifecycleFollows(m, cb.session, o, why);
    case SessionReady => LifecycleFollows(m, cb.session, o, why);
    case FrameWritten(size) => FrameWrittenFollows(m, cb.session, size, o, why);
    case _ => OpeningFollows(m, cb.session, o, why);
  }

  // -------------------------------------------------------------------------
  // The invariant of the whole world
  // -------------------------------------------------------------------------

  /** The reliable bytes of `session` whose write has not settled. */
  function Unsettled(pending: map<nat, Callback>, session: nat, n: nat): (r: nat) {
    if n == 0 then 0
    else Unsettled(pending, session, n - 1) + if n - 1 in pending then Owed(pending[n - 1], session) else 0
  }

  /** Callbacks belong to sessions that exist, and datagrams are only read once
      the session has reported its connection. */
  ghost predicate PendingOk(w: World) {
    forall h :: h in w.pending ==>
      && h < w.next
      && w.pending[h].session <= w.m.trace.epoch
      && (w.pending[h].kind.DatagramRead? && w.m.IsCurrent(w.pending[h].session) ==> w.m.link.state == Live)
  }

  /** While a session lives, the send counter is exactly its unsettled bytes. */
  ghost predicate SendOk(w: World) {
    w.m.link.transport.Some? ==>
      w.m.link.pendingSend == Unsettled(w.pending, w.m.link.transport.value, w.next) <= MAX_PENDING_SEND_BYTES
  }

  ghost predicate Inv(w: World) { Sound(w.m) && PendingOk(w) && SendOk(w) }

  lemma UnsettledFrame(p: map<nat, Callback>, q: map<nat, Callback>, session: nat, n: nat)
    requires forall h :: 0 <= h < n ==> ((h in p) == (h in q)) && (h in p ==> p[h] == q[h])
    ensures Unsettled(p, session, n) == Unsettled(q, session, n)
  {
  }

  lemma UnsettledWithout(p: map<nat, Callback>, h: nat, session: nat, n: nat)
    requires h in p
    ensures Unsettled(p - {h}, session, n) == Unsettled(p, session, n) - if h < n then Owed(p[h], session) else 0
  {
    if n > 0 {
      UnsettledWithout(p, h, session, n - 1);
    }
  }

  lemma UnsettledNever(p: map<nat, Callback>, session: nat, n: nat)
    requires forall h :: h in p ==> p[h].session < session
    ensures Unsettled(p, session, n) == 0
  {
  }

  function OwedBy(started: seq<Callback>, session: nat): (r: nat) {
    if started == [] then 0 else Owed(started[0], session) + OwedBy(started[1..], session)
  }

  lemma {:induction false} UnsettledRegister(p: map<nat, Callback>, next: nat, started: seq<Callback>, session: nat)
    requires forall h :: h in p ==> h < next
    ensures var q := Register(p, next, started);
            && Unsettled(q, session, next + |started|) == Unsettled(p, session, next) + OwedBy(started, session)
            && (forall h :: h in q ==> h < next + |started|)
            && (forall h :: h in p ==> h in q && q[h] == p[h])
            && (forall h :: h in q && h !in p ==> q[h] in started)
    decreases |started|
  {
    if started != [] {
      var p1 := p[next := started[0]];
      UnsettledFrame(p, p1, session, next);
      UnsettledRegister(p1, next + 1, started[1..], session);
    }
  }

  lemma OwesNothing(started: seq<Callback>, session: nat)
    requires forall cb :: cb in started ==> !cb.kind.FrameWritten?
    ensures OwedBy(started, session) == 0
  {
  }

  lemma SettlingKeepsPending(w: World, h: nat, e: Effect)
    requires Inv(w) && h in w.pending && Follows(w.m, w.pending[h], e) && Sound(e.m)
    ensures PendingOk(Apply(w.(pending := w.pending - {h}), e))
  {
    UnsettledRegister(w.pending - {h}, w.next, e.started, 0);
  }

  lemma SettlingKeepsSends(w: World, h: nat, e: Effect)
    requires Inv(w) && h in w.pending && Follows(w.m, w.pending[h], e)
    ensures SendOk(Apply(w.(pending := w.pending - {h}), e))
  {
    if e.m.link.transport.Some? {
      var session := e.m.link.transport.value;
      UnsettledWithout(w.pending, h, session, w.next);
      UnsettledRegister(w.pending - {h}, w.next, e.started, session);
      OwesNothing(e.started, session);
    }
  }

  lemma SettlingKeepsInv(w: World, h: nat, o: Outcome, why: seq<byte>)
    requires Inv(w)
    ensures Inv(Step(w, Settles(h, o, why)))
  {
    if h in w.pending {
      var cb := w.pending[h];
      var e := React(w.m, cb, o, why);
      ReactIsSound(w.m, cb, o, why);
      ReactFollows(w.m, cb, o, why);
      SettlingKeepsPending(w, h, e);
      SettlingKeepsSends(w, h, e);
    }
  }

  lemma ConnectingKeepsInv(w: World, url: seq<byte>, attempt: Attempt, maxReliable: nat, maxUnreliable: nat,
                           why: seq<byte>)
    requires Inv(w)
    ensures Inv(Step(w, CallConnect(url, attempt, maxReliable, maxUnreliable, why)))
  {
    ConnectIsSound(w.m, url, attempt, maxReliable, maxUnreliable, why);
    var e := Connect(w.m, url, attempt, maxReliable, maxUnreliable, why);
    UnsettledRegister(w.pending, w.next, e.started, e.m.trace.epoch);
    UnsettledNever(w.pending, w.m.trace.epoch + 1, w.next);
    OwesNothing(e.started, e.m.trace.epoch);
  }

  lemma SendingKeepsInv(w: World, channel: int, payload: seq<byte>, reliable: bool, why: seq<byte>)
    requires Inv(w)
    ensures Inv(Step(w, CallSend(channel, payload, reliable, why)))
  {
    SendIsSound(w.m, channel, payload, reliable, why);
    var e := Send(w.m, channel, payload, reliable, why).0;
    if e.started != [] {
      var session := w.m.link.transport.value;
      UnsettledRegister(w.pending, w.next, e.started, session);
      assert OwedBy(e.started, session) == Owed(e.started[0], session) + OwedBy([], session);
    }
  }

  lemma DisconnectingKeepsInv(w: World, why: seq<byte>)
    requires Inv(w)
    ensures Inv(Step(w, CallDisconnect(why)))
  {
    if w.m.link.state != Idle {
      EndingIsSound(w.m, ERROR_CONNECTION_CLOSED, why);
    }
  }

  lemma PollingKeepsInv(w: World, capacity: nat, why: seq<byte>)
    requires Inv(w)
    ensures Inv(Step(w, CallPoll(capacity, why)))
  {
    PollIsSound(w.m, capacity, why);
  }

  lemma StepKeepsInv(w: World, a: Action)
    requires Inv(w)
    ensures Inv(Step(w, a))
  {
    match a
    case CallConnect(url, attempt, maxReliable, maxUnreliable, why) =>
      ConnectingKeepsInv(w, url, attempt, maxReliable, maxUnreliable, why);
    case CallDisconnect(why) => DisconnectingKeepsInv(w, why);
    case CallSend(channel, payload, reliable, why) => SendingKeepsInv(w, channel, payload, reliable, why);
    case CallPoll(capacity, why) => PollingKeepsInv(w, capacity, why);
    case Settles(h, o, why) => SettlingKeepsInv(w, h, o, why);
  }

  lemma {:induction false} RunKeepsInv(w: World, actions: seq<Action>)
    requires Inv(w)
    ensures Inv(Run(w, actions))
    decreases |actions|
  {
    if actions != [] {
      StepKeepsInv(w, actions[0]);
      RunKeepsInv(Step(w, actions[0]), actions[1..]);
    }
  }

  lemma InitialInv(supported: bool)
    ensures Inv(Initial(supported))
  {
  }

  // -------------------------------------------------------------------------
  // What holds over every run
  // -------------------------------------------------------------------------

  /** The session grammar. Between steps, everything queued since the last reset
      is a prefix of `(Connected Data*)? Error? Disconnected` that never ends in
      Error, and there is a transport exactly while the session has not ended. */
  lemma SessionGrammar(actions: seq<Action>)
    ensures var m := Run(Initial(true), actions).m;
            && SessionPrefix(m.trace.word)
            && PhaseOf(m.trace.word) in {Fresh, Open, Over}
            && (m.link.transport.None? <==> m.link.state == Idle)
            && (m.link.state == Live <==> PhaseOf(m.trace.word) == Open)
  {
    InitialInv(true);
    RunKeepsInv(Initial(true), actions);
    SupportIsConstant(Initial(true), actions);
    PhaseMeaning(Run(Initial(true), actions).m.trace.word);
  }

  /** Both byte counters are exact and capped, in every reachable state. */
  lemma ExactCounters(actions: seq<Action>)
    ensures var w := Run(Initial(true), actions);
            && w.m.queue.queuedBytes == Total(w.m.queue.events)
            && DataTotal(w.m.queue.events) <= MAX_QUEUED_BYTES
            && (w.m.link.transport.Some? ==>
                 w.m.link.pendingSend == Unsettled(w.pending, w.m.link.transport.value, w.next)
                 <= MAX_PENDING_SEND_BYTES)
  {
    InitialInv(true);
    RunKeepsInv(Initial(true), actions);
    SupportIsConstant(Initial(true), actions);
  }

  ghost predicate CounterIsExact(supported: bool) {
    forall actions :: var m := Run(Initial(supported), actions).m; m.queue.queuedBytes == Total(m.queue.events)
  }

  /** Without WebTransport, `Connect` queues its two events behind the counter's
      back. The plugin's counter is exact in every run if and only if the browser
      has WebTransport. */
  lemma CounterIsExactWhenSupported(supported: bool)
    ensures CounterIsExact(supported) <==> supported
  {
    if supported {
      forall actions
        ensures var m := Run(Initial(supported), actions).m; m.queue.queuedBytes == Total(m.queue.events)
      {
        ExactCounters(actions);
      }
    } else {
      var a := CallConnect([], Created, 0, 0, [0]);
      CounterIsWrongUnsupported([], [0]);
      assert Run(Initial(false), [a]) == Run(Step(Initial(false), a), []) == Step(Initial(false), a);
    }
  }

  lemma CounterIsWrongUnsupported(url: seq<byte>, why: seq<byte>)
    requires why != []
    ensures var m := Step(Initial(false), CallConnect(url, Created, 0, 0, why)).m;
            m.queue.queuedBytes == 0 < Total(m.queue.events) == 2 * |why|
  {
    var m := Step(Initial(false), CallConnect(url, Created, 0, 0, why)).m;
    var e := Event(Error, 0, ERROR_UNEXPECTED, why, 0);
    assert m.queue.events == [e, e.(kind := Disconnected)];
    assert Total([e.(kind := Disconnected)]) == |why|;
  }

  lemma StepKeepsLimitsAndEpoch(w: World, a: Action)
    requires Inv(w)
    ensures var w' := Step(w, a);
            && w'.m.limits.supported == w.m.limits.supported
            && w'.m.trace.epoch == w.m.trace.epoch + (if a.CallConnect? && w.m.limits.supported then 1 else 0)
            && (!a.CallConnect? ==> w'.m.link.transport == w.m.link.transport || w'.m.link.transport.None?)
  {
    if a.Settles? && a.handle in w.pending {
      ReactFollows(w.m, w.pending[a.handle], a.outcome, a.why);
    }
  }

  lemma {:induction false} SupportIsConstant(w: World, actions: seq<Action>)
    requires Inv(w)
    ensures Run(w, actions).m.limits.supported == w.m.limits.supported
    decreases |actions|
  {
    if actions != [] {
      StepKeepsLimitsAndEpoch(w, actions[0]);
      StepKeepsInv(w, actions[0]);
      SupportIsConstant(Step(w, actions[0]), actions[1..]);
    }
  }

  /** Session identities never come back: once a session is not current, it is
      never current again. */
  lemma {:induction false} StaleForever(w: World, actions: seq<Action>, session: nat)
    requires Inv(w) && session <= w.m.trace.epoch && !w.m.IsCurrent(session)
    ensures !Run(w, actions).m.IsCurrent(session)
    decreases |actions|
  {
    if actions != [] {
      StepKeepsInv(w, actions[0]);
      StepKeepsLimitsAndEpoch(w, actions[0]);
      StaleForever(Step(w, actions[0]), actions[1..], session);
    }
  }

  /** An ended session is left alone by every settlement, send and disconnect. */
  lemma {:induction false} EndedIsLeftAlone(w: World, actions: seq<Action>)
    requires w.m.link.state == Idle && w.m.link.transport.None?
    requires forall a :: a in actions ==> !a.CallConnect? && !a.CallPoll?
    ensures Run(w, actions).m == w.m
    decreases |actions|
  {
    if actions != [] {
      EndedIsLeftAlone(Step(w, actions[0]), actions[1..]);
    }
  }

  /** A disconnect is final: in every reachable state it ends the session at once,
      and until C# connects again nothing that settles afterwards, nothing it sends
      and no further disconnect changes the session object. */
  lemma DisconnectIsFinal(supported: bool, before: seq<Action>, why: seq<byte>, actions: seq<Action>)
    requires forall a :: a in actions ==> !a.CallConnect? && !a.CallPoll?
    ensures
      var w := Run(Initial(supported), before);
      var m := LocalDisconnect(w.m, why);
      && m.link.state == Idle && m.link.transport.None?
      && m.trace.word == w.m.trace.word + (if w.m.link.state == Idle then [] else [Disconnected])
      && Run(Step(w, CallDisconnect(why)), actions).m == m
  {
    InitialInv(supported);
    RunKeepsInv(Initial(supported), before);
    var w := Run(Initial(supported), before);
    assert w.m.trace.word + [] == w.m.trace.word;
    EndedIsLeftAlone(Step(w, CallDisconnect(why)), actions);
  }

  // -------------------------------------------------------------------------
  // Stale callbacks can be erased
  // -------------------------------------------------------------------------

  /** A settlement whose callback captured a session that is no longer current. */
  predicate IsStale(w: World, a: Action) {
    a.Settles? && (a.handle in w.pending ==> !w.m.IsCurrent(w.pending[a.handle].session))
  }

  /** The run without the settlements that are stale when they happen. */
  function Erase(w: World, actions: seq<Action>): (r: seq<Action>)
    decreases |actions|
  {
    if actions == [] then []
    else
      var later := Erase(Step(w, actions[0]), actions[1..]);
      if IsStale(w, actions[0]) then later else [actions[0]] + later
  }

  /** Two worlds that differ only in promises of sessions that are gone. */
  ghost predicate SameButStale(v: World, w: World) {
    && v.m == w.m && v.next == w.next
    && (forall h :: h in v.pending ==> h in w.pending && w.pending[h] == v.pending[h])
    && (forall h :: h in w.pending && h !in v.pending ==>
         h < w.next && w.pending[h].session <= w.m.trace.epoch && !w.m.IsCurrent(w.pending[h].session))
  }

  lemma {:induction false} RegisterBoth(p: map<nat, Callback>, q: map<nat, Callback>, next: nat, started: seq<Callback>)
    requires forall h :: h in p ==> h in q && q[h] == p[h]
    requires forall h :: h in q ==> h < next
    ensures var p', q' := Register(p, next, started), Register(q, next, started);
            && (forall h :: h in p' ==> h in q' && q'[h] == p'[h])
            && (forall h :: h in q' && h !in p' ==> h in q && h !in p && q'[h] == q[h])
    decreases |started|
  {
    if started != [] {
      RegisterBoth(p[next := started[0]], q[next := started[0]], next + 1, started[1..]);
    }
  }

  lemma StaleStepIsSkip(v: World, w: World, a: Action)
    requires Inv(v) && Inv(w) && SameButStale(v, w) && IsStale(v, a)
    ensures SameButStale(Step(v, a), w)
  {
    if a.handle in v.pending {
      StaleIsSilent(v.m, v.pending[a.handle], a.outcome, a.why);
    }
  }

  lemma SameAfterEffect(v: World, w: World, e: Effect)
    requires SameButStale(v, w) && (forall h :: h in w.pending ==> h < w.next)
    requires e.m.trace.epoch >= w.m.trace.epoch
    requires forall session: nat :: session <= w.m.trace.epoch && e.m.IsCurrent(session) ==> w.m.IsCurrent(session)
    ensures SameButStale(Apply(v, e), Apply(w, e))
  {
    RegisterBoth(v.pending, w.pending, v.next, e.started);
  }

  lemma LiveStepKeepsSame(v: World, w: World, a: Action)
    requires Inv(v) && Inv(w) && SameButStale(v, w) && !IsStale(v, a)
    ensures SameButStale(Step(v, a), Step(w, a))
  {
    StepKeepsLimitsAndEpoch(w, a);
    match a
    case CallConnect(url, attempt, maxReliable, maxUnreliable, why) =>
      SameAfterEffect(v, w, Connect(v.m, url, attempt, maxReliable, maxUnreliable, why));
    case CallSend(channel, payload, reliable, why) =>
      SameAfterEffect(v, w, Send(v.m, channel, payload, reliable, why).0);
    case Settles(h, o, why) =>
      SameAfterEffect(v.(pending := v.pending - {h}), w.(pending := w.pending - {h}), React(v.m, v.pending[h], o, why));
    case _ =>
  }

  lemma {:induction false} ErasureSimulates(v: World, w: World, actions: seq<Action>)
    requires Inv(v) && Inv(w) && SameButStale(v, w)
    ensures Run(w, Erase(v, actions)).m == Run(v, actions).m
    decreases |actions|
  {
    if actions != [] {
      var a, later := actions[0], actions[1..];
      StepKeepsInv(v, a);
      if IsStale(v, a) {
        StaleStepIsSkip(v, w, a);
        ErasureSimulates(Step(v, a), w, later);
      } else {
        LiveStepKeepsSame(v, w, a);
        StepKeepsInv(w, a);
        ErasureSimulates(Step(v, a), Step(w, a), later);
        assert Erase(v, actions)[0] == a && Erase(v, actions)[1..] == Erase(Step(v, a), later);
      }
    }
  }

  /** Stale-callback erasure: deleting from a run every settlement that comes too
      late for its session leaves the same session and the same event queue. */
  lemma StaleCallbackErasure(supported: bool, actions: seq<Action>)
    ensures Run(Initial(supported), Erase(Initial(supported), actions)).m == Run(Initial(supported), actions).m
  {
    InitialInv(supported);
    ErasureSimulates(Initial(supported), Initial(supported), actions);
  }
}
