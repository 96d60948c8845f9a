/** What the browser puts on the reliable stream, over every run of the plugin:
    the prologue and then the encoding of exactly the messages it accepted. */
module BrowserSends {
  import opened Framing
  import opened BrowserSession
  import opened BrowserRuns

  /** The promises that carry a session from its start to its reading loop. Each
      one's callback starts the next. */
  predicate InChain(k: CallbackKind) { k.SessionReady? || k.StreamOpened? || k.PrologueWritten? || k.ReliableRead? }

  predicate BeforeStream(k: CallbackKind) { k.SessionReady? || k.StreamOpened? }

  predicate IsLink(m: Session, cb: Callback) { m.IsCurrent(cb.session) && InChain(cb.kind) }

  /** The live session has at most one promise of the chain outstanding, and none
      from before its stream once that is open. */
  ghost predicate ChainOk(w: World) {
    && (forall g, h :: g in w.pending && h in w.pending && IsLink(w.m, w.pending[g]) && IsLink(w.m, w.pending[h]) ==>
        g == h)
    && (forall h :: h in w.pending && IsLink(w.m, w.pending[h]) && BeforeStream(w.pending[h].kind) ==>
          !w.m.link.reliableWriter)
  }

  /** The bytes handed to the stream, given the messages accepted. */
  ghost predicate WireOk(m: Session, sent: seq<Message>) {
    && ((m.trace.wire == [] && sent == []) || m.trace.wire == PROLOGUE + EncodeAll(sent))
    && (m.link.transport.Some? ==> (m.link.reliableWriter <==> m.trace.wire != []))
  }

  /** What a settlement does to the stream and to the chain. */
  ghost predicate Wires(m: Session, cb: Callback, e: Effect) {
    && (forall i, j :: 0 <= i < j < |e.started| ==> !(InChain(e.started[i].kind) && InChain(e.started[j].kind)))
    && (forall c :: c in e.started && InChain(c.kind) ==>
          && IsLink(m, cb) && c.session == cb.session
          && (BeforeStream(c.kind) ==> cb.kind.SessionReady?))
    && (if cb.kind.StreamOpened? && m.IsCurrent(cb.session) && e.m.link.transport.Some?
        then e.m.trace.wire == PROLOGUE && e.m.link.reliableWriter
        else e.m.trace.wire == m.trace.wire &&
             (e.m.link.transport.Some? ==> e.m.link.reliableWriter == m.link.reliableWriter))
  }

  lemma {:induction false} ParseFramesWires(m: Session, why: seq<byte>)
    ensures var p := ParseFrames(m, why);
            p.trace.wire == m.trace.wire && (p.link.transport.Some? ==> p.link.reliableWriter == m.link.reliableWriter)
    decreases |m.unread|
  {
    if Scan(m.unread, m.limits.maxReliable).Complete? {
      var f := Scan(m.unread, m.limits.maxReliable).message;
      ParseFramesWires(TakeFrame(m, f, why), why);
    }
  }

  lemma ParseWires(m: Session, datagrams: bool, why: seq<byte>)
    ensures var e := Parse(m, datagrams, why);
            && e.m.trace.wire == m.trace.wire && (e.m.link.transport.Some? ==>
                e.m.link.reliableWriter == m.link.reliableWriter)
            && (forall c :: c in e.started ==> c.kind.DatagramRead?)
  {
    if m.link.prologueDone {
      ParseFramesWires(m, why);
    } else if |m.unread| >= |PROLOGUE| && m.unread[..|PROLOGUE|] == PROLOGUE {
      ParseFramesWires(HandshakeComplete(m.Greeted(), datagrams).m, why);
    }
  }

  lemma ReliableReadWires(m: Session, session: nat, o: Outcome, why: seq<byte>)
    ensures Wires(m, Callback(session, ReliableRead), OnReliableRead(m, session, o, why))
  {
    if o.Chunk? && m.IsCurrent(session) {
      ParseWires(m.(unread := m.unread + o.bytes), o.datagrams, why);
    }
  }

  lemma DatagramReadWires(m: Session, session: nat, o: Outcome, why: seq<byte>)
    ensures Wires(m, Callback(session, DatagramRead), OnDatagramRead(m, session, o, why))
  {
  }

  lemma LifecycleWires(m: Session, session: nat, o: Outcome, why: seq<byte>)
    ensures Wires(m, Callback(session, SessionClosed), OnClosed(m, session, why))
    ensures Wires(m, Callback(session, SessionReady), OnReadySettled(m, session, o, why))
  {
  }

  lemma OpeningWires(m: Session, session: nat, o: Outcome, why: seq<byte>)
    requires m.link.transport.Some? ==> m.link.state != Idle
    ensures Wires(m, Callback(session, StreamOpened), OnStreamOpened(m, session, o, why))
    ensures Wires(m, Callback(session, PrologueWritten), OnPrologueWritten(m, session, o, why))
  {
  }

  lemma FrameWrittenWires(m: Session, session: nat, size: nat, o: Outcome, why: seq<byte>)
    ensures Wires(m, Callback(session, FrameWritten(size)), OnFrameWritten(m, session, size, o, why))
  {
  }

  lemma ReactWires(m: Session, cb: Callback, o: Outcome, why: seq<byte>)
    requires m.link.transport.Some? ==> m.link.state != Idle
    ensures Wires(m, cb, React(m, cb, o, why))
  {
    match cb.kind
    case ReliableRead => ReliableReadWires(m, cb.session, o, why);
    case DatagramRead => DatagramReadWires(m, cb.session, o, why);
    case SessionClosed => LifecycleWires(m, cb.session, o, why);
    case SessionReady => LifecycleWires(m, cb.session, o, why);
    case FrameWritten(size) => FrameWrittenWires(m, cb.session, size, o, why);
    case _ => OpeningWires(m, cb.session, o, why);
  }

  /** Where `Register` puts what was started. */
  lemma {:induction false} RegisterIndex(p: map<nat, Callback>, next: nat, started: seq<Callback>, h: nat)
    requires forall g :: g in p ==> g < next
    ensures var q := Register(p, next, started);
            && (h in q <==> h in p || next <= h < next + |started|)
            && (h in q ==> q[h] == if h in p then p[h] else started[h - next])
    decreases |started|
  {
    if started != [] {
      RegisterIndex(p[next := started[0]], next + 1, started[1..], h);
    }
  }

  lemma RegisterAll(p: map<nat, Callback>, next: nat, started: seq<Callback>)
    requires forall g :: g in p ==> g < next
    ensures var q := Register(p, next, started);
            forall h: nat :: (h in q <==> h in p || next <= h < next + |started|) &&
                        (h in q ==> q[h] == if h in p then p[h] else started[h - next])
  {
    forall h: nat
      ensures var q := Register(p, next, started);
              (h in q <==> h in p || next <= h < next + |started|) &&
              (h in q ==> q[h] == if h in p then p[h] else started[h - next])
    {
      RegisterIndex(p, next, started, h);
    }
  }

  /** After a settlement, a link outstanding was outstanding before, or was
      started by the one link that has just settled. */
  lemma LinkAfterSettling(w: World, h: nat, e: Effect, g: nat)
    requires Inv(w) && h in w.pending && Evolves(w.m, e.m) && Wires(w.m, w.pending[h], e)
    ensures
      var w' := Apply(w.(pending := w.pending - {h}), e);
      g in w'.pending && IsLink(w'.m, w'.pending[g]) ==>
        if g < w.next then g != h && g in w.pending && w'.pending[g] == w.pending[g] && IsLink(w.m, w.pending[g])
        else g < w.next + |e.started| && w'.pending[g] == e.started[g - w.next] && IsLink(w.m, w.pending[h])
  {
    RegisterIndex(w.pending - {h}, w.next, e.started, g);
  }

  lemma SettlingKeepsChain(w: World, h: nat, e: Effect)
    requires Inv(w) && ChainOk(w) && h in w.pending
    requires Evolves(w.m, e.m) && Wires(w.m, w.pending[h], e)
    ensures ChainOk(Apply(w.(pending := w.pending - {h}), e))
  {
    var w' := Apply(w.(pending := w.pending - {h}), e);
    forall g | g in w'.pending && IsLink(w'.m, w'.pending[g])
      ensures if g < w.next then g != h && g in w.pending && w'.pending[g] == w.pending[g] && IsLink(w.m, w.pending[g])
              else g < w.next + |e.started| && w'.pending[g] == e.started[g - w.next] && IsLink(w.m, w.pending[h])
    {
      LinkAfterSettling(w, h, e, g);
    }
  }

  lemma SettlingKeepsWire(w: World, h: nat, e: Effect, sent: seq<Message>)
    requires ChainOk(w) && h in w.pending && WireOk(w.m, sent)
    requires Evolves(w.m, e.m) && Wires(w.m, w.pending[h], e)
    ensures WireOk(e.m, sent)
  {
    assert PROLOGUE + EncodeAll([]) == PROLOGUE;
  }

  lemma SettlingKeepsSent(w: World, h: nat, o: Outcome, why: seq<byte>, sent: seq<Message>)
    requires Inv(w) && ChainOk(w) && WireOk(w.m, sent)
    ensures var w' := Step(w, Settles(h, o, why)); ChainOk(w') && WireOk(w'.m, sent)
  {
    if h in w.pending {
      var e := React(w.m, w.pending[h], o, why);
      ReactFollows(w.m, w.pending[h], o, why);
      ReactWires(w.m, w.pending[h], o, why);
      SettlingKeepsChain(w, h, e);
      SettlingKeepsWire(w, h, e, sent);
    }
  }

  /** The messages the plugin has accepted for the reliable stream since the last
      attempt to connect. */
  function Sent(w: World, a: Action, before: seq<Message>): (r: seq<Message>) {
    match a
    case CallConnect(_, _, _, _, _) => if w.m.limits.supported then [] else before
    case CallSend(channel, payload, reliable, why) =>
      if reliable && Send(w.m, channel, payload, reliable, why).1 then before + [Message(channel % 256, payload)]
      else before
    case _ => before
  }

  function SentBy(w: World, actions: seq<Action>, before: seq<Message>): (r: seq<Message>)
    decreases |actions|
  {
    if actions == [] then before else SentBy(Step(w, actions[0]), actions[1..], Sent(w, actions[0], before))
  }

  lemma ConnectingKeepsChain(w: World, url: seq<byte>, attempt: Attempt, maxReliable: nat, maxUnreliable: nat,
                             why: seq<byte>)
    requires Inv(w) && ChainOk(w)
    ensures ChainOk(Step(w, CallConnect(url, attempt, maxReliable, maxUnreliable, why)))
  {
    var e := Connect(w.m, url, attempt, maxReliable, maxUnreliable, why);
    var w' := Apply(w, e);
    if w.m.limits.supported {
      forall g | g in w'.pending && IsLink(w'.m, w'.pending[g])
        ensures g == w.next + 1
      {
        RegisterIndex(w.pending, w.next, e.started, g);
      }
    }
  }

  lemma ConnectingKeepsWire(m: Session, url: seq<byte>, attempt: Attempt, maxReliable: nat, maxUnreliable: nat,
                            why: seq<byte>, sent: seq<Message>)
    requires WireOk(m, sent)
    ensures WireOk(Connect(m, url, attempt, maxReliable, maxUnreliable, why).m, if m.limits.supported then [] else sent)
  {
  }

  lemma AcceptedIsEncoded(wire: seq<byte>, sent: seq<Message>, m: Message)
    requires wire == PROLOGUE + EncodeAll(sent)
    ensures wire + EncodeFrame(m) == PROLOGUE + EncodeAll(sent + [m])
  {
    EncodeAllConcat(sent, [m]);
    assert EncodeAll([m]) == EncodeFrame(m) + EncodeAll([]);
    assert EncodeAll(sent + [m]) == EncodeAll(sent) + EncodeFrame(m);
  }

  lemma SendingKeepsChain(w: World, channel: int, payload: seq<byte>, reliable: bool, why: seq<byte>)
    requires Inv(w) && ChainOk(w)
    ensures ChainOk(Step(w, CallSend(channel, payload, reliable, why)))
  {
    var e := Send(w.m, channel, payload, reliable, why).0;
    RegisterAll(w.pending, w.next, e.started);
    assert forall c :: c in e.started ==> !InChain(c.kind);
  }

  lemma SendingKeepsSent(w: World, channel: int, payload: seq<byte>, reliable: bool, why: seq<byte>, sent: seq<Message>)
    requires Inv(w) && ChainOk(w) && WireOk(w.m, sent)
    ensures var a := CallSend(channel, payload, reliable, why); var w' := Step(w, a);
            ChainOk(w') && WireOk(w'.m, Sent(w, a, sent))
  {
    SendingKeepsChain(w, channel, payload, reliable, why);
    if reliable && Send(w.m, channel, payload, reliable, why).1 {
      AcceptedIsEncoded(w.m.trace.wire, sent, Message(channel % 256, payload));
    }
  }

  lemma StepKeepsSent(w: World, a: Action, sent: seq<Message>)
    requires Inv(w) && ChainOk(w) && WireOk(w.m, sent)
    ensures ChainOk(Step(w, a)) && WireOk(Step(w, a).m, Sent(w, a, sent))
  {
    match a
    case CallConnect(url, attempt, maxReliable, maxUnreliable, why) =>
      ConnectingKeepsChain(w, url, attempt, maxReliable, maxUnreliable, why);
      ConnectingKeepsWire(w.m, url, attempt, maxReliable, maxUnreliable, why, sent);
    case CallSend(channel, payload, reliable, why) => SendingKeepsSent(w, channel, payload, reliable, why, sent);
    case Settles(h, o, why) => SettlingKeepsSent(w, h, o, why, sent);
    case _ =>
  }

  lemma {:induction false} RunKeepsSent(w: World, actions: seq<Action>, sent: seq<Message>)
    requires Inv(w) && ChainOk(w) && WireOk(w.m, sent)
    ensures ChainOk(Run(w, actions)) && WireOk(Run(w, actions).m, SentBy(w, actions, sent))
    decreases |actions|
  {
    if actions != [] {
      StepKeepsInv(w, actions[0]);
      StepKeepsSent(w, actions[0], sent);
      RunKeepsSent(Step(w, actions[0]), actions[1..], Sent(w, actions[0], sent));
    }
  }

  /** Whatever the interleaving, a session's stream carries nothing, or the
      prologue and the encoding of exactly the messages accepted so far, in
      order; and while it lives only one step of its setup and reading is under
      way. */
  lemma WireCarriesWhatWasSent(supported: bool, actions: seq<Action>)
    ensures var w, sent := Run(Initial(supported), actions), SentBy(Initial(supported), actions, []);
            && ((w.m.trace.wire == [] && sent == []) || w.m.trace.wire == PROLOGUE + EncodeAll(sent))
            && ChainOk(w)
  {
    InitialInv(supported);
    RunKeepsSent(Initial(supported), actions, []);
  }
}
