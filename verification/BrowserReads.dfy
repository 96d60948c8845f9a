/** What the browser makes of the reliable stream, over every run of the plugin:
    whatever else is going on, the session has heard a prefix of what the bytes
    fed to it decode to, and while it lives all of it. */
module BrowserReads {
  import opened Framing
  import opened BrowserSession
  import opened BrowserRuns
  import opened ReaderAgreement

  /** The action is a read of the live session's reliable stream. */
  predicate IsRead(w: World, a: Action) {
    && a.Settles? && a.handle in w.pending && a.outcome.Chunk?
    && w.pending[a.handle].kind.ReliableRead? && w.m.IsCurrent(w.pending[a.handle].session)
  }

  predicate IsFresh(w: World, a: Action) { a.CallConnect? && w.m.limits.supported }

  /** The bytes the reads have brought since the last attempt to connect. */
  function Fed(w: World, a: Action, before: seq<byte>): (r: seq<byte>) {
    if IsFresh(w, a) then [] else if IsRead(w, a) then before + a.outcome.bytes else before
  }

  function NewData(m: Session, m': Session): (r: seq<Message>) {
    if |m.trace.data| <= |m'.trace.data| then m'.trace.data[|m.trace.data|..] else []
  }

  /** The messages those reads have queued. */
  function Heard(w: World, a: Action, before: seq<Message>): (r: seq<Message>) {
    if IsFresh(w, a) then [] else if IsRead(w, a) then before + NewData(w.m, Step(w, a).m) else before
  }

  function FedBy(w: World, actions: seq<Action>, before: seq<byte>): (r: seq<byte>)
    decreases |actions|
  {
    if actions == [] then before else FedBy(Step(w, actions[0]), actions[1..], Fed(w, actions[0], before))
  }

  function HeardBy(w: World, actions: seq<Action>, before: seq<Message>): (r: seq<Message>)
    decreases |actions|
  {
    if actions == [] then before else HeardBy(Step(w, actions[0]), actions[1..], Heard(w, actions[0], before))
  }

  /** What the bytes after the prologue decode to. */
  function Decoding(fed: seq<byte>, limit: nat): (r: Decoded)
    requires PROLOGUE <= fed
  {
    Decode(fed[|PROLOGUE|..], limit)
  }

  ghost predicate ReadOk(m: Session, fed: seq<byte>, heard: seq<Message>) {
    var limit := m.limits.maxReliable;
    && (if PROLOGUE <= fed then heard <= Decoding(fed, limit).Delivered() else heard == [])
    && (m.link.transport.Some? ==>
         if m.link.prologueDone then
           PROLOGUE <= fed && !Decoding(fed, limit).tooLarge &&
           m.unread == Decoding(fed, limit).rest && heard == Decoding(fed, limit).Delivered()
         else m.unread == fed && |fed| < |PROLOGUE|)
  }

  /** A live session reads one chunk more. */
  lemma LiveReadIsDecoded(m: Session, session: nat, bytes: seq<byte>, datagrams: bool, why: seq<byte>,
                          fed: seq<byte>, heard: seq<Message>)
    requires Reading(m) && m.IsCurrent(session) && ReadOk(m, fed, heard)
    ensures var m' := OnReliableRead(m, session, Chunk(bytes, datagrams), why).m;
            ReadOk(m', fed + bytes, heard + NewData(m, m'))
  {
    var limit, m0 := m.limits.maxReliable, m.(unread := m.unread + bytes);
    var before, here := Decoding(fed, limit), Decode(m0.unread, limit);
    assert (fed + bytes)[|PROLOGUE|..] == fed[|PROLOGUE|..] + bytes;
    DecodeSplit(fed[|PROLOGUE|..], bytes, limit);
    NonEmptyConcat(before.frames, here.frames);
    ParseFramesTook(m0, why);
    ParseFramesLinked(m0, why);
    assert Decoding(fed + bytes, limit).Delivered() == heard + here.Delivered();
  }

  /** The bytes that complete the prologue, and what came with them. */
  lemma GreetingIsDecoded(m: Session, fed: seq<byte>, datagrams: bool, why: seq<byte>)
    requires m.link.state == Connecting && !m.link.prologueDone && m.link.transport.Some? && m.unread == fed
    requires |fed| >= |PROLOGUE| && fed[..|PROLOGUE|] == PROLOGUE
    ensures var m' := Parse(m, datagrams, why).m; ReadOk(m', fed, NewData(m, m'))
  {
    var live := HandshakeComplete(m.Greeted(), datagrams).m;
    assert live.unread == fed[|PROLOGUE|..] && live.trace.data == m.trace.data;
    ParseFramesTook(live, why);
    ParseFramesLinked(live, why);
  }

  /** The first bytes of a session, up to and beyond its prologue. */
  lemma FirstReadIsDecoded(m: Session, session: nat, bytes: seq<byte>, datagrams: bool, why: seq<byte>,
                           fed: seq<byte>, heard: seq<Message>)
    requires m.link.state == Connecting && !m.link.prologueDone && m.IsCurrent(session) && ReadOk(m, fed, heard)
    ensures var m' := OnReliableRead(m, session, Chunk(bytes, datagrams), why).m;
            ReadOk(m', fed + bytes, heard + NewData(m, m'))
  {
    var m0 := m.(unread := m.unread + bytes);
    assert heard == [] && !(PROLOGUE <= fed);
    if |m0.unread| >= |PROLOGUE| && m0.unread[..|PROLOGUE|] == PROLOGUE {
      GreetingIsDecoded(m0, fed + bytes, datagrams, why);
      assert [] + NewData(m, Parse(m0, datagrams, why).m) == NewData(m, Parse(m0, datagrams, why).m);
    } else if |m0.unread| >= |PROLOGUE| {
      assert !(PROLOGUE <= fed + bytes);
    } else {
      assert NewData(m, m0) == [];
    }
  }

  /** Nothing about the reading has changed, unless the session has ended. */
  ghost predicate KeepsReading(m: Session, m': Session) {
    && m'.unread == m.unread && m'.limits == m.limits
    && (m'.link.transport.Some? ==> m.link.transport.Some? && m'.link.prologueDone == m.link.prologueDone)
  }

  lemma LifecycleKeepsReading(m: Session, session: nat, o: Outcome, why: seq<byte>)
    ensures KeepsReading(m, OnClosed(m, session, why).m)
    ensures KeepsReading(m, OnReadySettled(m, session, o, why).m)
  {
  }

  lemma OpeningKeepsReading(m: Session, session: nat, o: Outcome, why: seq<byte>)
    ensures KeepsReading(m, OnStreamOpened(m, session, o, why).m)
    ensures KeepsReading(m, OnPrologueWritten(m, session, o, why).m)
  {
  }

  lemma DatagramKeepsReading(m: Session, session: nat, o: Outcome, why: seq<byte>)
    ensures KeepsReading(m, OnDatagramRead(m, session, o, why).m)
  {
  }

  lemma FrameWrittenKeepsReading(m: Session, session: nat, size: nat, o: Outcome, why: seq<byte>)
    ensures KeepsReading(m, OnFrameWritten(m, session, size, o, why).m)
  {
  }

  lemma OthersKeepReading(m: Session, cb: Callback, o: Outcome, why: seq<byte>)
    requires !(cb.kind.ReliableRead? && m.IsCurrent(cb.session) && o.Chunk?)
    ensures KeepsReading(m, React(m, cb, o, why).m)
  {
    match cb.kind
    case ReliableRead =>
    case DatagramRead => DatagramKeepsReading(m, cb.session, o, why);
    case SessionClosed => LifecycleKeepsReading(m, cb.session, o, why);
    case SessionReady => LifecycleKeepsReading(m, cb.session, o, why);
    case FrameWritten(size) => FrameWrittenKeepsReading(m, cb.session, size, o, why);
    case _ => OpeningKeepsReading(m, cb.session, o, why);
  }

  lemma SendingKeepsReading(m: Session, channel: int, payload: seq<byte>, reliable: bool, why: seq<byte>)
    ensures KeepsReading(m, Send(m, channel, payload, reliable, why).0.m)
  {
  }

  lemma ReadIsDecoded(m: Session, session: nat, bytes: seq<byte>, datagrams: bool, why: seq<byte>,
                      fed: seq<byte>, heard: seq<Message>)
    requires Sound(m) && m.IsCurrent(session) && ReadOk(m, fed, heard)
    ensures var m' := OnReliableRead(m, session, Chunk(bytes, datagrams), why).m;
            ReadOk(m', fed + bytes, heard + NewData(m, m'))
  {
    if m.link.prologueDone {
      LiveReadIsDecoded(m, session, bytes, datagrams, why, fed, heard);
    } else {
      FirstReadIsDecoded(m, session, bytes, datagrams, why, fed, heard);
    }
  }

  lemma SettlingIsDecoded(w: World, h: nat, o: Outcome, why: seq<byte>, fed: seq<byte>, heard: seq<Message>)
    requires Inv(w) && ReadOk(w.m, fed, heard)
    ensures var a := Settles(h, o, why);
            ReadOk(Step(w, a).m, Fed(w, a, fed), Heard(w, a, heard))
  {
    if h in w.pending {
      var cb := w.pending[h];
      if IsRead(w, Settles(h, o, why)) {
        ReadIsDecoded(w.m, cb.session, o.bytes, o.datagrams, why, fed, heard);
      } else {
        OthersKeepReading(w.m, cb, o, why);
      }
    }
  }

  lemma ConnectingStartsOver(m: Session, url: seq<byte>, attempt: Attempt, maxReliable: nat, maxUnreliable: nat,
                             why: seq<byte>)
    requires m.limits.supported
    ensures ReadOk(Connect(m, url, attempt, maxReliable, maxUnreliable, why).m, [], [])
  {
  }

  lemma StepIsDecoded(w: World, a: Action, fed: seq<byte>, heard: seq<Message>)
    requires Inv(w) && ReadOk(w.m, fed, heard)
    ensures ReadOk(Step(w, a).m, Fed(w, a, fed), Heard(w, a, heard))
  {
    match a
    case CallConnect(url, attempt, maxReliable, maxUnreliable, why) =>
      if w.m.limits.supported {
        ConnectingStartsOver(w.m, url, attempt, maxReliable, maxUnreliable, why);
      }
    case CallSend(channel, payload, reliable, why) => SendingKeepsReading(w.m, channel, payload, reliable, why);
    case Settles(h, o, why) => SettlingIsDecoded(w, h, o, why, fed, heard);
    case _ =>
  }

  lemma {:induction false} RunIsDecoded(w: World, actions: seq<Action>, fed: seq<byte>, heard: seq<Message>)
    requires Inv(w) && ReadOk(w.m, fed, heard)
    ensures ReadOk(Run(w, actions).m, FedBy(w, actions, fed), HeardBy(w, actions, heard))
    decreases |actions|
  {
    if actions != [] {
      StepKeepsInv(w, actions[0]);
      StepIsDecoded(w, actions[0], fed, heard);
      RunIsDecoded(Step(w, actions[0]), actions[1..], Fed(w, actions[0], fed), Heard(w, actions[0], heard));
    }
  }

  /** Over every run, with any other callbacks, calls and polls in between. */
  lemma ReadsAreDecoded(supported: bool, actions: seq<Action>)
    ensures ReadOk(Run(Initial(supported), actions).m,
                   FedBy(Initial(supported), actions, []), HeardBy(Initial(supported), actions, []))
  {
    InitialInv(supported);
    RunIsDecoded(Initial(supported), actions, [], []);
  }
}
