/** The browser plugin and the C# client together, under every interleaving of
    the game's calls, client ticks and promise settlements. A handler that calls
    back into the client is such an interleaving: dispatching ends with the
    handler. */
module ClientRuns {
  import opened Framing
  import opened Grammar
  import opened BrowserSession
  import opened BrowserRuns
  import opened ClientSession

  datatype System = System(w: World, c: Client)

  datatype Move =
    | GameConnect(url: seq<byte>, attempt: Attempt, maxReliable: nat, maxUnreliable: nat, why: seq<byte>)
    | GameDisconnect(why: seq<byte>)
    | GameShutdown(why: seq<byte>)
    | GameSend(channel: int, payload: seq<byte>, maximum: nat, reliable: bool, why: seq<byte>)
    | ClientTick(capacity: nat, why: seq<byte>)
    | Settlement(handle: nat, outcome: Outcome, why: seq<byte>)

  function Begin(supported: bool): (r: System) {
    System(Initial(supported), Client(false, false, false, []))
  }

  function Do(s: System, v: Move): (r: System) {
    match v
    case GameConnect(url, attempt, maxReliable, maxUnreliable, why) =>
      var (c, e) := ClientSession.Connect(s.c, s.w.m, url, attempt, maxReliable, maxUnreliable, why);
      System(Apply(s.w, e), c)
    case GameDisconnect(why) => s.(w := s.w.(m := ClientSession.Disconnect(s.c, s.w.m, why)))
    case GameShutdown(why) =>
      var (c, m) := ClientSession.Shutdown(s.c, s.w.m, why);
      System(s.w.(m := m), c)
    case GameSend(channel, payload, maximum, reliable, why) =>
      if s.c.connected && 0 < |payload| <= maximum then s.(w := Step(s.w, CallSend(channel, payload, reliable, why)))
      else s
    case ClientTick(capacity, why) =>
      var (c, m) := TickOnce(s.c, s.w.m, capacity, why);
      System(s.w.(m := m), c)
    case Settlement(h, outcome, why) => s.(w := Step(s.w, Settles(h, outcome, why)))
  }

  function Play(s: System, moves: seq<Move>): (r: System)
    decreases |moves|
  {
    if moves == [] then s else Play(Do(s, moves[0]), moves[1..])
  }

  // -------------------------------------------------------------------------
  // What Mirror may hear
  // -------------------------------------------------------------------------

  datatype Status = Off | Trying(session: nat) | Up(session: nat) | Wrong

  /** The rules of the conversation: data only between OnConnected and the end,
      at most one OnDisconnected per attempt, and nothing from a session other
      than the one of the latest attempt. */
  function Hear(st: Status, c: Call): (r: Status) {
    match c
    case Attempted(n) => if st == Off then Trying(n) else Wrong
    case OnConnected(n) => if st == Trying(n) then Up(n) else Wrong
    case OnData(_, _, n) => if st == Up(n) then st else Wrong
    case OnDisconnected(n) => if st == Trying(n) || st == Up(n) then Off else Wrong
    case OnError(n) => if st == Trying(n) || st == Up(n) then st else Wrong
    case Stopped => if st == Wrong then Wrong else Off
  }

  function StatusOf(log: seq<Call>): (r: Status) {
    if log == [] then Off else Hear(StatusOf(log[..|log| - 1]), log[|log| - 1])
  }

  lemma StatusSnoc(log: seq<Call>, c: Call)
    ensures StatusOf(log + [c]) == Hear(StatusOf(log), c)
  {
    assert (log + [c])[..|log|] == log;
  }

  // -------------------------------------------------------------------------
  // Invariant
  // -------------------------------------------------------------------------

  /** The status the flags stand for. */
  function Meant(c: Client, epoch: nat): (r: Status) {
    if c.connected then Up(epoch) else if c.connecting then Trying(epoch) else Off
  }

  /** The part of the session's word C# has polled. */
  function Seen(m: Session): (r: seq<Kind>)
    requires 0 <= Polled(m)
  {
    m.trace.word[..Polled(m)]
  }

  /** How the flags follow from the polled events. */
  ghost predicate Synced(c: Client, seen: seq<Kind>) {
    && (c.connecting && !c.lost ==> Connected !in seen && Disconnected !in seen)
    && (c.connected ==> seen != [])
    && (c.connected && !c.lost ==> seen[0] == Connected && Disconnected !in seen)
    && (c.lost ==> Disconnected in seen || (c.connecting && Connected in seen))
  }

  ghost predicate InStep(c: Client, epoch: nat) {
    StatusOf(c.log) == Meant(c, epoch) && !(c.connecting && c.connected)
  }

  ghost predicate SysInv(s: System) {
    && Inv(s.w)
    && InStep(s.c, s.w.m.trace.epoch)
    && (s.c.Off() ==> s.w.m.link.state == Idle && !s.c.lost)
    && (!s.c.Off() ==> s.w.m.limits.supported && s.w.m.trace.epoch > 0 && Synced(s.c, Seen(s.w.m)))
  }

  /** Steps of the plugin that neither connect nor poll leave the client in step. */
  lemma PluginStepKeepsInv(s: System, w': World)
    requires SysInv(s) && Inv(w') && Evolves(s.w.m, w'.m)
    ensures SysInv(System(w', s.c))
  {
    if !s.c.Off() {
      assert Seen(w'.m) == Seen(s.w.m);
    }
  }

  lemma CloseEvolves(m: Session, why: seq<byte>)
    ensures Evolves(m, LocalDisconnect(m, why)) && LocalDisconnect(m, why).link.state == Idle
  {
  }

  lemma SendEvolves(m: Session, channel: int, payload: seq<byte>, reliable: bool, why: seq<byte>)
    ensures Evolves(m, Send(m, channel, payload, reliable, why).0.m)
  {
  }

  lemma RefusalIsHeard(c: Client, n: nat)
    requires c.Off() && InStep(c, n)
    ensures InStep(c.Heard(Attempted(n)).Heard(OnError(n)).Heard(OnDisconnected(n)), n)
  {
    var log1 := c.log + [Attempted(n)];
    StatusSnoc(c.log, Attempted(n));
    StatusSnoc(log1, OnError(n));
    StatusSnoc(log1 + [OnError(n)], OnDisconnected(n));
  }

  lemma AttemptKeepsInv(s: System, url: seq<byte>, attempt: Attempt, maxReliable: nat, maxUnreliable: nat,
                        why: seq<byte>)
    requires SysInv(s) && s.c.Off() && s.w.m.limits.supported
    ensures SysInv(Do(s, GameConnect(url, attempt, maxReliable, maxUnreliable, why)))
  {
    ConnectingKeepsInv(s.w, url, attempt, maxReliable, maxUnreliable, why);
    var e := BrowserSession.Connect(s.w.m, url, attempt, maxReliable, maxUnreliable, why);
    StatusSnoc(s.c.log, Attempted(e.m.trace.epoch));
    assert Polled(e.m) == 0 && e.m.trace.epoch == s.w.m.trace.epoch + 1;
    assert Seen(e.m) == [];
  }

  lemma ConnectMoveKeepsInv(s: System, url: seq<byte>, attempt: Attempt, maxReliable: nat, maxUnreliable: nat,
                            why: seq<byte>)
    requires SysInv(s)
    ensures SysInv(Do(s, GameConnect(url, attempt, maxReliable, maxUnreliable, why)))
  {
    if s.c.Off() {
      if s.w.m.limits.supported {
        AttemptKeepsInv(s, url, attempt, maxReliable, maxUnreliable, why);
      } else {
        RefusalIsHeard(s.c, s.w.m.trace.epoch);
      }
    }
  }

  lemma ShutdownMoveKeepsInv(s: System, why: seq<byte>)
    requires SysInv(s)
    ensures SysInv(Do(s, GameShutdown(why)))
  {
    StatusSnoc(s.c.log, Stopped);
    if !s.c.Off() {
      DisconnectingKeepsInv(s.w, why);
      CloseEvolves(s.w.m, why);
    }
  }

  /** The next event of the queue, in its place in the session's word. */
  lemma NextEvent(m: Session, capacity: nat, why: seq<byte>)
    requires Sound(m) && m.limits.supported && m.queue.events != []
    ensures var e, m' := m.queue.events[0], Poll(m, capacity, why).0;
            && 0 <= Polled(m) < |m.trace.word| && e.kind == m.trace.word[Polled(m)] && e.origin == m.trace.epoch
            && Seen(m') == Seen(m) + [e.kind]
            && (e.kind == Connected ==> Seen(m) == [])
            && (e.kind == Disconnected ==> m.link.state == Idle)
  {
    PhaseMeaning(m.trace.word);
    var k := Polled(m);
    assert m.trace.word[..k + 1] == m.trace.word[..k] + [m.trace.word[k]];
  }

  lemma DispatchKeepsStep(c: Client, e: Event, epoch: nat)
    requires InStep(c, epoch) && !c.Off() && e.origin == epoch && (e.kind == Connected ==> !c.connected)
    ensures InStep(ClientSession.Dispatch(c, e), epoch)
  {
    match e.kind
    case Connected => StatusSnoc(c.log, OnConnected(e.origin));
    case Data => StatusSnoc(c.log, OnData(e.channel, e.data, e.origin));
    case Disconnected => StatusSnoc(c.log, OnDisconnected(e.origin));
    case Error => StatusSnoc(c.log, OnError(e.origin));
  }

  /** Polling the event `e` after `seen`: the flags follow it, unless it is a
      control event that does not fit the buffer. */
  lemma DispatchKeepsSynced(c: Client, seen: seq<Kind>, e: Event, capacity: nat, why: seq<byte>)
    requires Synced(c, seen) && !c.Off() && !(c.connecting && c.connected)
    requires e.kind == Connected ==> seen == []
    ensures var c1 := if IsControl(e.kind) then c.(lost := |e.data| > capacity) else c;
            var c' := ClientSession.Dispatch(c1, Rendered(e, capacity, why));
            && (c'.Off() ==> e.kind == Disconnected && !c'.lost)
            && (!c'.Off() ==> Synced(c', seen + [e.kind]))
  {
    assert forall k :: k in seen + [e.kind] <==> k in seen || k == e.kind;
  }

  lemma TickMoveKeepsInv(s: System, capacity: nat, why: seq<byte>)
    requires SysInv(s)
    ensures SysInv(Do(s, ClientTick(capacity, why)))
  {
    var m := s.w.m;
    if !s.c.Off() && m.queue.events != [] {
      var e := m.queue.events[0];
      PollingKeepsInv(s.w, capacity, why);
      NextEvent(m, capacity, why);
      var c1 := if IsControl(e.kind) then s.c.(lost := |e.data| > capacity) else s.c;
      DispatchKeepsStep(c1, Rendered(e, capacity, why), m.trace.epoch);
      DispatchKeepsSynced(s.c, Seen(m), e, capacity, why);
    }
  }

  lemma DisconnectMoveKeepsInv(s: System, why: seq<byte>)
    requires SysInv(s)
    ensures SysInv(Do(s, GameDisconnect(why)))
  {
    if !s.c.Off() {
      StepKeepsInv(s.w, CallDisconnect(why));
      CloseEvolves(s.w.m, why);
      PluginStepKeepsInv(s, s.w.(m := LocalDisconnect(s.w.m, why)));
    }
  }

  lemma SendMoveKeepsInv(s: System, channel: int, payload: seq<byte>, maximum: nat, reliable: bool, why: seq<byte>)
    requires SysInv(s)
    ensures SysInv(Do(s, GameSend(channel, payload, maximum, reliable, why)))
  {
    StepKeepsInv(s.w, CallSend(channel, payload, reliable, why));
    SendEvolves(s.w.m, channel, payload, reliable, why);
    PluginStepKeepsInv(s, Step(s.w, CallSend(channel, payload, reliable, why)));
  }

  lemma SettlementKeepsInv(s: System, h: nat, o: Outcome, why: seq<byte>)
    requires SysInv(s)
    ensures SysInv(Do(s, Settlement(h, o, why)))
  {
    StepKeepsInv(s.w, Settles(h, o, why));
    if h in s.w.pending {
      ReactFollows(s.w.m, s.w.pending[h], o, why);
      PluginStepKeepsInv(s, Step(s.w, Settles(h, o, why)));
    }
  }

  lemma MoveKeepsInv(s: System, v: Move)
    requires SysInv(s)
    ensures SysInv(Do(s, v))
  {
    match v
    case GameConnect(url, attempt, maxReliable, maxUnreliable, why) =>
      ConnectMoveKeepsInv(s, url, attempt, maxReliable, maxUnreliable, why);
    case GameDisconnect(why) => DisconnectMoveKeepsInv(s, why);
    case GameShutdown(why) => ShutdownMoveKeepsInv(s, why);
    case GameSend(channel, payload, maximum, reliable, why) =>
      SendMoveKeepsInv(s, channel, payload, maximum, reliable, why);
    case ClientTick(capacity, why) => TickMoveKeepsInv(s, capacity, why);
    case Settlement(h, o, why) => SettlementKeepsInv(s, h, o, why);
  }

  lemma {:induction false} PlayKeepsInv(s: System, moves: seq<Move>)
    requires SysInv(s)
    ensures SysInv(Play(s, moves))
    decreases |moves|
  {
    if moves != [] {
      MoveKeepsInv(s, moves[0]);
      PlayKeepsInv(Do(s, moves[0]), moves[1..]);
    }
  }

  /** After a shutdown Mirror hears nothing until it connects again, whatever
      settles and whatever was left in the queue. */
  lemma {:induction false} SilentWhileOff(s: System, moves: seq<Move>)
    requires s.c.Off() && forall v :: v in moves ==> !v.GameConnect? && !v.GameShutdown?
    ensures Play(s, moves).c == s.c
    decreases |moves|
  {
    if moves != [] {
      SilentWhileOff(Do(s, moves[0]), moves[1..]);
    }
  }

  lemma SilentAfterShutdown(s: System, why: seq<byte>, moves: seq<Move>)
    requires forall v :: v in moves ==> !v.GameConnect? && !v.GameShutdown?
    ensures Play(Do(s, GameShutdown(why)), moves).c == Do(s, GameShutdown(why)).c
    ensures Do(s, GameShutdown(why)).c.log == s.c.log + [Stopped]
  {
    SilentWhileOff(Do(s, GameShutdown(why)), moves);
  }

  /** Connecting starts afresh: a busy client is left alone; one that is off gets a
      session never seen before, and nothing to poll that is not of that session. */
  lemma ConnectStartsAfresh(s: System, url: seq<byte>, attempt: Attempt, maxReliable: nat, maxUnreliable: nat,
                            why: seq<byte>)
    requires SysInv(s)
    ensures
      var s' := Do(s, GameConnect(url, attempt, maxReliable, maxUnreliable, why));
      if !s.c.Off() then s'.w.m == s.w.m && s'.c == s.c
      else if s.w.m.limits.supported then
        && s'.c.connecting && s'.w.m.trace.epoch > s.w.m.trace.epoch
        && (forall e :: e in s'.w.m.queue.events ==> e.origin == s'.w.m.trace.epoch)
        && (forall h :: h in s.w.pending ==> !s'.w.m.IsCurrent(s.w.pending[h].session))
      else s'.c.Off() && s'.w.m == s.w.m
  {
    if s.c.Off() && s.w.m.limits.supported {
      AttemptKeepsInv(s, url, attempt, maxReliable, maxUnreliable, why);
    }
  }

  /** In a browser without WebTransport the client never calls the plugin. */
  lemma {:induction false} UnsupportedIsUntouched(s: System, moves: seq<Move>)
    requires s.w == Initial(false) && s.c.Off()
    ensures Play(s, moves).w == Initial(false) && Play(s, moves).c.Off()
    decreases |moves|
  {
    if moves != [] {
      UnsupportedIsUntouched(Do(s, moves[0]), moves[1..]);
    }
  }

  lemma MoveKeepsSupport(s: System, v: Move)
    requires SysInv(s)
    ensures Do(s, v).w.m.limits.supported == s.w.m.limits.supported
  {
    match v
    case Settlement(h, o, why) => StepKeepsLimitsAndEpoch(s.w, Settles(h, o, why));
    case GameSend(channel, payload, maximum, reliable, why) => SendEvolves(s.w.m, channel, payload, reliable, why);
    case _ =>
  }

  lemma {:induction false} PlayKeepsSupport(s: System, moves: seq<Move>)
    requires SysInv(s)
    ensures Play(s, moves).w.m.limits.supported == s.w.m.limits.supported
    decreases |moves|
  {
    if moves != [] {
      MoveKeepsInv(s, moves[0]);
      MoveKeepsSupport(s, moves[0]);
      PlayKeepsSupport(Do(s, moves[0]), moves[1..]);
    }
  }

  /** Used through the client, the plugin's byte counter is exact in every run, in
      browsers with WebTransport and without. */
  lemma ClientKeepsCounterExact(supported: bool, moves: seq<Move>)
    ensures var m := Play(Begin(supported), moves).w.m; m.queue.queuedBytes == Total(m.queue.events)
  {
    if supported {
      InitialInv(true);
      PlayKeepsInv(Begin(true), moves);
      PlayKeepsSupport(Begin(true), moves);
    } else {
      UnsupportedIsUntouched(Begin(false), moves);
    }
  }

  // -------------------------------------------------------------------------
  // What holds over every run
  // -------------------------------------------------------------------------

  predicate Ends(c: Call) { c.OnDisconnected? || c.Stopped? || c.Attempted? }

  /** `call` was heard before position `n`, and no attempt or end since. */
  predicate OpenSince(log: seq<Call>, n: nat, call: Call)
    requires n <= |log|
  {
    n > 0 && (log[n - 1] == call || (!Ends(log[n - 1]) && OpenSince(log, n - 1, call)))
  }

  /** The same, position by position. */
  lemma {:induction false} OpenSinceMeaning(log: seq<Call>, n: nat, call: Call)
    requires n <= |log|
    ensures OpenSince(log, n, call) <==>
              exists j :: 0 <= j < n && log[j] == call && forall k :: j < k < n ==> !Ends(log[k])
  {
    if n > 0 {
      OpenSinceMeaning(log, n - 1, call);
    }
  }

  /** Why the call at position `i` may be heard. */
  ghost predicate Explained(log: seq<Call>, i: nat)
    requires i < |log|
  {
    match log[i]
    case OnConnected(n) => OpenSince(log, i, Attempted(n)) && !OpenSince(log, i, OnConnected(n))
    case OnData(_, _, n) => OpenSince(log, i, OnConnected(n))
    case OnDisconnected(n) => OpenSince(log, i, Attempted(n))
    case OnError(n) => OpenSince(log, i, Attempted(n))
    case _ => true
  }

  /** One more call leaves what was open at `n` open at `n`. */
  lemma {:induction false} OpenSinceExtends(log: seq<Call>, c: Call, n: nat, call: Call)
    requires n <= |log|
    ensures OpenSince(log + [c], n, call) == OpenSince(log, n, call)
  {
    if n > 0 {
      OpenSinceExtends(log, c, n - 1, call);
    }
  }

  /** What the status remembers of the log. */
  ghost predicate Remembers(log: seq<Call>) {
    match StatusOf(log)
    case Trying(n) => OpenSince(log, |log|, Attempted(n)) && !OpenSince(log, |log|, OnConnected(n))
    case Up(n) => OpenSince(log, |log|, OnConnected(n)) && OpenSince(log, |log|, Attempted(n))
    case _ => true
  }

  lemma RemembersNext(log: seq<Call>, c: Call)
    requires Remembers(log) && StatusOf(log + [c]) != Wrong
    ensures Remembers(log + [c]) && Explained(log + [c], |log|)
  {
    StatusSnoc(log, c);
    match StatusOf(log)
    case Trying(n) =>
      OpenSinceExtends(log, c, |log|, Attempted(n));
      OpenSinceExtends(log, c, |log|, OnConnected(n));
    case Up(n) =>
      OpenSinceExtends(log, c, |log|, Attempted(n));
      OpenSinceExtends(log, c, |log|, OnConnected(n));
    case _ =>
  }

  lemma StaysExplained(log: seq<Call>, c: Call, i: nat)
    requires i < |log| && Explained(log, i)
    ensures Explained(log + [c], i)
  {
    match log[i]
    case OnConnected(n) =>
      OpenSinceExtends(log, c, i, Attempted(n));
      OpenSinceExtends(log, c, i, OnConnected(n));
    case OnData(_, _, n) => OpenSinceExtends(log, c, i, OnConnected(n));
    case OnDisconnected(n) => OpenSinceExtends(log, c, i, Attempted(n));
    case OnError(n) => OpenSinceExtends(log, c, i, Attempted(n));
    case _ =>
  }

  lemma {:induction false} StatusMeaning(log: seq<Call>)
    requires StatusOf(log) != Wrong
    ensures Remembers(log) && forall i :: 0 <= i < |log| ==> Explained(log, i)
  {
    if log != [] {
      var init, last := log[..|log| - 1], log[|log| - 1];
      StatusMeaning(init);
      assert log == init + [last];
      RemembersNext(init, last);
      forall i | 0 <= i < |init|
        ensures Explained(log, i)
      {
        StaysExplained(init, last, i);
      }
    }
  }

  /** Composed callback runs. Whatever the interleaving, every OnData follows the
      OnConnected of its own session, every OnConnected, OnDisconnected and
      OnError follows the attempt of its own session, and in each case no other
      attempt, no shutdown and no OnDisconnected lies between; nor an earlier
      OnConnected, for an OnConnected. So data is only heard while connected, an
      attempt is answered by at most one OnConnected and one OnDisconnected, and
      nothing from an earlier session is ever heard, even when a shutdown left
      its events unpolled. */
  lemma CallbackRuns(supported: bool, moves: seq<Move>)
    ensures var log := Play(Begin(supported), moves).c.log;
            forall i :: 0 <= i < |log| ==> Explained(log, i)
  {
    InitialInv(supported);
    PlayKeepsInv(Begin(supported), moves);
    StatusMeaning(Play(Begin(supported), moves).c.log);
  }

  /** Once the queue is drained the client's state is the plugin's state, exactly
      when the last Connected or Disconnected event it polled fitted its buffer. */
  lemma DrainedClientAgrees(supported: bool, moves: seq<Move>)
    ensures var s := Play(Begin(supported), moves);
            s.w.m.queue.events == [] ==> (s.c.State() == s.w.m.link.state <==> !s.c.lost)
  {
    InitialInv(supported);
    PlayKeepsInv(Begin(supported), moves);
    var s := Play(Begin(supported), moves);
    if s.w.m.queue.events == [] && !s.c.Off() {
      PhaseMeaning(s.w.m.trace.word);
      assert Seen(s.w.m) == s.w.m.trace.word;
    }
  }
}
