/** The native client session, the library's slot and the C# client together,
    under every interleaving of the game's calls, client ticks and steps of the
    session worker. */
module NativeClientRuns {
  import opened Framing
  import opened Options
  import opened Grammar
  import opened BrowserSession
  import opened ClientSession
  import opened ClientRuns
  import opened NativeSession
  import opened NativeBackend
  import opened Interop

  datatype Rig = Rig(l: Library, c: Client)

  /** `GameDisconnect` is the first half of the call; its second half, the
      cancelling, is a step of the session like any other. */
  datatype Turn =
    | ConnectTurn(available: bool, creation: Creation)
    | DisconnectTurn
    | ShutdownTurn
    | TickTurn(capacity: nat, complaint: seq<byte>)
    | TaskTurn(a: NativeSession.Step)

  function TakeStep(l: Library, a: NativeSession.Step): (r: Library) {
    if l.slot.Some? && Enabled(l.slot.value.control, a) then
      l.(slot := Some(NativeSession.Next(l.slot.value, a)))
    else l
  }

  function Take(s: Rig, v: Turn): (r: Rig) {
    match v
    case ConnectTurn(available, creation) =>
      var (c, l) := NativeBackend.Connect(s.c, s.l, available, creation);
      Rig(l, c)
    case DisconnectTurn => if s.c.Off() then s else s.(l := TakeStep(s.l, DisconnectLooks))
    case ShutdownTurn =>
      var (c, l) := NativeBackend.Shutdown(s.c, s.l);
      Rig(l, c)
    case TickTurn(capacity, complaint) =>
      var (c, l) := NativeBackend.TickOnce(s.c, s.l, capacity, complaint);
      Rig(l, c)
    case TaskTurn(a) => s.(l := TakeStep(s.l, a))
  }

  function TakeAll(s: Rig, turns: seq<Turn>): (r: Rig)
    decreases |turns|
  {
    if turns == [] then s else TakeAll(Take(s, turns[0]), turns[1..])
  }

  function Idling(): (r: Rig) { Rig(Library(None, 0), Client(false, false, false, [])) }

  /** The part of the session's word C# has polled. */
  function Heard(out: Outbox): (r: seq<Kind>)
    requires |out.events| <= |out.word|
  {
    out.word[..|out.word| - |out.events|]
  }

  /** How the flags follow from the polled events. */
  ghost predicate Follows(c: Client, heard: seq<Kind>) {
    && (c.connecting ==> heard == [] || heard == [Error])
    && (c.connected ==> heard != [] && heard[0] == Connected && Disconnected !in heard)
  }

  ghost predicate SlotOk(l: Library) {
    l.slot.Some? ==> NativeSession.Inv(l.slot.value) && l.slot.value.out.origin == l.epoch
  }

  ghost predicate RigOk(s: Rig) {
    && SlotOk(s.l) && InStep(s.c, s.l.epoch) && !s.c.lost
    && (!s.c.Off() ==> s.l.slot.Some? && Follows(s.c, Heard(s.l.slot.value.out)))
  }

  lemma QueueKeepsHeard(out: Outbox, a: NativeSession.Step)
    requires |out.events| <= |out.word|
    ensures var q := NativeSession.Queue(out, a);
            |q.events| <= |q.word| && Heard(q) == Heard(out)
  {
  }

  /** A step of the session worker is heard of only by polling. */
  lemma TakeStepKeepsSlot(l: Library, a: NativeSession.Step)
    requires SlotOk(l)
    ensures var l' := TakeStep(l, a);
            && SlotOk(l') && l'.epoch == l.epoch && l'.slot.Some? == l.slot.Some?
            && (l.slot.Some? ==> Heard(l'.slot.value.out) == Heard(l.slot.value.out))
  {
    if l.slot.Some? && Enabled(l.slot.value.control, a) {
      StepKeepsInv(l.slot.value, a);
      QueueKeepsHeard(l.slot.value.out, a);
    }
  }

  lemma TaskTurnKeeps(s: Rig, a: NativeSession.Step)
    requires RigOk(s)
    ensures RigOk(s.(l := TakeStep(s.l, a)))
  {
    TakeStepKeepsSlot(s.l, a);
  }

  lemma NewSessionKeeps(s: Rig)
    requires RigOk(s) && s.c.Off()
    ensures RigOk(Take(s, ConnectTurn(true, Creation.Created)))
  {
    StatusSnoc(s.c.log, Attempted(s.l.epoch + 1));
    StartedIsOk(s.l.epoch + 1);
    assert Heard(Started(s.l.epoch + 1).out) == [];
  }

  lemma RefusedKeeps(s: Rig, available: bool, creation: Creation)
    requires RigOk(s) && s.c.Off() && !(available && creation.Created?)
    ensures RigOk(Take(s, ConnectTurn(available, creation)))
  {
    RefusalIsHeard(s.c, s.l.epoch);
  }

  lemma ConnectTurnKeeps(s: Rig, available: bool, creation: Creation)
    requires RigOk(s)
    ensures RigOk(Take(s, ConnectTurn(available, creation)))
  {
    if s.c.Off() {
      if available && creation.Created? {
        NewSessionKeeps(s);
      } else {
        RefusedKeeps(s, available, creation);
      }
    }
  }

  /** The next event to be polled, in its place in the session's word. */
  lemma NextPolled(out: Outbox)
    requires Queued(out) && PhaseOf(out.word) != Broken && out.events != []
    ensures
      var e, rest := out.events[0], out.(events := out.events[1..]);
      && e.origin == out.origin && Queued(rest) && Heard(rest) == Heard(out) + [e.kind]
      && (e.kind == Connected ==> Heard(out) == [])
      && (e.kind == Data ==> Heard(out) != [] && Heard(out)[0] == Connected)
      && (Error in Heard(out) ==> e.kind == Disconnected)
  {
    PhaseMeaning(out.word);
    var k := |out.word| - |out.events|;
    assert out.events[0].kind == out.word[k];
    assert out.word[..k + 1] == out.word[..k] + [out.word[k]];
    var rest := out.(events := out.events[1..]);
    forall j | 0 <= j < |rest.events|
      ensures rest.events[j].kind == rest.word[|rest.word| - |rest.events| + j] && rest.events[j].origin == rest.origin
    {
      assert rest.events[j] == out.events[j + 1];
    }
  }

  lemma DispatchFollows(c: Client, heard: seq<Kind>, e: Event, room: Option<nat>, complaint: seq<byte>)
    requires Follows(c, heard) && !c.Off() && !c.lost && !(c.connecting && c.connected)
    requires e.kind == Connected ==> heard == []
    requires e.kind == Data ==> heard != [] && heard[0] == Connected
    requires Error in heard ==> e.kind == Disconnected
    ensures var c' := Dispatch(c, Shown(e, room, complaint));
            !c'.lost && (!c'.Off() ==> Follows(c', heard + [e.kind]))
  {
    assert forall k :: k in heard + [e.kind] <==> k in heard || k == e.kind;
  }

  lemma TickTurnKeeps(s: Rig, capacity: nat, complaint: seq<byte>)
    requires RigOk(s)
    ensures RigOk(Take(s, TickTurn(capacity, complaint)))
  {
    if !s.c.Off() && s.l.slot.value.out.events != [] {
      var out := s.l.slot.value.out;
      var e := out.events[0];
      NextPolled(out);
      DispatchFollows(s.c, Heard(out), e, Some(capacity), complaint);
      DispatchKeepsStep(s.c, Shown(e, Some(capacity), complaint), s.l.epoch);
    }
  }

  lemma TurnKeeps(s: Rig, v: Turn)
    requires RigOk(s)
    ensures RigOk(Take(s, v))
  {
    match v
    case ConnectTurn(available, creation) => ConnectTurnKeeps(s, available, creation);
    case DisconnectTurn => TaskTurnKeeps(s, DisconnectLooks);
    case ShutdownTurn => StatusSnoc(s.c.log, Stopped);
    case TickTurn(capacity, complaint) => TickTurnKeeps(s, capacity, complaint);
    case TaskTurn(a) => TaskTurnKeeps(s, a);
  }

  lemma {:induction false} TurnsKeep(s: Rig, turns: seq<Turn>)
    requires RigOk(s)
    ensures RigOk(TakeAll(s, turns))
    decreases |turns|
  {
    if turns != [] {
      TurnKeeps(s, turns[0]);
      TurnsKeep(Take(s, turns[0]), turns[1..]);
    }
  }

  /** The native client keeps the same promise to Mirror as the browser's: every
      OnData follows the OnConnected of its own session, and every OnConnected,
      OnDisconnected and OnError the attempt of its own session, with no other
      attempt, shutdown or OnDisconnected in between. */
  lemma NativeCallbackRuns(turns: seq<Turn>)
    ensures var log := TakeAll(Idling(), turns).c.log;
            forall i :: 0 <= i < |log| ==> Explained(log, i)
  {
    TurnsKeep(Idling(), turns);
    StatusMeaning(TakeAll(Idling(), turns).c.log);
  }

  /** Once its queue is drained, a client that is not off has heard exactly what
      its session has said: it is connected if and only if the session has said
      so, and a session that is over has left no client waiting. */
  lemma DrainedNativeClientAgrees(turns: seq<Turn>)
    ensures var s := TakeAll(Idling(), turns);
            !s.c.Off() ==>
              && s.l.slot.Some?
              && var i := s.l.slot.value;
                 i.out.events == [] ==> (s.c.connected <==> Connected in i.out.word) && i.control.stage != Finished
  {
    TurnsKeep(Idling(), turns);
    var s := TakeAll(Idling(), turns);
    if !s.c.Off() && s.l.slot.value.out.events == [] {
      var out := s.l.slot.value.out;
      PhaseMeaning(out.word);
      assert Heard(out) == out.word;
    }
  }

  lemma {:induction false} SilentWhileOff(s: Rig, turns: seq<Turn>)
    requires s.c.Off() && forall v :: v in turns ==> !v.ConnectTurn? && !v.ShutdownTurn?
    ensures TakeAll(s, turns).c == s.c
    decreases |turns|
  {
    if turns != [] {
      SilentWhileOff(Take(s, turns[0]), turns[1..]);
    }
  }

  /** After a shutdown Mirror hears nothing until it connects again, whatever the
      old session still does. */
  lemma SilentAfterShutdown(s: Rig, turns: seq<Turn>)
    requires forall v :: v in turns ==> !v.ConnectTurn? && !v.ShutdownTurn?
    ensures TakeAll(Take(s, ShutdownTurn), turns).c == Take(s, ShutdownTurn).c
    ensures Take(s, ShutdownTurn).c.log == s.c.log + [Stopped]
  {
    SilentWhileOff(Take(s, ShutdownTurn), turns);
  }

  /** Replacing the slot leaves only the newest session to be polled: over every
      run, an event that is polled is of the session started last. */
  lemma NewestSessionOnly(turns: seq<Turn>, capacity: nat, complaint: seq<byte>)
    ensures var l := TakeAll(Idling(), turns).l;
            PollSlot(l, capacity, complaint).1.Some? ==> PollSlot(l, capacity, complaint).1.value.origin == l.epoch
  {
    TurnsKeep(Idling(), turns);
    var l := TakeAll(Idling(), turns).l;
    if l.slot.Some? && l.slot.value.out.events != [] {
      NextPolled(l.slot.value.out);
    }
  }
}
