/** What reaches Mirror through the receive buffer of the native client. Texts are
    cut to fit there and only messages can be lost; as long as they fit, OnData
    carries exactly the messages of the session, in order. */
module NativeClientData {
  import opened Framing
  import opened Options
  import opened Grammar
  import opened BrowserSession
  import opened ClientSession
  import opened ClientData
  import opened NativeSession
  import opened NativeBackend
  import opened NativeClientRuns
  import opened Interop

  /** No message the session worker passes on is longer than `limit`, and no tick's
      buffer is shorter. */
  predicate SmallTurn(v: Turn, limit: nat) {
    match v
    case TickTurn(capacity, _) => capacity >= limit
    case TaskTurn(a) => a.Tell? && a.kind.Data? ==> |a.data| <= limit
    case _ => true
  }

  /** Every message not polled yet fits. */
  ghost predicate SizesOk(out: Outbox, limit: nat) {
    forall e :: e in out.events && e.kind.Data? ==> |e.data| <= limit
  }

  function PolledEvents(out: Outbox): (r: seq<Event>)
    requires |out.events| <= |out.told|
  {
    out.told[..|out.told| - |out.events|]
  }

  ghost predicate RigLosesNothing(s: Rig, limit: nat) {
    s.l.slot.Some? ==>
      var out := s.l.slot.value.out;
      && Kept(out)
      && HeardData(s.c.log) <= DataIn(out.told)
      && (!s.c.Off() ==> SizesOk(out, limit) && HeardData(s.c.log) == DataIn(PolledEvents(out)))
  }

  lemma QueueKeepsOutbox(out: Outbox, a: NativeSession.Step, limit: nat)
    requires Kept(out) && (a.Tell? && a.kind.Data? ==> |a.data| <= limit)
    ensures Kept(NativeSession.Queue(out, a)) && (SizesOk(out, limit) ==> SizesOk(NativeSession.Queue(out, a), limit))
    ensures PolledEvents(NativeSession.Queue(out, a)) == PolledEvents(out)
    ensures DataIn(out.told) <= DataIn(NativeSession.Queue(out, a).told)
  {
    StepKeepsTold(out, a);
    if a.Tell? {
      DataInSnoc(out.told, Event(a.kind, a.channel, 0, a.data, out.origin));
    }
  }

  lemma TaskLosesNothing(s: Rig, a: NativeSession.Step, limit: nat)
    requires RigLosesNothing(s, limit) && (a.Tell? && a.kind.Data? ==> |a.data| <= limit)
    ensures RigLosesNothing(s.(l := TakeStep(s.l, a)), limit)
  {
    if s.l.slot.Some? {
      QueueKeepsOutbox(s.l.slot.value.out, a, limit);
    }
  }

  /** An attempt of a client that is off starts with nothing lost, whatever sizes
      were in force before. */
  lemma AttemptStartsClean(s: Rig, available: bool, creation: Creation, limit: nat)
    requires RigOk(s) && s.c.Off()
    ensures RigLosesNothing(Take(s, ConnectTurn(available, creation)), limit)
  {
    var log := s.c.log;
    var n := Take(s, ConnectTurn(available, creation)).l.epoch;
    HeardDataSnoc(log, Attempted(n));
    RefusalHearsNothing(log, n);
  }

  lemma ConnectTurnLosesNothing(s: Rig, available: bool, creation: Creation, limit: nat)
    requires RigOk(s) && RigLosesNothing(s, limit)
    ensures RigLosesNothing(Take(s, ConnectTurn(available, creation)), limit)
  {
    if s.c.Off() {
      AttemptStartsClean(s, available, creation, limit);
    }
  }

  /** Polling takes the next event of what was told. */
  lemma PollAdvances(out: Outbox, limit: nat)
    requires Kept(out) && SizesOk(out, limit) && out.events != []
    ensures
      var rest, e := out.(events := out.events[1..]), out.events[0];
      && Kept(rest) && SizesOk(rest, limit) && rest.told == out.told
      && DataIn(PolledEvents(rest)) == DataIn(PolledEvents(out)) + Carried(e)
  {
    var rest, k := out.(events := out.events[1..]), |out.told| - |out.events|;
    assert PolledEvents(rest) == PolledEvents(out) + [out.events[0]];
    DataInSnoc(PolledEvents(out), out.events[0]);
    assert rest.events == out.told[k + 1..];
  }

  lemma {:induction false} DataInPrefix(events: seq<Event>, k: nat)
    requires k <= |events|
    ensures DataIn(events[..k]) <= DataIn(events)
    decreases |events|
  {
    if k < |events| {
      var init, last := events[..|events| - 1], events[|events| - 1];
      assert events == init + [last] && init[..k] == events[..k];
      DataInSnoc(init, last);
      DataInPrefix(init, k);
    } else {
      assert events[..k] == events;
    }
  }

  /** An event that fits is heard for what it carries. */
  lemma ShownIsHeard(c: Client, e: Event, capacity: nat, complaint: seq<byte>)
    requires !c.Off() && (e.kind.Data? ==> c.connected && IsMessage(e) && |e.data| <= capacity)
    ensures HeardData(Dispatch(c, Shown(e, Some(capacity), complaint)).log) == HeardData(c.log) + Carried(e)
  {
    DispatchHears(c, Shown(e, Some(capacity), complaint));
  }

  lemma PolledMeetsConnected(c: Client, out: Outbox)
    requires Queued(out) && PhaseOf(out.word) != Broken && out.events != [] && out.events[0].kind.Data?
    requires Follows(c, Heard(out)) && !c.Off()
    ensures c.connected
  {
    NextPolled(out);
  }

  lemma TickTurnLosesNothing(s: Rig, capacity: nat, complaint: seq<byte>, limit: nat)
    requires RigOk(s) && RigLosesNothing(s, limit) && capacity >= limit
    ensures RigLosesNothing(Take(s, TickTurn(capacity, complaint)), limit)
  {
    if !s.c.Off() && s.l.slot.value.out.events != [] {
      var out := s.l.slot.value.out;
      if out.events[0].kind.Data? {
        PolledMeetsConnected(s.c, out);
      }
      PollAdvances(out, limit);
      DataInPrefix(out.told, |out.told| - |out.events| + 1);
      ShownIsHeard(s.c, out.events[0], capacity, complaint);
    }
  }

  lemma {:induction false} TurnsLoseNothing(s: Rig, turns: seq<Turn>, limit: nat)
    requires RigOk(s) && RigLosesNothing(s, limit) && forall v :: v in turns ==> SmallTurn(v, limit)
    ensures RigLosesNothing(TakeAll(s, turns), limit)
    decreases |turns|
  {
    if turns != [] {
      TurnKeeps(s, turns[0]);
      TurnLosesNothing(s, turns[0], limit);
      TurnsLoseNothing(Take(s, turns[0]), turns[1..], limit);
    }
  }

  lemma TurnLosesNothing(s: Rig, v: Turn, limit: nat)
    requires RigOk(s) && RigLosesNothing(s, limit) && SmallTurn(v, limit)
    ensures RigLosesNothing(Take(s, v), limit)
  {
    match v
    case ConnectTurn(available, creation) => ConnectTurnLosesNothing(s, available, creation, limit);
    case DisconnectTurn => TaskLosesNothing(s, DisconnectLooks, limit);
    case ShutdownTurn =>
    case TickTurn(capacity, complaint) => TickTurnLosesNothing(s, capacity, complaint, limit);
    case TaskTurn(a) => TaskLosesNothing(s, a, limit);
  }

  /** Data delivery. Whatever went before, if from an attempt on no message is
      longer than the buffer of any tick, what Mirror has heard through OnData since
      the last attempt is, in order, the messages the session in the slot has passed
      on: a prefix at any time, and all of them while the client is on and the queue
      is drained. */
  lemma NativeOnDataIsWhatWasTold(before: seq<Turn>, available: bool, creation: Creation, after: seq<Turn>, limit: nat)
    requires TakeAll(Idling(), before).c.Off()
    requires forall v :: v in after ==> SmallTurn(v, limit)
    ensures var s := TakeAll(Take(TakeAll(Idling(), before), ConnectTurn(available, creation)), after);
            s.l.slot.Some? ==>
              var out := s.l.slot.value.out;
              && HeardData(s.c.log) <= DataIn(out.told)
              && (!s.c.Off() && out.events == [] ==> HeardData(s.c.log) == DataIn(out.told))
  {
    var s0, attempt := TakeAll(Idling(), before), ConnectTurn(available, creation);
    TurnsKeep(Idling(), before);
    TurnKeeps(s0, attempt);
    AttemptStartsClean(s0, available, creation, limit);
    TurnsLoseNothing(Take(s0, attempt), after, limit);
    var s := TakeAll(Take(s0, attempt), after);
    if s.l.slot.Some? {
      assert s.l.slot.value.out.told[..|s.l.slot.value.out.told|] == s.l.slot.value.out.told;
    }
  }
}
