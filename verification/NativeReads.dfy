/** What the native client makes of what arrives: the session worker of
    `NativeSession` with its readers in it. A chunk is only read when nothing
    complete is buffered; what is passed on, and the violation that ends the
    session, are the next things in the buffer. */
module NativeReads {
  import opened Framing
  import opened Options
  import opened Grammar
  import opened BrowserSession
  import opened ClientData
  import opened Datagrams
  import opened NativeSession

  /** `fed` and `heard` are bookkeeping: the chunks read so far, and the messages
      passed on from them. */
  datatype Reader = Reader(i: Instance, maxReliable: nat, maxUnreliable: nat, fed: seq<byte>, unread: seq<byte>,
                           heard: seq<Message>)
  {
    function Head(): (r: Framing.Next) { NextMessage(unread, maxReliable).0 }

    function Rest(): (r: seq<byte>) { NextMessage(unread, maxReliable).1 }
  }

  datatype Act =
    | Other(a: Step)              // any step that is none of the reading loops'
    | Arrives(bytes: seq<byte>)   // a chunk is read
    | Passes                      // the next message is passed on
    | Violates(text: seq<byte>)   // the next message is too long
    | Datagram(bytes: seq<byte>)

  function Opened(origin: nat, maxReliable: nat, maxUnreliable: nat): (r: Reader) {
    Reader(Started(origin), maxReliable, maxUnreliable, [], [], [])
  }

  predicate CanAct(r: Reader, v: Act) {
    match v
    case Other(a) => Enabled(r.i.control, a) && !(a.Tell? && r.i.control.stage.Running?)
    case Arrives(_) => r.i.control.stage.Running? && r.Head().Nothing?
    case Passes => r.i.control.stage.Running? && r.Head().Got?
    case Violates(_) => r.i.control.stage.Running? && r.Head().Violation?
    case Datagram(_) => r.i.control.stage.Running?
  }

  /** The step of the worker it is, if it is one. */
  function StepOf(r: Reader, v: Act): (step: Option<Step>)
    requires CanAct(r, v)
  {
    match v
    case Other(a) => Some(a)
    case Arrives(_) => None
    case Passes => Some(Tell(Data, r.Head().message.channel, r.Head().message.payload))
    case Violates(text) => Some(Tell(Error, 0, text))
    case Datagram(bytes) =>
      var d := DecodeDatagram(bytes, r.maxUnreliable);
      if d.Some? then Some(Tell(Data, d.value.channel, d.value.payload)) else None
  }

  lemma StepIsEnabled(r: Reader, v: Act)
    requires CanAct(r, v)
    ensures StepOf(r, v).Some? ==> Enabled(r.i.control, StepOf(r, v).value)
  {
  }

  function Acted(r: Reader, v: Act): (r': Reader)
    requires CanAct(r, v)
  {
    StepIsEnabled(r, v);
    var step := StepOf(r, v);
    var r1 := if step.Some? then r.(i := NativeSession.Next(r.i, step.value)) else r;
    match v
    case Arrives(bytes) => r1.(fed := r.fed + bytes, unread := r.Rest() + bytes)
    case Passes => r1.(unread := r.Rest(), heard := r.heard + [r.Head().message])
    case _ => r1
  }

  /** The state after a run of acts, if each of them was possible. */
  ghost function Perform(r: Reader, acts: seq<Act>): (end: Option<Reader>)
    decreases |acts|
  {
    if acts == [] then Some(r)
    else if CanAct(r, acts[0]) then Perform(Acted(r, acts[0]), acts[1..])
    else None
  }

  // -------------------------------------------------------------------------
  // Invariant
  // -------------------------------------------------------------------------

  /** What was heard and what is still to be heard of the unread bytes is what the
      bytes read decode to. */
  ghost predicate HeardOk(r: Reader) {
    var all, left := Decode(r.fed, r.maxReliable), Decode(r.unread, r.maxReliable);
    all.Delivered() == r.heard + left.Delivered() && all.tooLarge == left.tooLarge && all.rest == left.rest
  }

  /** An Error told by a session that was connected is the violation, and comes
      after every message ahead of it. */
  ghost predicate ErrorOk(r: Reader) {
    Connected in r.i.out.word && Error in r.i.out.word ==>
      Decode(r.unread, r.maxReliable).tooLarge && Decode(r.unread, r.maxReliable).Delivered() == []
  }

  ghost predicate ReaderOk(r: Reader) { NativeSession.Inv(r.i) && HeardOk(r) && ErrorOk(r) }

  /** A chunk more, behind what holds nothing complete. */
  lemma ArrivingIsDecoded(fed: seq<byte>, bytes: seq<byte>, limit: nat)
    ensures var all := Decode(fed, limit);
            !all.tooLarge ==>
              var more, now := Decode(all.rest + bytes, limit), Decode(fed + bytes, limit);
              && now.Delivered() == all.Delivered() + more.Delivered()
              && now.tooLarge == more.tooLarge && now.rest == more.rest
  {
    var all := Decode(fed, limit);
    DecodeSplit(fed, bytes, limit);
    NonEmptyConcat(all.frames, Decode(all.rest + bytes, limit).frames);
  }

  lemma PassingIsDecoded(r: Reader)
    requires HeardOk(r) && r.Head().Got?
    ensures HeardOk(r.(unread := r.Rest(), heard := r.heard + [r.Head().message]))
  {
    NextMessageIsDecode(r.unread, r.maxReliable);
    var later := Decode(r.Rest(), r.maxReliable).Delivered();
    assert r.heard + ([r.Head().message] + later) == r.heard + [r.Head().message] + later;
  }

  lemma ActKeepsHeard(r: Reader, v: Act)
    requires CanAct(r, v) && HeardOk(r)
    ensures HeardOk(Acted(r, v))
  {
    match v
    case Arrives(bytes) =>
      NextMessageIsDecode(r.unread, r.maxReliable);
      ArrivingIsDecoded(r.fed, bytes, r.maxReliable);
      assert r.heard + [] == r.heard;
    case Passes => PassingIsDecoded(r);
    case _ =>
  }

  /** While the loops run no error has been told, and an error told on the way out
      of a failed attempt is the first thing told. */
  lemma ErrorsAreRare(i: Instance)
    requires NativeSession.Inv(i)
    ensures i.control.stage.Running? ==> Error !in i.out.word
    ensures Enabled(i.control, Tell(Error, 0, [])) && !i.control.stage.Running? ==> i.out.word == []
    ensures Enabled(i.control, Tell(Connected, 0, [])) ==> i.out.word == []
  {
    PhaseMeaning(i.out.word);
  }

  lemma ActKeepsError(r: Reader, v: Act)
    requires CanAct(r, v) && ReaderOk(r)
    ensures ErrorOk(Acted(r, v))
  {
    ErrorsAreRare(r.i);
    NextMessageIsDecode(r.unread, r.maxReliable);
    var word := Acted(r, v).i.out.word;
    assert StepOf(r, v).None? ==> word == r.i.out.word;
  }

  lemma ActKeepsReader(r: Reader, v: Act)
    requires CanAct(r, v) && ReaderOk(r)
    ensures ReaderOk(Acted(r, v))
  {
    StepIsEnabled(r, v);
    if StepOf(r, v).Some? {
      StepKeepsInv(r.i, StepOf(r, v).value);
    }
    ActKeepsHeard(r, v);
    ActKeepsError(r, v);
  }

  lemma {:induction false} PerformKeepsReader(r: Reader, acts: seq<Act>)
    requires ReaderOk(r) && Perform(r, acts).Some?
    ensures ReaderOk(Perform(r, acts).value) && Perform(r, acts).value.maxReliable == r.maxReliable
    decreases |acts|
  {
    if acts != [] {
      ActKeepsReader(r, acts[0]);
      PerformKeepsReader(Acted(r, acts[0]), acts[1..]);
    }
  }

  /** Over every run: the reliable messages passed on are, in order, a prefix of what
      the chunks read so far decode to; all of it whenever the worker reads on; and
      an Error told after Connected means that a message too long comes next and
      everything ahead of it has been passed on. */
  lemma NativeReadsAreDecoded(origin: nat, maxReliable: nat, maxUnreliable: nat, acts: seq<Act>)
    requires Perform(Opened(origin, maxReliable, maxUnreliable), acts).Some?
    ensures
      var r := Perform(Opened(origin, maxReliable, maxUnreliable), acts).value;
      var d := Decode(r.fed, maxReliable);
      && r.heard <= d.Delivered()
      && (r.Head().Nothing? ==> r.heard == d.Delivered() && !d.tooLarge)
      && (Connected in r.i.out.word && Error in r.i.out.word ==> r.heard == d.Delivered() && d.tooLarge)
  {
    var r0 := Opened(origin, maxReliable, maxUnreliable);
    StartedIsOk(origin);
    PerformKeepsReader(r0, acts);
    var r := Perform(r0, acts).value;
    NextMessageIsDecode(r.unread, maxReliable);
    assert r.heard + [] == r.heard;
  }

  // -------------------------------------------------------------------------
  // What the game's side is told
  // -------------------------------------------------------------------------

  lemma ActTells(r: Reader, v: Act)
    requires CanAct(r, v) && DataIn(r.i.out.told) == r.heard && !v.Datagram?
    ensures DataIn(Acted(r, v).i.out.told) == Acted(r, v).heard
  {
    StepIsEnabled(r, v);
    if StepOf(r, v).Some? && StepOf(r, v).value.Tell? {
      var a := StepOf(r, v).value;
      DataInSnoc(r.i.out.told, Event(a.kind, a.channel, 0, a.data, r.i.out.origin));
      assert r.heard + [] == r.heard;
    }
  }

  lemma {:induction false} PerformTells(r: Reader, acts: seq<Act>)
    requires Perform(r, acts).Some? && DataIn(r.i.out.told) == r.heard
    requires forall v :: v in acts ==> !v.Datagram?
    ensures DataIn(Perform(r, acts).value.i.out.told) == Perform(r, acts).value.heard
    decreases |acts|
  {
    if acts != [] {
      ActTells(r, acts[0]);
      PerformTells(Acted(r, acts[0]), acts[1..]);
    }
  }

  /** Without datagrams, the messages told to the game's side are those. */
  lemma ToldIsWhatWasRead(origin: nat, maxReliable: nat, maxUnreliable: nat, acts: seq<Act>)
    requires Perform(Opened(origin, maxReliable, maxUnreliable), acts).Some?
    requires forall v :: v in acts ==> !v.Datagram?
    ensures var r := Perform(Opened(origin, maxReliable, maxUnreliable), acts).value;
            DataIn(r.i.out.told) == r.heard <= Decode(r.fed, maxReliable).Delivered()
  {
    PerformTells(Opened(origin, maxReliable, maxUnreliable), acts);
    NativeReadsAreDecoded(origin, maxReliable, maxUnreliable, acts);
  }

  /** A reader's run is a run of its worker, so what holds over the worker's runs
      holds here. */
  lemma {:induction false} ReaderRunsAreRuns(r: Reader, acts: seq<Act>) returns (steps: seq<Step>)
    requires Perform(r, acts).Some?
    ensures Exec(r.i, steps) == Some(Perform(r, acts).value.i)
    decreases |acts|
  {
    if acts == [] {
      steps := [];
    } else {
      StepIsEnabled(r, acts[0]);
      var later := ReaderRunsAreRuns(Acted(r, acts[0]), acts[1..]);
      if StepOf(r, acts[0]).Some? {
        Then(r.i, later, StepOf(r, acts[0]).value);
        steps := [StepOf(r, acts[0]).value] + later;
      } else {
        steps := later;
      }
    }
  }
}
