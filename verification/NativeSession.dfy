/** One native client session: the worker that runs `client_main`, the state it
    shares with the game's thread, and the game's request to disconnect. Each
    step is one atomic operation, one lock or one await, and the steps of worker
    and game interleave freely.

    `word` and `told` are bookkeeping: the kinds of all events emitted, and the
    events themselves. So is `asked`: a call of `disconnect` has returned. */
module NativeSession {
  import opened Framing
  import opened Options
  import opened Grammar
  import opened BrowserSession

  /** Where the worker is. The stages after `Running` are the way down, on which
      `failed` says whether `client_run` gave up before it was connected. */
  datatype Stage =
    | Handshaking
    | ConnectionSet
    | QueueSet
    | StateSet
    | Running
    | Closing                          // a loop has ended; waiting for the session to be closed
    | Returned(failed: bool)
    | StateCleared(failed: bool)
    | QueueCleared(failed: bool)
    | ConnectionTaken(failed: bool)
    | ErrorTold
    | Finished

  datatype Control = Control(
    stage: Stage,
    state: State,
    connection: bool,      // the shared connection is present
    queue: bool,           // the shared sending end of the outgoing queue is present
    closeQueued: bool,     // a Close message is in the outgoing queue
    ahead: nat,            // the frames ahead of it that the stream has not accepted
    finished: bool,        // the stream was finished for it
    shutdown: bool,        // the shutdown signal was sent
    looked: bool,          // `disconnect` found no open queue and is about to send the signal
    asked: bool)
  {
    /** The receiving end of the outgoing queue lives as long as the loops. */
    predicate ReceiverAlive() { stage.ConnectionSet? || stage.QueueSet? || stage.StateSet? || stage.Running? }
  }

  /** The event queue C# polls. */
  datatype Outbox = Outbox(events: seq<Event>, word: seq<Kind>, told: seq<Event>, origin: nat)

  datatype Instance = Instance(control: Control, out: Outbox)

  function Started(origin: nat): (r: Instance) {
    Instance(Control(Handshaking, Connecting, false, false, false, 0, false, false, false, false),
             Outbox([], [], [], origin))
  }

  datatype Step =
    | Tell(kind: Kind, channel: byte, data: seq<byte>)   // an event is sent to the queue C# polls
    | HandshakeFails
    | HandshakeDone
    | SetQueue
    | SetState
    | SendQueues                                         // the game queues a frame
    | WriteAccepted(frames: nat)                         // the network takes frames of a batch
    | FinishAccepted                                     // the network lets the stream be finished
    | WriterCloses                                       // the writer carries out the Close message
    | LoopEnds                                           // any loop ends for what the network did
    | CloseArrives
    | Cancelled
    | ClearState
    | ClearQueue
    | TakeConnection
    | DisconnectLooks
    | DisconnectCancels

  /** The events the worker can emit next: the loops emit messages and a bad frame. */
  predicate MayTell(stage: Stage, kind: Kind) {
    match kind
    case Connected => stage.StateSet?
    case Data => stage.Running?
    case Error => stage.Running? || (stage.ConnectionTaken? && stage.failed)
    case Disconnected => (stage.ConnectionTaken? && !stage.failed) || stage.ErrorTold?
  }

  function StageAfter(stage: Stage, kind: Kind): (r: Stage) {
    match kind
    case Connected => Running
    case Data => stage
    case Error => if stage.Running? then Closing else ErrorTold
    case Disconnected => Finished
  }

  predicate Enabled(i: Control, a: Step) {
    match a
    case Tell(kind, _, _) => MayTell(i.stage, kind)
    case HandshakeFails => i.stage == Handshaking
    case HandshakeDone => i.stage == Handshaking
    case SetQueue => i.stage == ConnectionSet
    case SetState => i.stage == QueueSet
    case SendQueues => i.queue && i.ReceiverAlive()
    case WriteAccepted(n) => i.stage == Running && 0 < n <= i.ahead
    case FinishAccepted => i.stage == Running && i.closeQueued && i.ahead == 0
    case WriterCloses => i.stage == Running && i.finished
    case LoopEnds => i.stage == Running
    case CloseArrives => i.stage == Closing
    case Cancelled => i.shutdown && (i.stage.Handshaking? || i.stage.Running? || i.stage.Closing?)
    case ClearState => i.stage.Returned?
    case ClearQueue => i.stage.StateCleared?
    case TakeConnection => i.stage.QueueCleared?
    case DisconnectLooks => true
    case DisconnectCancels => i.looked
  }

  /** What a step does to everything but the events. */
  function Moved(i: Control, a: Step): (r: Control)
    requires Enabled(i, a)
  {
    match a
    case Tell(kind, _, _) => i.(stage := StageAfter(i.stage, kind))
    case HandshakeFails => i.(stage := Returned(true))
    case HandshakeDone => i.(stage := ConnectionSet, connection := true)
    case SetQueue => i.(stage := QueueSet, queue := true)
    case SetState => i.(stage := StateSet, state := Live)
    case SendQueues => if i.closeQueued then i else i.(ahead := i.ahead + 1)
    case WriteAccepted(n) => i.(ahead := i.ahead - n)
    case FinishAccepted => i.(finished := true)
    case WriterCloses => i.(stage := Closing)
    case LoopEnds => i.(stage := Closing)
    case CloseArrives => i.(stage := Returned(false))
    case Cancelled => i.(stage := Returned(false))
    case ClearState => i.(stage := StateCleared(i.stage.failed), state := Idle)
    case ClearQueue => i.(stage := QueueCleared(i.stage.failed), queue := false)
    case TakeConnection => i.(stage := ConnectionTaken(i.stage.failed), connection := false)
    case DisconnectLooks =>
      if i.queue && i.ReceiverAlive() then i.(closeQueued := true, asked := true) else i.(looked := true)
    case DisconnectCancels => i.(shutdown := true, looked := false, asked := true)
  }

  function Queue(out: Outbox, a: Step): (r: Outbox) {
    if a.Tell? then
      var e := Event(a.kind, a.channel, 0, a.data, out.origin);
      out.(events := out.events + [e], word := out.word + [a.kind], told := out.told + [e])
    else out
  }

  function Next(i: Instance, a: Step): (r: Instance)
    requires Enabled(i.control, a)
  {
    Instance(Moved(i.control, a), Queue(i.out, a))
  }

  // -------------------------------------------------------------------------
  // Invariant
  // -------------------------------------------------------------------------

  /** How far the session's word has got by the time the worker is at a stage. */
  predicate Fits(p: Phase, stage: Stage) {
    match stage
    case Running => p == Open
    case Closing => p == Open || p == Phase.Failed
    case Returned(failed) => p == Fresh || (!failed && (p == Open || p == Phase.Failed))
    case StateCleared(failed) => p == Fresh || (!failed && (p == Open || p == Phase.Failed))
    case QueueCleared(failed) => p == Fresh || (!failed && (p == Open || p == Phase.Failed))
    case ConnectionTaken(failed) => p == Fresh || (!failed && (p == Open || p == Phase.Failed))
    case ErrorTold => p == Phase.Failed
    case Finished => p == Over
    case _ => p == Fresh
  }

  /** The shared fields follow the stages: filled in before the state says
      Connected, emptied after it has stopped saying so. */
  predicate Shared(i: Control) {
    match i.stage
    case Handshaking => i.state == Connecting && !i.connection && !i.queue
    case ConnectionSet => i.state == Connecting && i.connection && !i.queue
    case QueueSet => i.state == Connecting && i.connection && i.queue
    case StateSet => i.state == Live && i.connection && i.queue
    case Running => i.state == Live && i.connection && i.queue
    case Closing => i.state == Live && i.connection && i.queue
    case Returned(_) => i.state != Idle && (i.state == Live ==> i.connection && i.queue)
    case StateCleared(_) => i.state == Idle
    case QueueCleared(_) => i.state == Idle && !i.queue
    case _ => i.state == Idle && !i.connection && !i.queue
  }

  /** A request to disconnect that has returned is not forgotten, and a Close
      message only ever went to a queue that was read. */
  predicate Heeded(i: Control) {
    && (i.asked ==> i.shutdown || i.closeQueued || !(i.ReceiverAlive() || i.stage.Handshaking?))
    && (i.closeQueued ==> !i.stage.Handshaking? && !i.stage.ConnectionSet?)
    && (i.finished ==> i.closeQueued && i.ahead == 0)
    && (i.stage.QueueSet? || i.stage.StateSet? ==> !i.finished)
  }

  /** The events not polled yet are the end of the word. */
  ghost predicate Queued(out: Outbox) {
    && |out.events| <= |out.word|
    && (forall k :: 0 <= k < |out.events| ==>
          out.events[k].kind == out.word[|out.word| - |out.events| + k] && out.events[k].origin == out.origin)
  }

  /** They are the end of everything told. */
  ghost predicate Kept(out: Outbox) {
    && |out.events| <= |out.told| && out.events == out.told[|out.told| - |out.events|..]
    && forall e :: e in out.events ==> 0 <= e.channel < 256
  }

  ghost predicate Inv(i: Instance) {
    Fits(PhaseOf(i.out.word), i.control.stage) && Shared(i.control) && Heeded(i.control) && Queued(i.out) && Kept(i.out)
  }

  lemma TellingFits(p: Phase, stage: Stage, kind: Kind)
    requires Fits(p, stage) && MayTell(stage, kind)
    ensures Fits(Advance(p, kind), StageAfter(stage, kind))
  {
  }

  lemma SilenceFits(p: Phase, i: Control, a: Step)
    requires Fits(p, i.stage) && Enabled(i, a) && !a.Tell?
    ensures Fits(p, Moved(i, a).stage)
  {
    match a
    case HandshakeFails => assert Moved(i, a).stage == Returned(true);
    case CloseArrives => assert Moved(i, a).stage == Returned(false);
    case Cancelled => assert Moved(i, a).stage == Returned(false);
    case _ =>
  }

  lemma StepShares(i: Control, a: Step)
    requires Enabled(i, a) && Shared(i) && Heeded(i)
    ensures Shared(Moved(i, a)) && Heeded(Moved(i, a))
  {
  }

  lemma StepQueues(out: Outbox, a: Step)
    requires Queued(out)
    ensures Queued(Queue(out, a))
  {
  }

  lemma StepKeepsTold(out: Outbox, a: Step)
    requires Kept(out)
    ensures Kept(Queue(out, a))
  {
  }

  lemma StepKeepsInv(i: Instance, a: Step)
    requires Enabled(i.control, a) && Inv(i)
    ensures Inv(Next(i, a)) && Next(i, a).out.origin == i.out.origin
  {
    StepShares(i.control, a);
    StepQueues(i.out, a);
    StepKeepsTold(i.out, a);
    if a.Tell? {
      TellingFits(PhaseOf(i.out.word), i.control.stage, a.kind);
      PhaseSnoc(i.out.word, a.kind);
    } else {
      SilenceFits(PhaseOf(i.out.word), i.control, a);
    }
  }

  /** The state after a run of steps, if each of them was enabled. */
  ghost function Exec(i: Instance, steps: seq<Step>): (r: Option<Instance>)
    decreases |steps|
  {
    if steps == [] then Some(i)
    else if Enabled(i.control, steps[0]) then Exec(Next(i, steps[0]), steps[1..])
    else None
  }

  lemma {:induction false} RunKeepsInv(i: Instance, steps: seq<Step>)
    requires Inv(i) && Exec(i, steps).Some?
    ensures Inv(Exec(i, steps).value)
    decreases |steps|
  {
    if steps != [] {
      StepKeepsInv(i, steps[0]);
      RunKeepsInv(Next(i, steps[0]), steps[1..]);
    }
  }

  // -------------------------------------------------------------------------
  // What holds over every run
  // -------------------------------------------------------------------------

  predicate GaveUp(stage: Stage) {
    match stage
    case Returned(failed) => failed
    case StateCleared(failed) => failed
    case QueueCleared(failed) => failed
    case ConnectionTaken(failed) => failed
    case _ => false
  }

  lemma StartedIsOk(origin: nat)
    ensures Inv(Started(origin))
  {
  }

  lemma SharedWhenLive(i: Control)
    requires Shared(i)
    ensures i.state == Live ==> i.queue && i.connection
    ensures i.stage == Finished ==> i.state == Idle && !i.queue && !i.connection
  {
  }

  lemma FinishedHasAnswered(i: Instance)
    requires Inv(i)
    ensures Disconnected in i.out.word <==> i.control.stage == Finished
  {
    PhaseMeaning(i.out.word);
  }

  /** Over every run: the events are a prefix of `(Connected Data*)? Error?
      Disconnected`; a session that failed to connect has said nothing before
      its Error; a state of Connected means the shared queue and connection are
      there; and once Disconnected is emitted the state says so and both are
      gone. */
  lemma ClientGrammar(origin: nat, steps: seq<Step>)
    requires Exec(Started(origin), steps).Some?
    ensures
      var i := Exec(Started(origin), steps).value;
      var c, w := i.control, i.out.word;
      && SessionPrefix(w)
      && (GaveUp(c.stage) ==> w == [])
      && (c.state == Live ==> c.queue && c.connection)
      && (Disconnected in w ==> c.stage == Finished && c.state == Idle && !c.queue && !c.connection)
  {
    StartedIsOk(origin);
    RunKeepsInv(Started(origin), steps);
    var i := Exec(Started(origin), steps).value;
    PhaseMeaning(i.out.word);
    SharedWhenLive(i.control);
    FinishedHasAnswered(i);
  }

  // -------------------------------------------------------------------------
  // Whether a disconnect is answered
  // -------------------------------------------------------------------------

  /** Steps the worker takes by itself, without anything from the network. A
      session that was closed locally reports so by itself. */
  predicate Own(i: Control, a: Step) {
    Enabled(i, a) &&
    match a
    case Tell(kind, _, _) => !i.stage.Running?
    case SetQueue => true
    case SetState => true
    case WriterCloses => true
    case CloseArrives => true
    case Cancelled => true
    case ClearState => true
    case ClearQueue => true
    case TakeConnection => true
    case _ => false
  }

  /** Steps in which the network accepts what the writer offers it. */
  predicate Accepts(i: Control, a: Step) { Enabled(i, a) && (a.WriteAccepted? || a.FinishAccepted?) }

  /** A run of own steps and, if `helped`, of steps in which the network accepts. */
  ghost predicate Unaided(i: Instance, steps: seq<Step>, helped: bool)
    decreases |steps|
  {
    steps == [] ||
    ((Own(i.control, steps[0]) || (helped && Accepts(i.control, steps[0]))) &&
     Unaided(Next(i, steps[0]), steps[1..], helped))
  }

  /** Nothing is left to wait for: the signal was sent, the loops are over, or
      everything ahead of the Close message and the end of the stream with it
      has been accepted. */
  predicate NothingOutstanding(i: Control) {
    i.shutdown || i.finished || !(i.stage.Handshaking? || i.ReceiverAlive())
  }

  function LastWord(stage: Stage): (r: Kind) { if stage.ConnectionTaken? && stage.failed then Error else Disconnected }

  /** What happens next once the game has asked to disconnect. */
  function AnsweringStep(i: Control): (r: Step) {
    match i.stage
    case Handshaking => Cancelled
    case ConnectionSet => SetQueue
    case QueueSet => SetState
    case StateSet => Tell(Connected, 0, [])
    case Running =>
      if i.shutdown then Cancelled
      else if i.finished then WriterCloses
      else if i.ahead > 0 then WriteAccepted(i.ahead)
      else FinishAccepted
    case Closing => CloseArrives
    case Returned(_) => ClearState
    case StateCleared(_) => ClearQueue
    case QueueCleared(_) => TakeConnection
    case ConnectionTaken(_) => Tell(LastWord(i.stage), 0, [])
    case ErrorTold => Tell(LastWord(i.stage), 0, [])
    case Finished => DisconnectLooks
  }

  function Rank(stage: Stage): (r: nat) {
    match stage
    case Handshaking => 10
    case ConnectionSet => 10
    case QueueSet => 9
    case StateSet => 8
    case Running => 7
    case Closing => 6
    case Returned(_) => 5
    case StateCleared(_) => 4
    case QueueCleared(_) => 3
    case ConnectionTaken(_) => 2
    case ErrorTold => 1
    case Finished => 0
  }

  lemma RankOfStages(stage: Stage)
    ensures Rank(stage) <= 6 <==>
                !(stage.Handshaking? || stage.ConnectionSet? || stage.QueueSet? || stage.StateSet? || stage.Running?)
  {
  }

  /** How many such steps are left, at most. */
  function StepsLeft(i: Control): (r: nat) {
    Rank(i.stage) + (if i.finished then 0 else 1) + (if i.ahead > 0 then 1 else 0)
  }

  lemma AnsweringStepIsAllowed(i: Control)
    requires Heeded(i) && i.asked && i.stage != Finished
    ensures Own(i, AnsweringStep(i)) || (!NothingOutstanding(i) && Accepts(i, AnsweringStep(i)))
  {
  }

  lemma RunningStepCounts(i: Control)
    requires Heeded(i) && i.asked && i.stage.Running?
    ensures var a := AnsweringStep(i);
            Enabled(i, a) && Moved(i, a).asked && StepsLeft(Moved(i, a)) < StepsLeft(i) &&
            (NothingOutstanding(i) ==> NothingOutstanding(Moved(i, a)))
  {
  }

  /** Off the loops, a step changes nothing about the request. */
  predicate SameRequest(i: Control, j: Control) {
    j.asked == i.asked && j.shutdown == i.shutdown && j.ahead == i.ahead && j.finished == i.finished
  }

  lemma StepOnTheWayUpCounts(i: Control)
    requires Heeded(i) && i.asked
    requires i.stage.Handshaking? || i.stage.ConnectionSet? || i.stage.QueueSet? || i.stage.StateSet?
    ensures var a := AnsweringStep(i);
            Enabled(i, a) && Rank(Moved(i, a).stage) < Rank(i.stage) && SameRequest(i, Moved(i, a))
  {
  }

  lemma EndingStepCounts(i: Control)
    requires i.stage.Closing? || i.stage.Returned? || i.stage.StateCleared? || i.stage.QueueCleared?
    ensures var a := AnsweringStep(i);
            Enabled(i, a) && Rank(Moved(i, a).stage) < Rank(i.stage) <= 6 && SameRequest(i, Moved(i, a))
  {
    match i.stage
    case Closing =>
    case Returned(_) =>
    case StateCleared(_) =>
    case QueueCleared(_) =>
  }

  lemma LastWordsFollow(stage: Stage)
    requires stage.ConnectionTaken? || stage.ErrorTold?
    ensures MayTell(stage, LastWord(stage)) && Rank(StageAfter(stage, LastWord(stage))) < Rank(stage) <= 6
  {
  }

  lemma LastWordsCount(i: Control)
    requires i.stage.ConnectionTaken? || i.stage.ErrorTold?
    ensures var a := AnsweringStep(i);
            Enabled(i, a) && Rank(Moved(i, a).stage) < Rank(i.stage) <= 6 && SameRequest(i, Moved(i, a))
  {
    LastWordsFollow(i.stage);
    assert AnsweringStep(i) == Tell(LastWord(i.stage), 0, []);
  }

  lemma AnsweringStepCounts(i: Control)
    requires Heeded(i) && i.asked && i.stage != Finished
    ensures var a := AnsweringStep(i);
            Enabled(i, a) && Moved(i, a).asked && StepsLeft(Moved(i, a)) < StepsLeft(i) &&
            (NothingOutstanding(i) ==> NothingOutstanding(Moved(i, a)))
  {
    if i.stage.Running? {
      RunningStepCounts(i);
    } else if i.stage.Handshaking? || i.ReceiverAlive() {
      StepOnTheWayUpCounts(i);
    } else {
      if i.stage.ConnectionTaken? || i.stage.ErrorTold? {
        LastWordsCount(i);
      } else {
        EndingStepCounts(i);
      }
      RankOfStages(Moved(i, AnsweringStep(i)).stage);
    }
  }

  /** Once a disconnect has been asked for, the worker can finish; on its own if
      nothing is outstanding, and otherwise with the network accepting. */
  lemma {:induction false} AskedIsAnswered(i: Instance) returns (steps: seq<Step>)
    requires Inv(i) && i.control.asked
    ensures |steps| <= StepsLeft(i.control) && Unaided(i, steps, !NothingOutstanding(i.control))
    ensures Exec(i, steps).Some? && Exec(i, steps).value.control.stage == Finished && Inv(Exec(i, steps).value)
    decreases StepsLeft(i.control)
  {
    if i.control.stage == Finished {
      steps := [];
    } else {
      var a := AnsweringStep(i.control);
      AnsweringStepIsAllowed(i.control);
      AnsweringStepCounts(i.control);
      StepKeepsInv(i, a);
      var rest := AskedIsAnswered(Next(i, a));
      HelpIsAllowed(Next(i, a), rest, !NothingOutstanding(i.control));
      steps := [a] + rest;
      assert steps[0] == a && steps[1..] == rest;
    }
  }

  lemma {:induction false} HelpIsAllowed(i: Instance, steps: seq<Step>, helped: bool)
    requires Unaided(i, steps, false) || (helped && Unaided(i, steps, helped))
    ensures Unaided(i, steps, helped)
    decreases |steps|
  {
    if steps != [] {
      HelpIsAllowed(Next(i, steps[0]), steps[1..], helped);
    }
  }

  /** A worker that waits for the network waits through all its own steps. */
  lemma OwnStepLeavesOutstanding(i: Control, a: Step)
    requires Heeded(i) && i.asked && !NothingOutstanding(i) && Own(i, a)
    ensures !NothingOutstanding(Moved(i, a)) && Moved(i, a).asked
  {
  }

  lemma {:induction false} OutstandingStaysUnanswered(i: Instance, steps: seq<Step>)
    requires Inv(i) && i.control.asked && !NothingOutstanding(i.control) && Unaided(i, steps, false)
    ensures Exec(i, steps).Some? && Inv(Exec(i, steps).value) && !NothingOutstanding(Exec(i, steps).value.control)
    decreases |steps|
  {
    if steps != [] {
      StepKeepsInv(i, steps[0]);
      OwnStepLeavesOutstanding(i.control, steps[0]);
      OutstandingStaysUnanswered(Next(i, steps[0]), steps[1..]);
    }
  }

  ghost predicate Answers(i: Instance, steps: seq<Step>) {
    Exec(i, steps).Some? && Disconnected in Exec(i, steps).value.out.word
  }

  /** In every reachable state in which a disconnect has been asked for, the
      worker can answer it by itself if and only if nothing is outstanding; and
      in any case once the network accepts what is. */
  lemma DisconnectIsAnsweredExactly(origin: nat, before: seq<Step>)
    requires Exec(Started(origin), before).Some? && Exec(Started(origin), before).value.control.asked
    ensures
      var i := Exec(Started(origin), before).value;
      && ((exists steps :: Unaided(i, steps, false) && Answers(i, steps)) <==> NothingOutstanding(i.control))
      && (exists steps :: |steps| <= 12 && Unaided(i, steps, true) && Answers(i, steps))
  {
    StartedIsOk(origin);
    RunKeepsInv(Started(origin), before);
    var i := Exec(Started(origin), before).value;
    var answer := AskedIsAnswered(i);
    FinishedHasAnswered(Exec(i, answer).value);
    assert Answers(i, answer);
    if NothingOutstanding(i.control) {
      HelpIsAllowed(i, answer, true);
    } else {
      forall steps | Unaided(i, steps, false)
        ensures !Answers(i, steps)
      {
        OutstandingStaysUnanswered(i, steps);
        FinishedHasAnswered(Exec(i, steps).value);
      }
    }
  }

  function ConnectedRun(): (r: seq<Step>) { [HandshakeDone, SetQueue, SetState, Tell(Connected, 0, [])] }

  /** A disconnect that stalls: one frame is queued and not accepted. The call
      returns, calling again changes nothing, and without the network the worker
      never answers. */
  lemma StalledDisconnect(origin: nat)
    ensures
      var run := Exec(Started(origin), ConnectedRun() + [SendQueues, DisconnectLooks]);
      && run.Some? && run.value.control.asked && run.value.control.ahead == 1
      && Next(run.value, DisconnectLooks) == run.value
      && (forall steps :: Unaided(run.value, steps, false) ==> !Answers(run.value, steps))
  {
    var s0 := Started(origin);
    var s1 := Next(s0, HandshakeDone);
    var s2 := Next(s1, SetQueue);
    var s3 := Next(s2, SetState);
    var s4 := Next(s3, Tell(Connected, 0, []));
    var s5 := Next(s4, SendQueues);
    var s6 := Next(s5, DisconnectLooks);
    var tail := [SendQueues, DisconnectLooks];
    Then(s5, [], DisconnectLooks);
    Then(s4, [DisconnectLooks], SendQueues);
    Then(s3, tail, Tell(Connected, 0, []));
    Then(s2, [Tell(Connected, 0, [])] + tail, SetState);
    Then(s1, [SetState] + ([Tell(Connected, 0, [])] + tail), SetQueue);
    Then(s0, [SetQueue] + ([SetState] + ([Tell(Connected, 0, [])] + tail)), HandshakeDone);
    assert ConnectedRun() + tail == [HandshakeDone] + ([SetQueue] + ([SetState] + ([Tell(Connected, 0, [])] + tail)));
    assert [SendQueues] + [DisconnectLooks] == tail && [DisconnectLooks] + [] == [DisconnectLooks];
    DisconnectIsAnsweredExactly(origin, ConnectedRun() + tail);
  }

  lemma Then(i: Instance, rest: seq<Step>, a: Step)
    requires Enabled(i.control, a)
    ensures Exec(i, [a] + rest) == Exec(Next(i, a), rest)
  {
    assert ([a] + rest)[1..] == rest;
  }
}
