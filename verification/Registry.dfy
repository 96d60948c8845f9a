/** The server's connection registry under concurrency. Every `handle_session`
    task is a sequence of steps, one for each atomic operation, lock or await it
    makes, and the steps of different tasks interleave freely.

    `tick` counts the probes of the id counter; ids are its values modulo a lap.
    The one assumption is that the counter does not lap during the life of a
    session: `FetchId` is only enabled while every id in use was fetched less
    than a lap ago. `task`, `tick`, `log` and `peak` are bookkeeping. */
module Registry {
  import opened Options
  import opened Grammar
  import opened IdAllocator

  /** How far a task has got. `Held` phases have fetched an id. */
  datatype Phase =
    | Handshaking                        // admitted; handshake in progress
    | Probing                            // about to fetch an id
    | Held(stage: Stage, tick: nat)
    | Finished

  datatype Stage =
    | Checking   // fetched an id, not yet looked it up
    | Chosen     // the id was free
    | Counted    // connection_count incremented
    | Inserted   // registered in the map
    | Running    // Connected emitted; the loops run
    | Closing    // a loop has ended
    | Removed    // out of the map
    | Released   // connection_count decremented

  datatype Entry = Entry(task: nat, id: nat, kind: Kind)

  datatype Server = Server(
    maxConnections: nat,
    tasks: map<nat, Phase>,
    connections: map<nat, nat>,
    count: int,
    ticks: nat,
    log: seq<Entry>,
    peak: nat)

  datatype Op =
    | Arrive | HandshakeFails | HandshakeDone
    | FetchId | CheckId
    | Increment | Insert
    | EmitConnected | EmitData | EmitError | LoopEnds
    | Remove | Decrement
    | EmitDisconnected

  datatype Step = Step(task: nat, op: Op)

  function Initial(maxConnections: nat): (r: Server) {
    Server(maxConnections, map[], map[], 0, 0, [], 0)
  }

  function IdOf(tick: nat): (r: nat) { Probe(1, tick) }

  predicate At(s: Server, t: nat, stage: Stage) {
    t in s.tasks && s.tasks[t].Held? && s.tasks[t].stage == stage
  }

  /** No id in use was fetched a whole lap of the counter ago. */
  ghost predicate NoLap(s: Server) {
    forall t :: t in s.tasks && s.tasks[t].Held? ==> s.ticks < s.tasks[t].tick + MAX_ID
  }

  /** The stage a session does a step in, once it holds an id. */
  function StageOf(op: Op): (r: Stage) {
    match op
    case Increment => Chosen
    case Insert => Counted
    case EmitConnected => Inserted
    case EmitData => Running
    case EmitError => Running
    case LoopEnds => Running
    case Remove => Closing
    case Decrement => Removed
    case EmitDisconnected => Released
    case _ => Checking
  }

  /** The stage it is in afterwards. */
  function StageAfter(op: Op): (r: Stage) {
    match op
    case Increment => Counted
    case Insert => Inserted
    case EmitConnected => Running
    case EmitData => Running
    case EmitError => Closing
    case LoopEnds => Closing
    case Remove => Removed
    case Decrement => Released
    case _ => Chosen
  }

  ghost predicate Enabled(s: Server, a: Step) {
    match a.op
    case Arrive => a.task !in s.tasks
    case HandshakeFails => a.task in s.tasks && s.tasks[a.task].Handshaking?
    case HandshakeDone => a.task in s.tasks && s.tasks[a.task].Handshaking?
    case FetchId => a.task in s.tasks && s.tasks[a.task].Probing? && NoLap(s)
    case _ => At(s, a.task, StageOf(a.op))
  }

  predicate Full(s: Server) { s.maxConnections > 0 && s.count >= s.maxConnections }

  /** The id a session holds, if it holds one. */
  function HeldId(s: Server, t: nat): (r: nat) {
    if t in s.tasks && s.tasks[t].Held? then IdOf(s.tasks[t].tick) else 0
  }

  /** The phase a step leaves its task in. */
  function PhaseAfter(s: Server, a: Step): (r: Phase)
    requires Enabled(s, a)
  {
    match a.op
    case Arrive => if Full(s) then Finished else Handshaking
    case HandshakeFails => Finished
    case HandshakeDone => Probing
    case FetchId => Held(Checking, s.ticks)
    case CheckId => if HeldId(s, a.task) in s.connections then Probing else Held(Chosen, s.tasks[a.task].tick)
    case EmitDisconnected => Finished
    case _ => Held(StageAfter(a.op), s.tasks[a.task].tick)
  }

  function ConnectionsAfter(s: Server, a: Step): (r: map<nat, nat>) {
    if a.op.Insert? then s.connections[HeldId(s, a.task) := a.task]
    else if a.op.Remove? then s.connections - {HeldId(s, a.task)}
    else s.connections
  }

  function CountAfter(count: int, op: Op): (r: int) {
    if op.Increment? then count + 1 else if op.Decrement? then count - 1 else count
  }

  /** The event a step emits, if any. */
  function Told(op: Op): (r: Option<Kind>) {
    match op
    case EmitConnected => Some(Connected)
    case EmitData => Some(Data)
    case EmitError => Some(Error)
    case EmitDisconnected => Some(Disconnected)
    case _ => None
  }

  function LogAfter(s: Server, a: Step): (r: seq<Entry>) {
    if Told(a.op).Some? then s.log + [Entry(a.task, HeldId(s, a.task), Told(a.op).value)] else s.log
  }

  function Greater(a: nat, b: nat): (r: nat) { if a > b then a else b }

  function Next(s: Server, a: Step): (r: Server)
    requires Enabled(s, a)
  {
    var tasks := s.tasks[a.task := PhaseAfter(s, a)];
    Server(s.maxConnections, tasks, ConnectionsAfter(s, a), CountAfter(s.count, a.op),
           if a.op.FetchId? then s.ticks + 1 else s.ticks, LogAfter(s, a),
           if a.op.Arrive? then Greater(s.peak, |InFlight(tasks)|) else s.peak)
  }

  /** The state after a run from the start, if each of its steps was enabled. */
  ghost function Exec(maxConnections: nat, steps: seq<Step>): (r: Option<Server>) {
    if steps == [] then Some(Initial(maxConnections))
    else
      match Exec(maxConnections, steps[..|steps| - 1])
      case None => None
      case Some(s) => if Enabled(s, steps[|steps| - 1]) then Some(Next(s, steps[|steps| - 1])) else None
  }

  // -------------------------------------------------------------------------
  // Invariant
  // -------------------------------------------------------------------------

  predicate IsCounted(p: Phase) { p.Held? && p.stage in {Counted, Inserted, Running, Closing, Removed} }

  predicate IsRegistered(p: Phase) { p.Held? && p.stage in {Inserted, Running, Closing} }

  /** Admitted, but not counted yet. */
  predicate IsInFlight(p: Phase) { p.Handshaking? || p.Probing? || (p.Held? && p.stage in {Checking, Chosen}) }

  function InFlight(tasks: map<nat, Phase>): (r: set<nat>) { set t | t in tasks && IsInFlight(tasks[t]) }

  function CountedTasks(tasks: map<nat, Phase>): (r: set<nat>) { set t | t in tasks && IsCounted(tasks[t]) }

  /** Ids in use are less than a lap old and belong to one task each. */
  ghost predicate IdsOk(s: Server) {
    && (forall t :: t in s.tasks && s.tasks[t].Held? ==> s.tasks[t].tick < s.ticks)
    && (forall t, u :: t in s.tasks && u in s.tasks && t != u && s.tasks[t].Held? && s.tasks[u].Held? ==>
          IdOf(s.tasks[t].tick) != IdOf(s.tasks[u].tick))
  }

  /** The map holds exactly the sessions between their insert and their remove. */
  ghost predicate MapOk(s: Server) {
    && (forall id :: id in s.connections ==>
          var t := s.connections[id];
          t in s.tasks && IsRegistered(s.tasks[t]) && IdOf(s.tasks[t].tick) == id)
    && (forall t :: t in s.tasks && IsRegistered(s.tasks[t]) ==>
          IdOf(s.tasks[t].tick) in s.connections && s.connections[IdOf(s.tasks[t].tick)] == t)
  }

  ghost predicate CountOk(s: Server) {
    && s.count == |CountedTasks(s.tasks)|
    && (s.maxConnections > 0 ==> s.count + |InFlight(s.tasks)| <= s.maxConnections - 1 + s.peak)
    && |InFlight(s.tasks)| <= s.peak
  }

  function One(b: bool): (r: nat) { if b then 1 else 0 }

  /** Two sets that agree on everything but `t` differ in size by at most one. */
  lemma SizeMoved(before: set<nat>, after: set<nat>, t: nat)
    requires forall u :: u != t ==> (u in before <==> u in after)
    ensures |after| == |before| + One(t in after) - One(t in before)
  {
    assert after == if t in after then before + {t} else before - {t};
  }

  lemma InFlightMoved(tasks: map<nat, Phase>, t: nat, p: Phase)
    ensures |InFlight(tasks[t := p])| ==
            |InFlight(tasks)| + One(IsInFlight(p)) - One(t in tasks && IsInFlight(tasks[t]))
  {
    SizeMoved(InFlight(tasks), InFlight(tasks[t := p]), t);
  }

  lemma CountedMoved(tasks: map<nat, Phase>, t: nat, p: Phase)
    ensures |CountedTasks(tasks[t := p])| ==
            |CountedTasks(tasks)| + One(IsCounted(p)) - One(t in tasks && IsCounted(tasks[t]))
  {
    SizeMoved(CountedTasks(tasks), CountedTasks(tasks[t := p]), t);
  }

  /** How a step moves its task in and out of the two head counts. */
  lemma PhaseMoves(s: Server, a: Step)
    requires Enabled(s, a)
    ensures var p, before := PhaseAfter(s, a), a.task in s.tasks;
            && (IsInFlight(p) && !a.op.Arrive? ==> before && IsInFlight(s.tasks[a.task]))
            && (a.op.Increment? ==> before && IsInFlight(s.tasks[a.task]) && !IsInFlight(p))
            && One(IsCounted(p)) == One(before && IsCounted(s.tasks[a.task])) +
                                    One(a.op.Increment?) - One(a.op.Decrement?)
            && (a.op.Arrive? ==> !before && !IsCounted(p) && (IsInFlight(p) ==> !Full(s)))
  {
  }

  lemma CountStep(s: Server, a: Step)
    requires CountOk(s) && Enabled(s, a)
    ensures CountOk(Next(s, a))
  {
    PhaseMoves(s, a);
    InFlightMoved(s.tasks, a.task, PhaseAfter(s, a));
    CountedMoved(s.tasks, a.task, PhaseAfter(s, a));
  }

  lemma FetchedIdIsFresh(s: Server, t: nat)
    requires IdsOk(s) && NoLap(s) && t in s.tasks && s.tasks[t].Held?
    ensures IdOf(s.tasks[t].tick) != IdOf(s.ticks)
  {
    ProbesDiffer(1, s.tasks[t].tick, s.ticks - s.tasks[t].tick);
  }

  lemma IdsStep(s: Server, a: Step)
    requires IdsOk(s) && Enabled(s, a)
    ensures IdsOk(Next(s, a))
  {
    if a.op.FetchId? {
      forall t | t in s.tasks && s.tasks[t].Held?
        ensures IdOf(s.tasks[t].tick) != IdOf(s.ticks)
      {
        FetchedIdIsFresh(s, t);
      }
    }
  }

  lemma InsertKeepsMap(s: Server, t: nat)
    requires IdsOk(s) && MapOk(s) && Enabled(s, Step(t, Insert))
    ensures MapOk(Next(s, Step(t, Insert)))
  {
  }

  lemma RemoveKeepsMap(s: Server, t: nat)
    requires IdsOk(s) && MapOk(s) && Enabled(s, Step(t, Remove))
    ensures MapOk(Next(s, Step(t, Remove)))
  {
  }

  lemma MapIgnores(s: Server, s': Server, t: nat, p: Phase)
    requires MapOk(s) && s'.connections == s.connections && s'.tasks == s.tasks[t := p]
    requires if t in s.tasks && IsRegistered(s.tasks[t]) then IsRegistered(p) && p.tick == s.tasks[t].tick
             else !IsRegistered(p)
    ensures MapOk(s')
  {
  }

  lemma PhaseKeepsRegistration(s: Server, a: Step)
    requires Enabled(s, a) && !a.op.Insert? && !a.op.Remove?
    ensures var p := PhaseAfter(s, a);
            if a.task in s.tasks && IsRegistered(s.tasks[a.task]) then IsRegistered(p) && p.tick == s.tasks[a.task].tick
            else !IsRegistered(p)
  {
  }

  lemma MapStep(s: Server, a: Step)
    requires IdsOk(s) && MapOk(s) && Enabled(s, a)
    ensures MapOk(Next(s, a))
  {
    if a.op.Insert? {
      InsertKeepsMap(s, a.task);
    } else if a.op.Remove? {
      RemoveKeepsMap(s, a.task);
    } else {
      PhaseKeepsRegistration(s, a);
      MapIgnores(s, Next(s, a), a.task, PhaseAfter(s, a));
    }
  }
}
