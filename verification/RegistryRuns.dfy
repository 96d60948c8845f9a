/** What holds over every run of the server's registry, for any interleaving of
    its sessions: the books balance, each id tells a proper story, and how far
    past its maximum the server can be filled. */
module RegistryRuns {
  import opened Grammar
  import opened Registry

  // -------------------------------------------------------------------------
  // The books
  // -------------------------------------------------------------------------

  lemma {:induction false} InjectionSize(m: map<nat, nat>, range: set<nat>)
    requires forall k :: k in m ==> m[k] in range
    requires forall j, k :: j in m && k in m && m[j] == m[k] ==> j == k
    ensures |m| <= |range|
    decreases |m|
  {
    if m.Keys != {} {
      var k :| k in m.Keys;
      var rest := m - {k};
      assert rest.Keys == m.Keys - {k};
      InjectionSize(rest, range - {m[k]});
    }
  }

  /** At every moment of every run the counter is the number of sessions between
      their increment and their decrement, the map holds exactly the sessions
      between their insert and their remove, and never more than are counted. */
  lemma {:induction false} RegistryInvariant(maxConnections: nat, steps: seq<Step>)
    requires Exec(maxConnections, steps).Some?
    ensures
      var s := Exec(maxConnections, steps).value;
      s.maxConnections == maxConnections && CountOk(s) && IdsOk(s) && MapOk(s) && |s.connections| <= s.count
    decreases |steps|
  {
    var s := Exec(maxConnections, steps).value;
    if steps == [] {
      assert InFlight(s.tasks) == {} && CountedTasks(s.tasks) == {};
    } else {
      var init, a := steps[..|steps| - 1], steps[|steps| - 1];
      RegistryInvariant(maxConnections, init);
      var before := Exec(maxConnections, init).value;
      CountStep(before, a);
      IdsStep(before, a);
      MapStep(before, a);
    }
    InjectionSize(s.connections, CountedTasks(s.tasks));
  }

  // -------------------------------------------------------------------------
  // What Mirror is told
  // -------------------------------------------------------------------------

  /** The events of one session, in order. */
  function TaskWord(log: seq<Entry>, t: nat): (r: seq<Kind>) {
    if log == [] then []
    else
      var last := log[|log| - 1];
      TaskWord(log[..|log| - 1], t) + if last.task == t then [last.kind] else []
  }

  /** The events Mirror sees under one connection id, over any number of sessions. */
  function IdWord(log: seq<Entry>, id: nat): (r: seq<Kind>) {
    if log == [] then []
    else
      var last := log[|log| - 1];
      IdWord(log[..|log| - 1], id) + if last.id == id then [last.kind] else []
  }

  predicate MayFollow(before: Kind, after: Kind) {
    match before
    case Connected => !after.Connected?
    case Data => !after.Connected?
    case Error => after.Disconnected?
    case Disconnected => after.Connected?
  }

  /** Sessions one after the other: each `Connected Data* Error? Disconnected`,
      the last one possibly unfinished. */
  ghost predicate Episodes(w: seq<Kind>) {
    && (w != [] ==> w[0] == Connected)
    && (forall i :: 0 < i < |w| ==> MayFollow(w[i - 1], w[i]))
  }

  /** A session that has said Connected and not yet Disconnected. */
  predicate Speaking(p: Registry.Phase) {
    p.Held? && (p.stage.Running? || p.stage.Closing? || p.stage.Removed? || p.stage.Released?)
  }

  /** Whether a speaking session's last event can have been of this kind. */
  predicate MayHaveSaid(p: Registry.Phase, k: Kind) {
    Speaking(p) && !k.Disconnected? && (k.Error? ==> !p.stage.Running?)
  }

  ghost predicate TaskStory(w: seq<Kind>, p: Registry.Phase) {
    && SessionPrefix(w)
    && (w != [] ==> w[0] == Connected)
    && (if Speaking(p) then w != [] && MayHaveSaid(p, w[|w| - 1])
        else w == [] || (p.Finished? && w[|w| - 1] == Disconnected))
  }

  predicate Speaks(s: Server, t: nat, id: nat) {
    t in s.tasks && Speaking(s.tasks[t]) && IdOf(s.tasks[t].tick) == id
  }

  ghost predicate IdTold(s: Server, id: nat) {
    var w := IdWord(s.log, id);
    && Episodes(w)
    && (forall t :: Speaks(s, t, id) ==> w != [] && MayHaveSaid(s.tasks[t], w[|w| - 1]))
    && ((forall t :: !Speaks(s, t, id)) ==> w == [] || w[|w| - 1] == Disconnected)
  }

  lemma WordsAfter(log: seq<Entry>, e: Entry, t: nat, id: nat)
    ensures TaskWord(log + [e], t) == TaskWord(log, t) + if e.task == t then [e.kind] else []
    ensures IdWord(log + [e], id) == IdWord(log, id) + if e.id == id then [e.kind] else []
  {
    assert (log + [e])[..|log|] == log;
  }

  lemma PrefixGrows(w: seq<Kind>, k: Kind)
    requires SessionPrefix(w) && (w != [] ==> w[0] == Connected)
    requires if w == [] then k == Connected else MayFollow(w[|w| - 1], k) && w[|w| - 1] != Disconnected
    ensures SessionPrefix(w + [k]) && (w + [k])[0] == Connected
  {
  }

  lemma EpisodesGrow(w: seq<Kind>, k: Kind)
    requires Episodes(w) && (if w == [] then k == Connected else MayFollow(w[|w| - 1], k))
    ensures Episodes(w + [k])
  {
    var v := w + [k];
    forall i | 0 < i < |v|
      ensures MayFollow(v[i - 1], v[i])
    {
      if i < |w| {
        assert MayFollow(w[i - 1], w[i]);
      }
    }
  }

  function PhaseIn(s: Server, t: nat): (r: Registry.Phase) { if t in s.tasks then s.tasks[t] else Probing }

  /** A silent step keeps its task speaking, or not speaking. */
  lemma SilentStepSpeaks(s: Server, a: Step)
    requires Enabled(s, a) && Told(a.op).None?
    ensures
      var p, p' := PhaseIn(s, a.task), PhaseAfter(s, a);
      && Speaking(p) == Speaking(p') && (p.Finished? ==> p'.Finished?)
      && (Speaking(p) ==> p'.tick == p.tick && (p'.stage.Running? ==> p.stage.Running?))
  {
  }

  /** A telling step tells what may follow, and leaves its task speaking until
      it has said Disconnected. */
  lemma TellingStepSpeaks(s: Server, a: Step)
    requires Enabled(s, a) && Told(a.op).Some?
    ensures
      var p, p', k := s.tasks[a.task], PhaseAfter(s, a), Told(a.op).value;
      && p.Held? && (if k.Connected? then !Speaking(p) else Speaking(p) && (k.Disconnected? || p.stage.Running?))
      && (if k.Disconnected? then p' == Finished else MayHaveSaid(p', k) && p'.tick == p.tick)
  {
    assert s.tasks[a.task].stage == StageOf(a.op);
    match a.op
    case EmitConnected => assert PhaseAfter(s, a).stage == Running;
    case EmitData => assert PhaseAfter(s, a).stage == Running;
    case EmitError => assert PhaseAfter(s, a).stage == Closing;
    case EmitDisconnected =>
  }

  lemma TaskToldStep(s: Server, a: Step, t: nat)
    requires Enabled(s, a) && TaskStory(TaskWord(s.log, t), PhaseIn(s, t))
    ensures TaskStory(TaskWord(Next(s, a).log, t), PhaseIn(Next(s, a), t))
  {
    var w := TaskWord(s.log, t);
    if Told(a.op).Some? {
      TellingStepSpeaks(s, a);
      WordsAfter(s.log, Entry(a.task, HeldId(s, a.task), Told(a.op).value), t, 0);
      if a.task == t {
        PrefixGrows(w, Told(a.op).value);
      } else {
        assert w + [] == w;
      }
    } else {
      SilentStepSpeaks(s, a);
    }
  }

  lemma SilentStep(s: Server, a: Step, id: nat)
    requires Enabled(s, a) && IdTold(s, id) && Told(a.op).None?
    ensures IdTold(Next(s, a), id)
  {
    SilentStepSpeaks(s, a);
    forall t
      ensures Speaks(s, t, id) <==> Speaks(Next(s, a), t, id)
    {
    }
  }

  lemma OthersTellingStep(s: Server, a: Step, id: nat)
    requires Enabled(s, a) && IdTold(s, id) && Told(a.op).Some? && HeldId(s, a.task) != id
    ensures IdTold(Next(s, a), id)
  {
    TellingStepSpeaks(s, a);
    WordsAfter(s.log, Entry(a.task, HeldId(s, a.task), Told(a.op).value), 0, id);
    assert IdWord(s.log, id) + [] == IdWord(s.log, id);
    forall t
      ensures Speaks(s, t, id) <==> Speaks(Next(s, a), t, id)
    {
    }
  }

  /** What an id's word becomes when its one speaker speaks. */
  lemma Speak(s: Server, s': Server, t: nat, id: nat, k: Kind)
    requires IdTold(s, id) && s'.log == s.log + [Entry(t, id, k)]
    requires forall u :: u != t ==> !Speaks(s, u, id) && !Speaks(s', u, id)
    requires if k.Connected? then !Speaks(s, t, id)
             else Speaks(s, t, id) && (k.Disconnected? || s.tasks[t].stage.Running?)
    requires if k.Disconnected? then !Speaks(s', t, id) else Speaks(s', t, id) && MayHaveSaid(s'.tasks[t], k)
    ensures IdTold(s', id)
  {
    WordsAfter(s.log, Entry(t, id, k), t, id);
    EpisodesGrow(IdWord(s.log, id), k);
  }

  lemma TellingStep(s: Server, a: Step, id: nat)
    requires Enabled(s, a) && IdsOk(s) && IdTold(s, id) && Told(a.op).Some? && HeldId(s, a.task) == id
    ensures IdTold(Next(s, a), id)
  {
    TellingStepSpeaks(s, a);
    Speak(s, Next(s, a), a.task, id, Told(a.op).value);
  }

  /** Over any run, under any interleaving: the events of one session are a
      prefix of `Connected Data* Error? Disconnected`, and under one id Mirror
      sees such sessions strictly one after the other. */
  lemma {:induction false} ServerGrammar(maxConnections: nat, steps: seq<Step>, t: nat, id: nat)
    requires Exec(maxConnections, steps).Some?
    ensures
      var s := Exec(maxConnections, steps).value;
      TaskStory(TaskWord(s.log, t), PhaseIn(s, t)) && IdTold(s, id)
    decreases |steps|
  {
    if steps != [] {
      var init, a := steps[..|steps| - 1], steps[|steps| - 1];
      ServerGrammar(maxConnections, init, t, id);
      RegistryInvariant(maxConnections, init);
      var s := Exec(maxConnections, init).value;
      TaskToldStep(s, a, t);
      if Told(a.op).None? {
        SilentStep(s, a, id);
      } else if HeldId(s, a.task) != id {
        OthersTellingStep(s, a, id);
      } else {
        TellingStep(s, a, id);
      }
    }
  }
}
