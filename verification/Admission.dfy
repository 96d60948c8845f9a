/** How far past its maximum the server can be filled. The capacity check reads
    the counter long before the handshake it admits is counted, so sessions
    admitted together are counted together. */
module Admission {
  import opened Options
  import opened IdAllocator
  import opened Registry
  import opened RegistryRuns

  /** A set of states that no step leaves. */
  ghost predicate Closed(states: iset<Server>) {
    forall s, a :: s in states && Enabled(s, a) ==> Next(s, a) in states
  }

  /** Tasks `0..n` are counted sessions, tasks `n..total` are shaking hands. */
  function LobbyTasks(n: nat, total: nat): (r: map<nat, Phase>) {
    map t: nat | t < total :: if t < n then Held(Counted, t) else Handshaking
  }

  function Lobby(max: nat, n: nat, total: nat, peak: nat): (r: Server) {
    Server(max, LobbyTasks(n, total), map[], n, n, [], peak)
  }

  lemma {:induction false} LobbyInFlight(n: nat, total: nat)
    requires n <= total
    ensures |InFlight(LobbyTasks(n, total))| == total - n
    decreases total
  {
    if n == total {
      assert InFlight(LobbyTasks(n, total)) == {};
    } else {
      LobbyInFlight(n, total - 1);
      assert LobbyTasks(n, total) == LobbyTasks(n, total - 1)[total - 1 := Handshaking];
      InFlightMoved(LobbyTasks(n, total - 1), total - 1, Handshaking);
    }
  }

  lemma Follow(states: iset<Server>, s: Server, a: Step)
    requires Closed(states) && s in states && Enabled(s, a)
    ensures Next(s, a) in states
  {
  }

  lemma ArrivalInLobby(max: nat, n: nat, total: nat, peak: nat)
    requires n < max && n <= total
    ensures var s, a := Lobby(max, n, total, peak), Step(total, Arrive);
            Enabled(s, a) && Next(s, a) == Lobby(max, n, total + 1, Greater(peak, total + 1 - n))
  {
    LobbyInFlight(n, total + 1);
    assert LobbyTasks(n, total)[total := Handshaking] == LobbyTasks(n, total + 1);
  }

  /** One more session is let in, for the maximum is not reached yet. */
  lemma Arrives(states: iset<Server>, max: nat, n: nat, total: nat, peak: nat)
    requires Closed(states) && n < max && n <= total && Lobby(max, n, total, peak) in states
    ensures Lobby(max, n, total + 1, Greater(peak, total + 1 - n)) in states
  {
    ArrivalInLobby(max, n, total, peak);
    Follow(states, Lobby(max, n, total, peak), Step(total, Arrive));
  }

  function Completed(s: Server, t: nat): (r: Server)
    requires t in s.tasks && s.tasks[t].Handshaking? && NoLap(s) && IdOf(s.ticks) !in s.connections
  {
    Next(Next(Next(Next(s, Step(t, HandshakeDone)), Step(t, FetchId)), Step(t, CheckId)), Step(t, Increment))
  }

  lemma CompletionInLobby(max: nat, n: nat, total: nat, peak: nat)
    requires n < MAX_ID && n < total
    ensures NoLap(Lobby(max, n, total, peak)) &&
                Completed(Lobby(max, n, total, peak), n) == Lobby(max, n + 1, total, peak)
  {
    assert LobbyTasks(n, total)[n := Probing][n := Held(Checking, n)][n := Held(Chosen, n)][n := Held(Counted, n)] ==
           LobbyTasks(n + 1, total);
  }

  /** The session next in line completes its handshake and is counted. */
  lemma Completes(states: iset<Server>, max: nat, n: nat, total: nat, peak: nat)
    requires Closed(states) && n < MAX_ID && n < total && Lobby(max, n, total, peak) in states
    ensures Lobby(max, n + 1, total, peak) in states
  {
    CompletionInLobby(max, n, total, peak);
    FollowFour(states, Lobby(max, n, total, peak), n);
  }

  lemma FollowFour(states: iset<Server>, s: Server, t: nat)
    requires Closed(states) && s in states
    requires t in s.tasks && s.tasks[t].Handshaking? && NoLap(s) && IdOf(s.ticks) !in s.connections
    ensures Completed(s, t) in states
  {
    var s1 := Next(s, Step(t, HandshakeDone));
    Follow(states, s, Step(t, HandshakeDone));
    var s2 := Next(s1, Step(t, FetchId));
    Follow(states, s1, Step(t, FetchId));
    Follow(states, s2, Step(t, CheckId));
    Follow(states, Next(s2, Step(t, CheckId)), Step(t, Increment));
  }

  /** `n` sessions come one at a time. */
  lemma {:induction false} OneByOne(states: iset<Server>, max: nat, n: nat)
    requires Closed(states) && Initial(max) in states && n < max && n < MAX_ID
    ensures Lobby(max, n, n, if n > 0 then 1 else 0) in states
    decreases n
  {
    if n == 0 {
      assert Lobby(max, 0, 0, 0) == Initial(max);
    } else {
      OneByOne(states, max, n - 1);
      Arrives(states, max, n - 1, n - 1, if n > 1 then 1 else 0);
      Completes(states, max, n - 1, n, 1);
    }
  }

  /** Then more come, up to `total`, before any of them is counted. */
  lemma {:induction false} ThenTogether(states: iset<Server>, max: nat, n: nat, total: nat)
    requires Closed(states) && Initial(max) in states && n < total && n < max && n < MAX_ID
    ensures Lobby(max, n, total, total - n) in states
    decreases total
  {
    if total == n + 1 {
      OneByOne(states, max, n);
      Arrives(states, max, n, n, if n > 0 then 1 else 0);
    } else {
      ThenTogether(states, max, n, total - 1);
      Arrives(states, max, n, total - 1, total - 1 - n);
    }
  }

  lemma {:induction false} AllComplete(states: iset<Server>, max: nat, n: nat, total: nat, peak: nat)
    requires Closed(states) && n <= total <= MAX_ID && Lobby(max, n, total, peak) in states
    ensures Lobby(max, total, total, peak) in states
    decreases total - n
  {
    if n < total {
      Completes(states, max, n, total, peak);
      AllComplete(states, max, n + 1, total, peak);
    }
  }

  ghost predicate Reachable(max: nat, s: Server) { exists steps :: Exec(max, steps) == Some(s) }

  ghost function ReachableStates(max: nat): (r: iset<Server>) { iset s | Reachable(max, s) }

  lemma ReachableIsClosed(max: nat)
    ensures Closed(ReachableStates(max)) && Initial(max) in ReachableStates(max)
  {
    forall s, a | Reachable(max, s) && Enabled(s, a)
      ensures Reachable(max, Next(s, a))
    {
      var steps :| Exec(max, steps) == Some(s);
      assert (steps + [a])[..|steps|] == steps;
      assert Exec(max, steps + [a]) == Some(Next(s, a));
    }
    assert Exec(max, []) == Some(Initial(max));
  }

  /** `peak` handshakes admitted at the last free place all get in. */
  lemma OverfullIsReachable(max: nat, peak: nat)
    requires max > 0 && peak > 0 && max - 1 + peak <= MAX_ID
    ensures Reachable(max, Lobby(max, max - 1 + peak, max - 1 + peak, peak))
  {
    var states := ReachableStates(max);
    ReachableIsClosed(max);
    ThenTogether(states, max, max - 1, max - 1 + peak);
    AllComplete(states, max, max - 1, max - 1 + peak, peak);
  }

  lemma Overfills(max: nat, peak: nat) returns (steps: seq<Step>)
    requires max > 0 && peak > 0 && max - 1 + peak <= MAX_ID
    ensures Exec(max, steps).Some?
    ensures Exec(max, steps).value.peak == peak && Exec(max, steps).value.count == max - 1 + peak
  {
    OverfullIsReachable(max, peak);
    steps :| Exec(max, steps) == Some(Lobby(max, max - 1 + peak, max - 1 + peak, peak));
  }

  /** Every run that never has more than `peak` admitted handshakes under way. */
  ghost predicate StaysWithin(max: nat, peak: nat, bound: nat) {
    forall steps :: Exec(max, steps).Some? && Exec(max, steps).value.peak <= peak ==>
      Exec(max, steps).value.count <= bound
  }

  /** The bound `maximum - 1 + peak` on the sessions counted is exact. */
  lemma AdmissionBoundExactly(max: nat, peak: nat, bound: nat)
    requires max > 0 && peak > 0 && max - 1 + peak <= MAX_ID
    ensures StaysWithin(max, peak, bound) <==> bound >= max - 1 + peak
  {
    if bound >= max - 1 + peak {
      forall steps | Exec(max, steps).Some? && Exec(max, steps).value.peak <= peak
        ensures Exec(max, steps).value.count <= bound
      {
        RegistryInvariant(max, steps);
      }
    } else {
      var steps := Overfills(max, peak);
    }
  }

  /** So the maximum holds exactly when handshakes come one at a time. */
  lemma MaximumHoldsExactly(max: nat, peak: nat)
    requires max > 0 && peak > 0 && max - 1 + peak <= MAX_ID
    ensures StaysWithin(max, peak, max) <==> peak == 1
  {
    AdmissionBoundExactly(max, peak, max);
  }
}
