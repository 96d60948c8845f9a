/** Whole runs on the plugin object itself: the calls and settlements of a run,
    carried out one after the other on its real buffer. */
module BrowserReplay {
  import opened Framing
  import opened JsNumbers
  import opened BrowserSession
  import opened BrowserRuns
  import opened BrowserPlugin

  /** The longest chunk any read of the run brings. */
  function LongestChunk(actions: seq<Action>): (n: nat)
    ensures forall a :: a in actions && a.Settles? && a.outcome.Chunk? ==> |a.outcome.bytes| <= n
  {
    if actions == [] then 0
    else
      var n, a := LongestChunk(actions[1..]), actions[0];
      if a.Settles? && a.outcome.Chunk? && |a.outcome.bytes| > n then |a.outcome.bytes| else n
  }

  /** Carries out one action; `pending` and `next` stand for the browser's
      bookkeeping of promises. */
  method Act(plugin: MirrorWTransport, pending: map<nat, Callback>, next: nat, a: Action)
    returns (pending': map<nat, Callback>, next': nat)
    requires plugin.Valid() && Inv(World(plugin.View(), pending, next))
    requires a.CallSend? ==> |a.payload| < TWO31
    modifies plugin, plugin.buffer
    ensures plugin.Valid() && (plugin.buffer == old(plugin.buffer) || fresh(plugin.buffer))
    ensures plugin.largestChunk == old(plugin.largestChunk) || plugin.largestChunk == 0 ||
            (a.Settles? && a.outcome.Chunk? && plugin.largestChunk == |a.outcome.bytes|)
    ensures World(plugin.View(), pending', next') == Step(World(old(plugin.View()), pending, next), a)
  {
    var started := [];
    pending', next' := pending, next;
    match a {
      case CallConnect(url, attempt, maxReliable, maxUnreliable, why) =>
        started := plugin.Connect(url, attempt, maxReliable, maxUnreliable, why);
      case CallDisconnect(why) => plugin.LocalDisconnect(why);
      case CallSend(channel, payload, reliable, why) =>
        var accepted;
        started, accepted := plugin.Send(channel, payload, reliable, why);
      case CallPoll(capacity, why) =>
        var polled := plugin.Poll(capacity, why);
      case Settles(h, outcome, why) =>
        if h in pending {
          pending' := pending - {h};
          started := plugin.Settle(pending[h], outcome, why);
        }
    }
    pending', next' := Register(pending', next, started), next + |started|;
  }

  /** Over every run the object is what the run makes of the session value; and its
      buffer never has more than 16384 bytes, unless it has less than twice what one
      unfinished frame and the longest chunk take. */
  method Replay(supported: bool, actions: seq<Action>)
    returns (plugin: MirrorWTransport, pending: map<nat, Callback>, next: nat)
    requires forall a :: a in actions && a.CallSend? ==> |a.payload| < TWO31
    ensures plugin.Valid() && World(plugin.View(), pending, next) == Run(Initial(supported), actions)
    ensures plugin.buffer.Length <= INITIAL_CAPACITY ||
            plugin.buffer.Length < 2 * (plugin.maxReliable + 4 + LongestChunk(actions))
  {
    plugin := new MirrorWTransport(supported);
    pending, next := map[], 0;
    InitialInv(supported);
    var i := 0;
    while i < |actions|
      invariant 0 <= i <= |actions| && fresh(plugin) && fresh(plugin.buffer) && plugin.Valid()
      invariant plugin.largestChunk <= LongestChunk(actions)
      invariant Inv(World(plugin.View(), pending, next))
      invariant Run(World(plugin.View(), pending, next), actions[i..]) == Run(Initial(supported), actions)
    {
      StepKeepsInv(World(plugin.View(), pending, next), actions[i]);
      assert actions[i..][0] == actions[i] && actions[i..][1..] == actions[i + 1..];
      pending, next := Act(plugin, pending, next, actions[i]);
      i := i + 1;
    }
  }
}
