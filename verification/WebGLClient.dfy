/** The C# client of a WebGL build: two flags, and one polling loop that turns
    the plugin's events into Mirror callbacks. */
module WebGLClient {
  import opened Framing
  import opened BrowserSession
  import opened ClientSession
  import BrowserPlugin

  class WTWebGLClient {
    const plugin: BrowserPlugin.MirrorWTransport
    const capacity: nat          // length of the receive buffer
    const maxEventsPerTick: nat
    var connecting: bool
    var connected: bool
    ghost var lost: bool
    ghost var log: seq<Call>

    ghost predicate Valid()
      reads this, plugin
    {
      plugin.Valid()
    }

    ghost function View(): (r: Client)
      reads this
    {
      Client(connecting, connected, lost, log)
    }

    constructor (plugin: BrowserPlugin.MirrorWTransport, capacity: nat, maxEventsPerTick: nat, ghost heard: seq<Call>)
      requires plugin.Valid()
      ensures this.plugin == plugin && this.capacity == capacity && this.maxEventsPerTick == maxEventsPerTick
      ensures Valid() && View() == Client(false, false, false, heard)
    {
      this.plugin := plugin;
      this.capacity := capacity;
      this.maxEventsPerTick := maxEventsPerTick;
      connecting, connected, lost, log := false, false, false, heard;
    }

    method Connect(url: seq<byte>, attempt: Attempt, maxReliable: nat, maxUnreliable: nat, why: seq<byte>)
      returns (started: seq<Callback>)
      requires Valid()
      modifies this, plugin
      ensures Valid()
      ensures (View(), Effect(plugin.View(), started)) ==
              ClientSession.Connect(old(View()), old(plugin.View()), url, attempt, maxReliable, maxUnreliable, why)
    {
      started := [];
      if connecting || connected {
        return;
      }
      if !plugin.supported {
        log := log + [Attempted(plugin.epoch)] + [OnError(plugin.epoch)] + [OnDisconnected(plugin.epoch)];
        return;
      }
      connecting := true;
      lost := false;
      started := plugin.Connect(url, attempt, maxReliable, maxUnreliable, why);
      log := log + [Attempted(plugin.epoch)];
    }

    method Disconnect(why: seq<byte>)
      requires Valid()
      modifies plugin
      ensures Valid()
      ensures plugin.View() == ClientSession.Disconnect(View(), old(plugin.View()), why)
    {
      if !connecting && !connected {
        return;
      }
      plugin.LocalDisconnect(why);
    }

    method Dispatch(e: Event)
      modifies this
      ensures View() == ClientSession.Dispatch(old(View()), e)
    {
      match e.kind
      case Connected =>
        connecting := false;
        connected := true;
        log := log + [OnConnected(e.origin)];
      case Data =>
        if connected {
          log := log + [OnData(e.channel, e.data, e.origin)];
        }
      case Disconnected =>
        if connecting || connected {
          connecting := false;
          connected := false;
          log := log + [OnDisconnected(e.origin)];
        }
      case Error =>
        log := log + [OnError(e.origin)];
    }

    method Tick(why: seq<byte>)
      requires Valid()
      modifies this, plugin
      ensures Valid()
      ensures (View(), plugin.View()) ==
              ClientSession.Tick(old(View()), old(plugin.View()), maxEventsPerTick, capacity, why)
    {
      if !connecting && !connected {
        return;
      }
      ghost var goal := ClientSession.Tick(View(), plugin.View(), maxEventsPerTick, capacity, why);
      var processed := 0;
      while processed < maxEventsPerTick
        invariant processed <= maxEventsPerTick && Valid()
        invariant ClientSession.Tick(View(), plugin.View(), maxEventsPerTick - processed, capacity, why) == goal
      {
        if !connecting && !connected {
          return;
        }
        var more := PollOnce(why);
        if !more {
          return;
        }
        processed := processed + 1;
      }
    }

    /** Polls one event and dispatches it. */
    method PollOnce(why: seq<byte>) returns (more: bool)
      requires Valid() && (connecting || connected)
      modifies this, plugin
      ensures Valid() && more == (old(plugin.events) != [])
      ensures (View(), plugin.View()) == ClientSession.TickOnce(old(View()), old(plugin.View()), capacity, why)
    {
      ghost var head := plugin.events;
      var polled := plugin.Poll(capacity, why);
      if polled.None? {
        return false;
      }
      lost := if IsControl(head[0].kind) then |head[0].data| > capacity else lost;
      Dispatch(polled.value);
      return true;
    }

    method Shutdown(why: seq<byte>)
      requires Valid()
      modifies this, plugin
      ensures Valid()
      ensures (View(), plugin.View()) == ClientSession.Shutdown(old(View()), old(plugin.View()), why)
    {
      if connecting || connected {
        plugin.LocalDisconnect(why);
      }
      connecting := false;
      connected := false;
      lost := false;
      log := log + [Stopped];
    }
  }

  /** The transport component as far as its client goes. */
  class TransportClient {
    const plugin: BrowserPlugin.MirrorWTransport
    var client: WTWebGLClient?
    var capacity: nat
    var maxEventsPerTick: nat

    ghost predicate Valid()
      reads this, client, plugin
    {
      plugin.Valid() && (client != null ==> client.plugin == plugin && (client.View().Off() ==> !client.lost))
    }

    /** A client that does not exist yet is one that is off. */
    ghost function View(): (r: Client)
      reads this, client
    {
      if client == null then Client(false, false, false, []) else client.View()
    }

    constructor (plugin: BrowserPlugin.MirrorWTransport, capacity: nat, maxEventsPerTick: nat)
      requires plugin.Valid()
      ensures Valid() && this.plugin == plugin && client == null
    {
      this.plugin := plugin;
      client := null;
      this.capacity, this.maxEventsPerTick := capacity, maxEventsPerTick;
    }

    /** Makes a new client, with the current settings, exactly when there is none
        or the old one is off; either way it comes to the same as connecting the
        old one. */
    method ConnectTo(url: seq<byte>, attempt: Attempt, maxReliable: nat, maxUnreliable: nat, why: seq<byte>)
      returns (started: seq<Callback>)
      requires Valid()
      modifies this`client, client, plugin
      ensures client != null && client.plugin == plugin && client.Valid()
      ensures if old(View()).Off() then
                fresh(client) && client.capacity == capacity && client.maxEventsPerTick == maxEventsPerTick
              else client == old(client)
      ensures (View(), Effect(plugin.View(), started)) ==
              ClientSession.Connect(old(View()), old(plugin.View()), url, attempt, maxReliable, maxUnreliable, why)
    {
      if client != null && client.connected {
        return [];
      }
      if client == null || !client.connecting {
        client := new WTWebGLClient(plugin, capacity, maxEventsPerTick, View().log);
      }
      started := client.Connect(url, attempt, maxReliable, maxUnreliable, why);
    }
  }
}
