/** The C# client of the editor and of standalone players: two flags, and one
    polling loop over the events of the library's client slot. */
module NativeClient {
  import opened Framing
  import opened Options
  import opened BrowserSession
  import opened ClientSession
  import opened NativeSession
  import opened Interop
  import Spec = NativeBackend

  class NativeLibrary {
    var slot: Option<Instance>
    var epoch: nat

    ghost function View(): (r: Spec.Library)
      reads this
    {
      Spec.Library(slot, epoch)
    }

    constructor ()
      ensures View() == Spec.Library(None, 0)
    {
      slot, epoch := None, 0;
    }

    method Connect(creation: Spec.Creation) returns (ok: bool)
      modifies this
      ensures (View(), ok) == Spec.Replace(old(View()), creation)
    {
      if creation.NoUrl? {
        return false;
      }
      slot := None;
      if creation.NoRuntime? {
        return false;
      }
      epoch := epoch + 1;
      slot := Some(Started(epoch));
      return true;
    }

    method Disconnect()
      modifies this
      ensures View() == Spec.AskToDisconnect(old(View()))
    {
      if slot.None? {
        return;
      }
      slot := Some(NativeSession.Next(slot.value, DisconnectLooks));
      if slot.value.control.looked {
        slot := Some(NativeSession.Next(slot.value, DisconnectCancels));
      }
    }

    method Poll(capacity: nat, complaint: seq<byte>) returns (polled: Option<Event>)
      modifies this
      ensures (View(), polled) == Spec.PollSlot(old(View()), capacity, complaint)
    {
      if slot.None? || slot.value.out.events == [] {
        return None;
      }
      var i := slot.value;
      slot := Some(i.(out := i.out.(events := i.out.events[1..])));
      return Some(Shown(i.out.events[0], Some(capacity), complaint));
    }

    method Stop()
      modifies this
      ensures View() == old(View()).(slot := None)
    {
      slot := None;
    }
  }

  class WTNativeClient {
    const library: NativeLibrary
    const capacity: nat          // length of the receive buffer
    const maxEventsPerTick: nat
    var connecting: bool
    var connected: bool
    ghost var log: seq<Call>

    ghost function View(): (r: Client)
      reads this
    {
      Client(connecting, connected, false, log)
    }

    constructor (library: NativeLibrary, capacity: nat, maxEventsPerTick: nat)
      ensures this.library == library && this.capacity == capacity && this.maxEventsPerTick == maxEventsPerTick
      ensures View() == Client(false, false, false, [])
    {
      this.library := library;
      this.capacity := capacity;
      this.maxEventsPerTick := maxEventsPerTick;
      connecting, connected, log := false, false, [];
    }

    method Connect(available: bool, creation: Spec.Creation)
      modifies this, library
      ensures (View(), library.View()) == Spec.Connect(old(View()), old(library.View()), available, creation)
    {
      if connecting || connected {
        return;
      }
      var ok := false;
      if available {
        ok := library.Connect(creation);
      }
      log := log + [Attempted(library.epoch)];
      if !ok {
        log := log + [OnError(library.epoch)];
        log := log + [OnDisconnected(library.epoch)];
        return;
      }
      connecting := true;
    }

    method Disconnect()
      modifies library
      ensures library.View() == if View().Off() then old(library.View()) else Spec.AskToDisconnect(old(library.View()))
    {
      if !connecting && !connected {
        return;
      }
      library.Disconnect();
    }

    method Dispatch(e: Event)
      modifies this
      ensures View() == ClientSession.Dispatch(old(View()), e)
    {
      match e.kind
      case Connected =>
        connecting := false;
        connected := true;
        log := log + [OnConnected(e.origin)];
      case Data =>
        if connected {
          log := log + [OnData(e.channel, e.data, e.origin)];
        }
      case Disconnected =>
        if connecting || connected {
          connecting := false;
          connected := false;
          log := log + [OnDisconnected(e.origin)];
        }
      case Error =>
        log := log + [OnError(e.origin)];
    }

    /** Drains what is queued, up to the limit. */
    method Tick(complaint: seq<byte>)
      modifies this, library
      ensures (View(), library.View()) ==
              Spec.Tick(old(View()), old(library.View()), maxEventsPerTick, capacity, complaint)
    {
      ghost var goal := Spec.Tick(View(), library.View(), maxEventsPerTick, capacity, complaint);
      if !connecting && !connected {
        return;
      }
      var processed := 0;
      while processed < maxEventsPerTick
        invariant processed <= maxEventsPerTick
        invariant Spec.Tick(View(), library.View(), maxEventsPerTick - processed, capacity, complaint) == goal
      {
        if !connecting && !connected {
          return;
        }
        var polled := library.Poll(capacity, complaint);
        if polled.None? {
          return;
        }
        Dispatch(polled.value);
        processed := processed + 1;
      }
    }

    method Shutdown()
      modifies this, library
      ensures (View(), library.View()) == Spec.Shutdown(old(View()), old(library.View()))
    {
      connecting := false;
      connected := false;
      log := log + [Stopped];
      library.Stop();
    }
  }
}
