/** The native backend as values: the library's one client slot, and what the C#
    client of the editor and of standalone players does with it. */
module NativeBackend {
  import opened Framing
  import opened Options
  import opened BrowserSession
  import opened ClientSession
  import opened NativeSession
  import opened Interop

  /** The slot holds the newest session; a replaced one can no longer be polled.
      `epoch` is bookkeeping, the number of sessions started. */
  datatype Library = Library(slot: Option<Instance>, epoch: nat)

  /** How `mwt_client_connect` goes: it is given no url, it cannot start a
      runtime once it has stopped the previous session, or it starts one. */
  datatype Creation = NoUrl | NoRuntime | Created

  function Replace(l: Library, creation: Creation): (r: (Library, bool)) {
    match creation
    case NoUrl => (l, false)
    case NoRuntime => (l.(slot := None), false)
    case Created => (Library(Some(Started(l.epoch + 1)), l.epoch + 1), true)
  }

  /** `mwt_client_disconnect`, if nothing comes between its two halves. */
  function AskToDisconnect(l: Library): (r: Library) {
    if l.slot.None? then l
    else
      var i := NativeSession.Next(l.slot.value, DisconnectLooks);
      l.(slot := Some(if i.control.looked then NativeSession.Next(i, DisconnectCancels) else i))
  }

  function PollSlot(l: Library, capacity: nat, complaint: seq<byte>): (r: (Library, Option<Event>)) {
    if l.slot.None? || l.slot.value.out.events == [] then (l, None)
    else
      var i := l.slot.value;
      (l.(slot := Some(i.(out := i.out.(events := i.out.events[1..])))),
       Some(Shown(i.out.events[0], Some(capacity), complaint)))
  }

  /** `Connect`, with whether the library could be loaded. */
  function Connect(c: Client, l: Library, available: bool, creation: Creation): (r: (Client, Library)) {
    if !c.Off() then (c, l)
    else
      var (l', ok) := if available then Replace(l, creation) else (l, false);
      var n := l'.epoch;
      if ok then (Client(true, false, false, c.log).Heard(Attempted(n)), l')
      else (c.Heard(Attempted(n)).Heard(OnError(n)).Heard(OnDisconnected(n)), l')
  }

  function TickOnce(c: Client, l: Library, capacity: nat, complaint: seq<byte>): (r: (Client, Library)) {
    if c.Off() then (c, l)
    else
      var (l', polled) := PollSlot(l, capacity, complaint);
      (if polled.Some? then Dispatch(c, polled.value) else c, l')
  }

  function Tick(c: Client, l: Library, rounds: nat, capacity: nat, complaint: seq<byte>): (r: (Client, Library))
    decreases rounds
  {
    if rounds == 0 || c.Off() || PollSlot(l, capacity, complaint).1.None? then (c, l)
    else
      var (c', l') := TickOnce(c, l, capacity, complaint);
      Tick(c', l', rounds - 1, capacity, complaint)
  }

  function Shutdown(c: Client, l: Library): (r: (Client, Library)) {
    (Client(false, false, false, c.log).Heard(Stopped), l.(slot := None))
  }
}
