/** The C# side of a client session as a value: two flags, and what Mirror has
    heard through them. */
module ClientSession {
  import opened Framing
  import opened Grammar
  import opened BrowserSession

  /** What Mirror hears, each call with the session it came from, and two marks
      it does not hear: a connection attempt, and a shutdown. */
  datatype Call =
    | Attempted(session: nat)
    | OnConnected(session: nat)
    | OnData(channel: int, payload: seq<byte>, session: nat)
    | OnDisconnected(session: nat)
    | OnError(session: nat)
    | Stopped

  /** `lost` is bookkeeping: the last Connected or Disconnected event polled was
      too long for the receive buffer and so was not seen as such. */
  datatype Client = Client(connecting: bool, connected: bool, lost: bool, log: seq<Call>)
  {
    predicate Off() { !connecting && !connected }

    function State(): (r: State) { if connected then Live else if connecting then Connecting else Idle }

    function Heard(c: Call): (r: Client) { this.(log := log + [c]) }
  }

  predicate IsControl(k: Kind) { k.Connected? || k.Disconnected? }

  function Dispatch(c: Client, e: Event): (r: Client) {
    match e.kind
    case Connected => c.(connecting := false, connected := true).Heard(OnConnected(e.origin))
    case Data => if !c.connected then c else c.Heard(OnData(e.channel, e.data, e.origin))
    case Disconnected =>
      if c.Off() then c else c.(connecting := false, connected := false).Heard(OnDisconnected(e.origin))
    case Error => c.Heard(OnError(e.origin))
  }

  /** One round of the `Tick` loop. */
  function TickOnce(c: Client, m: Session, capacity: nat, why: seq<byte>): (r: (Client, Session)) {
    if c.Off() || m.queue.events == [] then (c, m)
    else
      var (m1, polled) := Poll(m, capacity, why);
      var head := m.queue.events[0];
      var c1 := if IsControl(head.kind) then c.(lost := |head.data| > capacity) else c;
      (Dispatch(c1, polled.value), m1)
  }

  function Tick(c: Client, m: Session, rounds: nat, capacity: nat, why: seq<byte>): (r: (Client, Session))
    decreases rounds
  {
    if rounds == 0 || c.Off() || m.queue.events == [] then (c, m)
    else
      var (c1, m1) := TickOnce(c, m, capacity, why);
      Tick(c1, m1, rounds - 1, capacity, why)
  }

  /** `Connect` on a fresh or idle client; a busy one only warns. */
  function Connect(c: Client, m: Session, url: seq<byte>, attempt: Attempt, maxReliable: nat, maxUnreliable: nat,
                   why: seq<byte>): (r: (Client, Effect)) {
    if !c.Off() then (c, Effect(m, []))
    else if !m.limits.supported then
      var n := m.trace.epoch;
      (c.Heard(Attempted(n)).Heard(OnError(n)).Heard(OnDisconnected(n)), Effect(m, []))
    else
      var e := BrowserSession.Connect(m, url, attempt, maxReliable, maxUnreliable, why);
      (Client(true, false, false, c.log).Heard(Attempted(e.m.trace.epoch)), e)
  }

  function Disconnect(c: Client, m: Session, why: seq<byte>): (r: Session) {
    if c.Off() then m else LocalDisconnect(m, why)
  }

  function Shutdown(c: Client, m: Session, why: seq<byte>): (r: (Client, Session)) {
    (Client(false, false, false, c.log).Heard(Stopped), Disconnect(c, m, why))
  }
}
