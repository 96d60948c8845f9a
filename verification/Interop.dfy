/** The border between the native library and C#: how events are written into
    the receive buffer, and the sizes that keep messages from being lost there. */
module Interop {
  import opened Framing
  import opened Options
  import opened Grammar
  import opened BrowserSession
  import Utf8

  // -------------------------------------------------------------------------
  // Writing events
  // -------------------------------------------------------------------------

  const KIND_CERTIFICATE_ROTATED := 5

  /** The event kinds of the binary interface. */
  function KindCode(k: Kind): (r: int) {
    match k
    case Connected => 1
    case Data => 2
    case Disconnected => 3
    case Error => 4
  }

  /** A queued event, of a session under a connection id or of the server. */
  datatype NativeEvent = Of(id: nat, event: Event) | CertificateRotated(hash: seq<byte>)

  datatype WTEvent = WTEvent(kind: int, connectionId: nat, channel: int, dataLength: nat, code: int)

  /** How much a buffer holds; nothing at all if it is null or its capacity negative. */
  function RoomOf(buffer: array?<byte>, capacity: int): (r: Option<nat>) {
    if buffer == null || capacity < 0 then None else Some(capacity)
  }

  predicate Holds(room: Option<nat>, bytes: seq<byte>) { room.Some? && |bytes| <= room.value }

  function Cut(text: seq<byte>, room: Option<nat>): (r: seq<byte>) {
    Utf8.Truncated(text, if room.Some? then room.value else 0)
  }

  /** An event as C# gets to see it: texts are cut to what fits, and a message
      that does not fit is replaced by a complaint about it. */
  function Shown(e: Event, room: Option<nat>, complaint: seq<byte>): (r: Event) {
    match e.kind
    case Data =>
      if Holds(room, e.data) then e
      else Event(Error, 0, ERROR_INVALID_RECEIVE, Cut(complaint, room), e.origin)
    case _ => e.(data := Cut(e.data, room))
  }

  /** A buffer after `text` has been written to its start. */
  function Overwritten(before: seq<byte>, text: seq<byte>): (r: seq<byte>)
    requires |text| <= |before|
  {
    text + before[|text|..]
  }

  method CopyInto(text: seq<byte>, length: nat, buffer: array<byte>)
    requires length <= |text| && length <= buffer.Length
    modifies buffer
    ensures buffer[..] == Overwritten(old(buffer[..]), text[..length])
  {
    for i := 0 to length
      invariant buffer[..i] == text[..i] && buffer[i..] == old(buffer[i..])
    {
      buffer[i] := text[i];
    }
  }

  method WriteString(text: seq<byte>, buffer: array?<byte>, capacity: int) returns (length: nat)
    requires buffer != null ==> capacity <= buffer.Length
    modifies buffer
    ensures length == |Cut(text, RoomOf(buffer, capacity))|
    ensures buffer != null ==>
              length <= buffer.Length && buffer[..] == Overwritten(old(buffer[..]), Cut(text, RoomOf(buffer, capacity)))
  {
    if buffer == null || capacity <= 0 {
      return 0;
    }
    length := if |text| < capacity then |text| else capacity;
    ghost var limit := length;
    while length > 0 && !Utf8.IsBoundary(text, length)
      invariant length <= limit && Utf8.BoundaryBefore(text, length) == Utf8.BoundaryBefore(text, limit)
    {
      length := length - 1;
    }
    CopyInto(text, length, buffer);
  }

  method WriteBytes(bytes: seq<byte>, buffer: array?<byte>, capacity: int) returns (ok: bool)
    requires buffer != null ==> capacity <= buffer.Length
    modifies buffer
    ensures ok == Holds(RoomOf(buffer, capacity), bytes)
    ensures ok ==> |bytes| <= buffer.Length && buffer[..] == Overwritten(old(buffer[..]), bytes)
    ensures !ok && buffer != null ==> buffer[..] == old(buffer[..])
  {
    if buffer == null || capacity < 0 || |bytes| > capacity {
      return false;
    }
    CopyInto(bytes, |bytes|, buffer);
    assert bytes[..|bytes|] == bytes;
    return true;
  }

  /** What `write_event` leaves in the buffer is the event as shown. */
  method WriteEvent(event: NativeEvent, buffer: array?<byte>, capacity: int, complaint: seq<byte>)
    returns (result: WTEvent)
    requires buffer != null ==> capacity <= buffer.Length
    modifies buffer
    ensures event.Of? ==>
              var shown := Shown(event.event, RoomOf(buffer, capacity), complaint);
              && result == WTEvent(KindCode(shown.kind), event.id, shown.channel, |shown.data|, shown.code)
              && (buffer != null ==>
                    |shown.data| <= buffer.Length &&
                    buffer[..] == Overwritten(old(buffer[..]), shown.data))
    ensures event.CertificateRotated? ==>
              var shown := Cut(event.hash, RoomOf(buffer, capacity));
              && result == WTEvent(KIND_CERTIFICATE_ROTATED, 0, 0, |shown|, 0)
              && (buffer != null ==> |shown| <= buffer.Length && buffer[..] == Overwritten(old(buffer[..]), shown))
  {
    match event
    case CertificateRotated(hash) =>
      var length := WriteString(hash, buffer, capacity);
      return WTEvent(KIND_CERTIFICATE_ROTATED, 0, 0, length, 0);
    case Of(id, e) =>
      if e.kind.Data? {
        var ok := WriteBytes(e.data, buffer, capacity);
        if ok {
          return WTEvent(KindCode(Data), id, e.channel, |e.data|, e.code);
        }
        var length := WriteString(complaint, buffer, capacity);
        return WTEvent(KindCode(Error), id, 0, length, ERROR_INVALID_RECEIVE);
      }
      var length := WriteString(e.data, buffer, capacity);
      return WTEvent(KindCode(e.kind), id, e.channel, length, e.code);
  }
}
