/** The unreliable channel: `[channel : u8][payload]`, one message a datagram.
    Which datagrams arrive, and in which order, is up to the network; what each
    side makes of those that do is not. */
module Datagrams {
  import opened Framing
  import opened Options

  /** What `write_datagram` produces. */
  function EncodeDatagram(m: Message): (r: seq<byte>) { [m.channel] + m.payload }

  function DecodeDatagram(bytes: seq<byte>, limit: nat): (r: Option<Message>) {
    if bytes == [] || |bytes| - 1 > limit then None else Some(Message(bytes[0], bytes[1..]))
  }

  /** A message within the limit comes through unchanged, a longer one not at
      all, and whatever is decoded was sent as just that datagram. */
  lemma DatagramRoundTrip(m: Message, bytes: seq<byte>, limit: nat)
    ensures DecodeDatagram(EncodeDatagram(m), limit) == if |m.payload| <= limit then Some(m) else None
    ensures DecodeDatagram(bytes, limit) == Some(m) ==> bytes == EncodeDatagram(m)
  {
    assert EncodeDatagram(m)[1..] == m.payload;
  }

  /** The messages among the datagrams that have arrived. */
  function Received(datagrams: seq<seq<byte>>, limit: nat): (r: seq<Message>) {
    if datagrams == [] then []
    else
      var d := DecodeDatagram(datagrams[0], limit);
      (if d.Some? then [d.value] else []) + Received(datagrams[1..], limit)
  }

  /** `datagram_reader`, over the datagrams that arrive before the session ends. */
  method DatagramReader(datagrams: seq<seq<byte>>, maxPayload: nat) returns (messages: seq<Message>)
    ensures messages == Received(datagrams, maxPayload)
  {
    messages := [];
    var i := 0;
    while i < |datagrams|
      invariant i <= |datagrams|
      invariant messages + Received(datagrams[i..], maxPayload) == Received(datagrams, maxPayload)
    {
      var datagram := datagrams[i];
      assert datagrams[i..][1..] == datagrams[i + 1..];
      i := i + 1;
      if datagram == [] {
        continue;
      }
      var channel, payload := datagram[0], datagram[1..];
      if |payload| > maxPayload {
        continue;
      }
      messages := messages + [Message(channel, payload)];
    }
  }
}
