/** The message sizes C# hands to the native side, in its 32 bit arithmetic, and
    what they have to do with the receive buffer. */
module Settings {
  import opened Framing
  import opened Options
  import opened Grammar
  import opened BrowserSession
  import opened JsNumbers
  import opened Interop

  type Int32 = x: int | -0x8000_0000 <= x < 0x8000_0000

  const SIZE_HEADROOM := 64

  datatype Sizes = Sizes(reliable: Int32, unreliable: Int32) {
    function Maximum(onReliable: bool): (r: int) { if onReliable then reliable else unreliable }

    /** The limit the native side is given. */
    function NativeLimit(onReliable: bool): (r: nat) { ToUint32(ToInt32(Maximum(onReliable) + SIZE_HEADROOM)) }

    function ReceiveBufferSize(): (r: nat) { Max(2048, ToInt32(Max(reliable, unreliable) + SIZE_HEADROOM)) }

    /** The limit the browser plugin is given: the same number as a signed one. */
    function BrowserLimit(onReliable: bool): (r: int) { ToInt32(NativeLimit(onReliable)) }

    /** C#'s own check in `Send`. */
    predicate MaySend(payload: seq<byte>, onReliable: bool) { 0 < |payload| <= Maximum(onReliable) }
  }

  lemma WrapsOnce(x: int)
    requires -0x8000_0000 <= x < 0x1_0000_0000
    ensures ToInt32(x) == if x < 0x8000_0000 then x else x - U32
    ensures ToUint32(ToInt32(x)) == if x < 0 then x + U32 else x
  {
  }

  /** Every payload the native readers let through to C#. */
  ghost predicate Admitted(s: Sizes, e: Event, onReliable: bool) {
    e.kind.Data? && |e.data| <= s.NativeLimit(onReliable)
  }

  /** The receive buffer is big enough for whatever the readers admit. */
  ghost predicate NothingIsDropped(s: Sizes) {
    forall e, onReliable, complaint ::
      Admitted(s, e, onReliable) ==> Shown(e, Some(s.ReceiveBufferSize()), complaint) == e
  }

  function Zeros(n: nat): (r: seq<byte>) ensures |r| == n { seq(n, i => 0) }

  /** No message that was received is lost on its way into C#, exactly when the
      sizes are not absurdly negative and leave the headroom below 2^31. */
  lemma NothingIsDroppedExactly(s: Sizes)
    ensures NothingIsDropped(s) <==>
              -SIZE_HEADROOM <= s.reliable && -SIZE_HEADROOM <= s.unreliable &&
              Max(s.reliable, s.unreliable) + SIZE_HEADROOM < 0x8000_0000
  {
    WrapsOnce(s.reliable + SIZE_HEADROOM);
    WrapsOnce(s.unreliable + SIZE_HEADROOM);
    var big := s.ReceiveBufferSize() + 1;
    var e := Event(Data, 0, 0, Zeros(big), 0);
    if s.NativeLimit(true) >= big {
      assert Admitted(s, e, true) && Shown(e, Some(s.ReceiveBufferSize()), []) != e;
    }
    if s.NativeLimit(false) >= big {
      assert Admitted(s, e, false) && Shown(e, Some(s.ReceiveBufferSize()), []) != e;
    }
  }

  /** The same for the browser plugin, which shows events in its own way. */
  ghost predicate NothingIsDroppedInBrowser(s: Sizes) {
    forall e: Event, onReliable: bool, complaint: seq<byte> ::
      e.kind.Data? && |e.data| <= s.BrowserLimit(onReliable) ==> Rendered(e, s.ReceiveBufferSize(), complaint) == e
  }

  /** There a size beyond the 32 bits admits nothing at all, so only the other one
      can be too large for the buffer, which is then the smallest. */
  lemma NothingIsDroppedInBrowserExactly(s: Sizes)
    ensures
      var larger := Max(s.reliable, s.unreliable) + SIZE_HEADROOM;
      var smaller := s.reliable + s.unreliable + 2 * SIZE_HEADROOM - larger;
      NothingIsDroppedInBrowser(s) <==> larger < 0x8000_0000 || smaller >= 0x8000_0000 || smaller <= 2048
  {
    BrowserLimitIs(s, true);
    BrowserLimitIs(s, false);
    var big := s.ReceiveBufferSize() + 1;
    var e := Event(Data, 0, 0, Zeros(big), 0);
    if s.BrowserLimit(true) >= big {
      assert |e.data| <= s.BrowserLimit(true) && Rendered(e, s.ReceiveBufferSize(), []) != e;
    }
    if s.BrowserLimit(false) >= big {
      assert |e.data| <= s.BrowserLimit(false) && Rendered(e, s.ReceiveBufferSize(), []) != e;
    }
  }

  lemma BrowserLimitIs(s: Sizes, onReliable: bool)
    ensures var x := s.Maximum(onReliable) + SIZE_HEADROOM;
            s.BrowserLimit(onReliable) == ToInt32(x) == if x < 0x8000_0000 then x else x - U32
  {
    var x := s.Maximum(onReliable) + SIZE_HEADROOM;
    WrapsOnce(x);
    if x >= 0 {
      WrapsOnce(ToUint32(ToInt32(x)));
    }
  }

  /** Whatever the settings, the native side accepts what C# accepts to send. */
  lemma LegalSendsPass(s: Sizes, payload: seq<byte>, onReliable: bool)
    ensures s.MaySend(payload, onReliable) ==> |payload| + SIZE_HEADROOM <= s.NativeLimit(onReliable)
  {
    WrapsOnce(s.Maximum(onReliable) + SIZE_HEADROOM);
  }

  ghost predicate AllLegal(s: Sizes, ms: seq<Message>) { forall m :: m in ms ==> s.MaySend(m.payload, true) }

  lemma {:induction false} LegalMessagesAreNonEmpty(s: Sizes, ms: seq<Message>)
    requires AllLegal(s, ms)
    ensures NonEmpty(ms) == ms
  {
    if ms != [] {
      LegalMessagesAreNonEmpty(s, ms[1..]);
      assert ms == [ms[0]] + ms[1..];
    }
  }

  /** From one C# program to another with the same sizes: any messages C# accepts
      to send, once encoded, are decoded under the native limit to exactly those
      messages, and each is shown to the receiving C# unchanged. */
  lemma LegalMessagesArrive(s: Sizes, ms: seq<Message>, origin: nat, complaint: seq<byte>)
    requires NothingIsDropped(s) && AllLegal(s, ms)
    ensures Decode(EncodeAll(ms), s.NativeLimit(true)).Delivered() == ms
    ensures !Decode(EncodeAll(ms), s.NativeLimit(true)).tooLarge
    ensures forall m :: m in ms ==>
              var e := Event(Data, m.channel, 0, m.payload, origin);
              Shown(e, Some(s.ReceiveBufferSize()), complaint) == e
  {
    var limit := s.NativeLimit(true);
    forall m | m in ms
      ensures |m.payload| <= limit
    {
      LegalSendsPass(s, m.payload, true);
    }
    forall m | m in ms
      ensures var e := Event(Data, m.channel, 0, m.payload, origin);
              Shown(e, Some(s.ReceiveBufferSize()), complaint) == e
    {
      assert Admitted(s, Event(Data, m.channel, 0, m.payload, origin), true);
    }
    DecodeEncoded(ms, [], limit);
    assert EncodeAll(ms) + [] == EncodeAll(ms) && ms + [] == ms;
    LegalMessagesAreNonEmpty(s, ms);
  }
}
