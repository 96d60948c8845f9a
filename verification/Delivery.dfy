/** Delivery between the two implementations: what one side's program sends on
    the reliable stream is what the other side's program hears, in both
    directions, however the network cuts the bytes. */
module Delivery {
  import opened Framing
  import opened BrowserSession
  import opened BrowserRuns
  import opened BrowserSends
  import opened BrowserReads
  import opened ReaderAgreement
  import opened NativeReader
  import opened NativeWriter

  /** From the browser to the native server. Take any run of the plugin, and any
      part of its stream that has arrived, the prologue and then `chunks`. The
      native reader reports no violation and a prefix of the non-empty messages
      the plugin accepted; and all of them once the whole stream has arrived. */
  lemma BrowserToNative(actions: seq<Action>, chunks: seq<seq<byte>>, limit: nat)
    requires WithinLimit(SentBy(Initial(true), actions, []), limit) && limit < U32
    requires PROLOGUE + Flatten(chunks) <= Run(Initial(true), actions).m.trace.wire
    ensures
      var wire, sent := Run(Initial(true), actions).m.trace.wire, NonEmpty(SentBy(Initial(true), actions, []));
      var report := ReportOf(Decode(Flatten(chunks), limit), limit);
      && report.violation.None?
      && report.messages <= sent
      && (PROLOGUE + Flatten(chunks) == wire ==> report.messages == sent)
  {
    var wire, sent, bytes := Run(Initial(true), actions).m.trace.wire, SentBy(Initial(true), actions, []),
        Flatten(chunks);
    WireCarriesWhatWasSent(true, actions);
    assert wire[|PROLOGUE|..] == EncodeAll(sent);
    assert (PROLOGUE + bytes)[|PROLOGUE|..] == bytes;
    assert bytes <= EncodeAll(sent);
    PrefixSafety(sent, bytes, limit);
    NoViolation(bytes, limit);
    DecodeEncoded(sent, [], limit);
    assert EncodeAll(sent) + [] == EncodeAll(sent) && sent + [] == sent;
  }

  /** What a session hears of a stream that carries `sent`. */
  lemma HeardOfStream(m: Session, fed: seq<byte>, heard: seq<Message>, sent: seq<Message>)
    requires ReadOk(m, fed, heard) && (m.link.state == Live ==> m.link.transport.Some? && m.link.prologueDone)
    requires fed <= PROLOGUE + EncodeAll(sent)
    requires m.limits.maxReliable < U32 && WithinLimit(sent, m.limits.maxReliable)
    ensures heard <= NonEmpty(sent)
    ensures m.link.state == Live && fed == PROLOGUE + EncodeAll(sent) ==> heard == NonEmpty(sent)
  {
    var limit := m.limits.maxReliable;
    if PROLOGUE <= fed {
      var bytes := fed[|PROLOGUE|..];
      assert (PROLOGUE + EncodeAll(sent))[|PROLOGUE|..] == EncodeAll(sent);
      assert bytes <= EncodeAll(sent);
      PrefixSafety(sent, bytes, limit);
      DecodeEncoded(sent, [], limit);
      assert EncodeAll(sent) + [] == EncodeAll(sent) && sent + [] == sent;
    }
  }

  lemma LiveIsGreeted(actions: seq<Action>)
    ensures var m := Run(Initial(true), actions).m;
            m.link.state == Live ==> m.link.transport.Some? && m.link.prologueDone
  {
    InitialInv(true);
    RunKeepsInv(Initial(true), actions);
    SupportIsConstant(Initial(true), actions);
  }

  /** From the native server to the browser. Take any run of the plugin, with any
      calls, polls and callbacks, in which the bytes fed to the session's stream
      are part of what the native side has put there: the prologue and then the
      writer's batches. The session has heard a prefix of the non-empty messages
      sent before the first disconnect; while it is connected it has heard every
      one of them that has arrived in full; and then all of them once the whole
      stream has arrived. */
  lemma NativeToBrowser(rs: seq<Request>, ready: seq<bool>, actions: seq<Action>)
    requires |ready| == |rs|
    requires FedBy(Initial(true), actions, []) <= PROLOGUE + Flatten(Batches(Enqueue(rs), ready, 0).batches)
    requires var limit := Run(Initial(true), actions).m.limits.maxReliable;
             limit < U32 && WithinLimit(SentBefore(rs), limit)
    ensures
      var m, fed := Run(Initial(true), actions).m, FedBy(Initial(true), actions, []);
      var heard, sent := HeardBy(Initial(true), actions, []), NonEmpty(SentBefore(rs));
      && heard <= sent
      && (m.link.state == Live ==>
           PROLOGUE <= fed && heard == Decode(fed[|PROLOGUE|..], m.limits.maxReliable).Delivered())
      && (m.link.state == Live && fed == PROLOGUE + Flatten(Batches(Enqueue(rs), ready, 0).batches) ==> heard == sent)
  {
    ReadsAreDecoded(true, actions);
    LiveIsGreeted(actions);
    WireIsEncoding(rs, ready);
    HeardOfStream(Run(Initial(true), actions).m, FedBy(Initial(true), actions, []), HeardBy(Initial(true), actions, []),
                  SentBefore(rs));
  }

  /** And exactly when: a session that has just finished its handshake, read and
      polled in any way until the whole stream has arrived, hears all of them and
      lives on if and only if what each read completes fits the event queue as it
      is then. */
  lemma NativeToBrowserExactly(rs: seq<Request>, ready: seq<bool>, m: Session, ops: seq<Op>, why: seq<byte>)
    requires |ready| == |rs| && Reading(m) && m.unread == [] && m.limits.maxReliable < U32
    requires WithinLimit(SentBefore(rs), m.limits.maxReliable) && forall op :: op in ops ==> !op.Datagram?
    requires BytesRead(ops) == Flatten(Batches(Enqueue(rs), ready, 0).batches)
    ensures var p, sent := GoOn(m, ops, why), NonEmpty(SentBefore(rs));
            (p.trace.data == m.trace.data + sent && p.link.state != Idle) <==> FitsThroughout(m, ops, why)
  {
    var chunks := [BytesRead(ops)];
    assert Flatten(chunks) == chunks[0] + Flatten([]) == BytesRead(ops);
    ReadersAgree(m, ops, chunks, why);
    EndToEnd(rs, ready, chunks, m.limits.maxReliable, m.limits.maxReliable);
  }
}
