/** What the protocol guarantees on every byte stream: round trips, one answer for each request, and
    when the two handlers agree. */
module FrameTheorems {
  import opened Common
  import opened FrameDecoder
  import StatusReply

  // ---- lengths ---------------------------------------------------------------------------------------

  /** pack("L", n) on a little-endian machine. */
  function Pack(n: nat): (h: seq<byte>)
    requires n < 0x1_0000_0000
    ensures |h| == 4
  {
    [n % 256, n / 256 % 256, n / 65536 % 256, n / 16777216]
  }

  lemma UnpackPack(n: nat)
    requires n < 0x1_0000_0000
    ensures LittleEndian(Pack(n)) == n
  {
    assert n / 65536 == n / 256 / 256 && n / 16777216 == n / 256 / 256 / 256;
  }

  /** The first byte of a header is the least significant of the length. */
  lemma LeastSignificantFirst(h: seq<byte>)
    requires |h| >= 4
    ensures var n := LittleEndian(h);
            n % 256 == h[0] as int && n / 256 % 256 == h[1] as int && n / 65536 % 256 == h[2] as int
            && n / 16777216 == h[3] as int
  {
    var n := LittleEndian(h);
    assert n / 256 == (h[1] as int) + 256 * (h[2] as int) + 65536 * (h[3] as int);
    assert n / 65536 == (h[2] as int) + 256 * (h[3] as int);
  }

  lemma PackUnpack(h: seq<byte>)
    requires |h| == 4
    ensures LittleEndian(h) < 0x1_0000_0000 && Pack(LittleEndian(h)) == h
  {
    var n := LittleEndian(h);
    assert n / 256 == (h[1] as int) + 256 * (h[2] as int) + 65536 * (h[3] as int);
    assert n / 65536 == (h[2] as int) + 256 * (h[3] as int);
  }

  // ---- opening the connection ----------------------------------------------------------------------------

  /** The current decoder once the protocol byte has been accepted. */
  const OPENED: Decoder := Decoder(AwaitType, [], [Digit('1')], false)

  lemma AfterProto(status: nat -> seq<nat>, bytes: seq<byte>)
    ensures FeedAll(Current, status, Start(Current), [PROTO_VERSION] + bytes) == FeedAll(Current, status, OPENED, bytes)
  {
    assert Feed(Current, status, Start(Current), PROTO_VERSION) == OPENED by {
      assert [] + [Digit('1')] == [Digit('1')];
    }
    hide FeedAll, Feed;
    FeedOne(Current, status, Start(Current), PROTO_VERSION);
    FeedSplit(Current, status, Start(Current), [PROTO_VERSION], bytes);
  }

  // ---- round trip ----------------------------------------------------------------------------------------

  /** A query message, preceded by bytes that are no frame type. */
  datatype Frame = Frame(gap: seq<byte>, query: seq<byte>)

  predicate Sendable(f: Frame) {
    |f.query| < 0x1_0000_0000 && forall k :: 0 <= k < |f.gap| ==> 4 <= f.gap[k] < 128
  }

  function EncodeFrame(f: Frame): seq<byte>
    requires Sendable(f)
  {
    f.gap + ([3] + (Pack(|f.query|) + f.query))
  }

  function Encode(frames: seq<Frame>): seq<byte>
    requires forall f :: f in frames ==> Sendable(f)
  {
    if frames == [] then [] else Encode(frames[..|frames| - 1]) + EncodeFrame(frames[|frames| - 1])
  }

  function Queries(frames: seq<Frame>): seq<seq<byte>> {
    seq(|frames|, i requires 0 <= i < |frames| => frames[i].query)
  }

  function Ones(n: nat): seq<Reply> {
    seq(n, _ => Digit('1'))
  }

  lemma FeedQueryFrame(dialect: Dialect, status: nat -> seq<nat>, d: Decoder, f: Frame)
    requires d.phase == AwaitType && Sendable(f)
    ensures FeedAll(dialect, status, d, EncodeFrame(f)) == Accept(d, f.query)
  {
    hide FeedAll, Pack, LittleEndian;
    var header := Pack(|f.query|);
    var inHeader := d.(phase := InHeader(N_MYSQLDATA, []));
    FeedGap(dialect, status, d, f.gap);
    FeedSplit(dialect, status, d, f.gap, [N_MYSQLDATA] + (header + f.query));
    FeedOne(dialect, status, d, N_MYSQLDATA);
    FeedSplit(dialect, status, d, [N_MYSQLDATA], header + f.query);
    FeedHeader(dialect, status, inHeader, N_MYSQLDATA, header);
    FeedSplit(dialect, status, inHeader, header, f.query);
    UnpackPack(|f.query|);
    if f.query == [] {
      assert FeedAll(dialect, status, Accept(d, []), []) == Accept(d, []) by { FeedNothing(dialect, status, Accept(d, [])); }
    } else {
      FeedPayload(dialect, status, d.(phase := InPayload(|f.query|, [])), |f.query|, [], f.query);
      assert [] + f.query == f.query;
    }
  }

  lemma AcceptOneMore(d: Decoder, frames: seq<Frame>)
    requires frames != []
    ensures var n := |frames| - 1;
            Accept(Decoder(AwaitType, d.queries + Queries(frames[..n]), d.replies + Ones(n), d.answered || frames[..n] != []), frames[n].query) ==
            Decoder(AwaitType, d.queries + Queries(frames), d.replies + Ones(n + 1), true)
  {
    var n := |frames| - 1;
    assert Queries(frames) == Queries(frames[..n]) + [frames[n].query];
    assert Ones(n + 1) == Ones(n) + [Digit('1')];
  }

  lemma FeedNothing(dialect: Dialect, status: nat -> seq<nat>, d: Decoder)
    ensures FeedAll(dialect, status, d, []) == d
  {
  }

  lemma {:induction false} FeedFrames(dialect: Dialect, status: nat -> seq<nat>, d: Decoder, frames: seq<Frame>)
    requires d.phase == AwaitType && forall f :: f in frames ==> Sendable(f)
    ensures FeedAll(dialect, status, d, Encode(frames)) ==
      Decoder(AwaitType, d.queries + Queries(frames), d.replies + Ones(|frames|), d.answered || frames != [])
  {
    if frames == [] {
      assert d.queries + Queries(frames) == d.queries && d.replies + Ones(0) == d.replies;
    } else {
      hide FeedAll, EncodeFrame, Accept;
      var init, last := frames[..|frames| - 1], frames[|frames| - 1];
      FeedFrames(dialect, status, d, init);
      FeedSplit(dialect, status, d, Encode(init), EncodeFrame(last));
      FeedQueryFrame(dialect, status, FeedAll(dialect, status, d, Encode(init)), last);
      AcceptOneMore(d, frames);
    }
  }

  /** Protocol byte 1, then any list of queries shorter than 2^32 bytes, empty ones included, with any
      unrecognised bytes between the frames: exactly those queries are queued, in order, each is
      acknowledged, and the decoder is back at the start of a frame. */
  lemma RoundTrip(status: nat -> seq<nat>, frames: seq<Frame>)
    requires forall f :: f in frames ==> Sendable(f)
    ensures FeedAll(Current, status, Start(Current), [PROTO_VERSION] + Encode(frames)) ==
      Decoder(AwaitType, Queries(frames), [Digit('1')] + Ones(|frames|), frames != [])
  {
    hide FeedAll, Encode;
    AfterProto(status, Encode(frames));
    FeedFrames(Current, status, OPENED, frames);
    assert [] + Queries(frames) == Queries(frames);
  }

  // ---- one answer for each request ------------------------------------------------------------------------

  /** The answers sent are the one to the protocol byte, one for each query and one for each status
      request; nothing else is sent while the connection is open. */
  lemma {:induction false} OneAnswerEach(status: nat -> seq<nat>, bytes: seq<byte>)
    ensures var d := FeedAll(Current, status, Start(Current), bytes);
            && (d.phase.AwaitProto? <==> bytes == [])
            && |d.replies| == |d.queries| + StatusCount(d.replies) + (if bytes == [] then 0 else 1)
            && (bytes != [] ==> d.replies[0] == Digit(if bytes[0] == PROTO_VERSION then '1' else '0'))
  {
    if bytes != [] {
      var init := bytes[..|bytes| - 1];
      OneAnswerEach(status, init);
      var d := FeedAll(Current, status, Start(Current), init);
      OneMoreAnswer(status, d, bytes[|bytes| - 1]);
      if init != [] {
        assert bytes[0] == init[0];
      }
    }
  }

  lemma OneMoreAnswer(status: nat -> seq<nat>, d: Decoder, b: byte)
    ensures var t := Feed(Current, status, d, b);
            && !t.phase.AwaitProto?
            && d.replies <= t.replies
            && |t.replies| - |t.queries| - StatusCount(t.replies) ==
               |d.replies| - |d.queries| - StatusCount(d.replies) + (if d.phase.AwaitProto? then 1 else 0)
            && (d.phase.AwaitProto? ==> t.replies == d.replies + [Digit(if b == PROTO_VERSION then '1' else '0')])
  {
    hide StatusCount;
    StatusCountAppend(d.replies, Digit('1'));
    StatusCountAppend(d.replies, Digit('0'));
    StatusCountAppend(d.replies, Status(status(StatusCount(d.replies))));
  }

  lemma StatusCountAppend(replies: seq<Reply>, r: Reply)
    ensures StatusCount(replies + [r]) == StatusCount(replies) + if r.Status? then 1 else 0
  {
    assert (replies + [r])[..|replies|] == replies;
  }

  /** The values of the status replies, in their order. */
  function StatusesOf(replies: seq<Reply>): seq<seq<nat>> {
    if replies == [] then []
    else
      var last := replies[|replies| - 1];
      StatusesOf(replies[..|replies| - 1]) + (if last.Status? then [last.values] else [])
  }

  lemma StatusesAppend(replies: seq<Reply>, r: Reply)
    ensures StatusesOf(replies + [r]) == StatusesOf(replies) + if r.Status? then [r.values] else []
  {
    assert (replies + [r])[..|replies|] == replies;
  }

  lemma {:induction false} StatusesCounted(replies: seq<Reply>)
    ensures |StatusesOf(replies)| == StatusCount(replies)
  {
    if replies != [] {
      StatusesCounted(replies[..|replies| - 1]);
    }
  }

  lemma StatusesOneMore(dialect: Dialect, status: nat -> seq<nat>, d: Decoder, b: byte)
    requires forall k :: 0 <= k < |StatusesOf(d.replies)| ==> StatusesOf(d.replies)[k] == status(k)
    ensures var values := StatusesOf(Feed(dialect, status, d, b).replies);
            forall k :: 0 <= k < |values| ==> values[k] == status(k)
  {
    hide StatusesOf, StatusCount;
    StatusesCounted(d.replies);
    StatusesAppend(d.replies, Digit('1'));
    StatusesAppend(d.replies, Digit('0'));
    StatusesAppend(d.replies, Status(status(StatusCount(d.replies))));
  }

  /** On every stream each status reply carries the counters read for it, the first reply the first read
      and so on. */
  lemma {:induction false} EachStatusIsItsOwn(dialect: Dialect, status: nat -> seq<nat>, bytes: seq<byte>)
    ensures var values := StatusesOf(FeedAll(dialect, status, Start(dialect), bytes).replies);
            forall k :: 0 <= k < |values| ==> values[k] == status(k)
  {
    if bytes != [] {
      hide Feed, StatusesOf;
      var init := bytes[..|bytes| - 1];
      EachStatusIsItsOwn(dialect, status, init);
      StatusesOneMore(dialect, status, FeedAll(dialect, status, Start(dialect), init), bytes[|bytes| - 1]);
    } else {
      assert StatusesOf([]) == [];
    }
  }

  // ---- the last-resort answer -------------------------------------------------------------------------------

  predicate SentStatus(replies: seq<Reply>) {
    exists r :: r in replies && r.Status?
  }

  lemma StatusSentOneMore(replies: seq<Reply>, r: Reply)
    ensures SentStatus(replies + [r]) <==> SentStatus(replies) || r.Status?
  {
    assert r in replies + [r];
    if SentStatus(replies) {
      var x :| x in replies && x.Status?;
      assert x in replies + [r];
    }
  }

  lemma AnsweredOneMore(dialect: Dialect, status: nat -> seq<nat>, d: Decoder, b: byte)
    ensures var t := Feed(dialect, status, d, b);
            && !t.phase.AwaitProto?
            && (d.phase.AwaitProto? ==> t.queries == d.queries && SentStatus(t.replies) == SentStatus(d.replies))
            && (d.phase.AwaitProto? ==> (t.answered <==> d.answered || b != PROTO_VERSION))
            && (!d.phase.AwaitProto? ==>
                  (t.answered <==> d.answered || t.queries != d.queries || |t.replies| > |d.replies|)
                  && (|t.replies| > |d.replies| ==> t.queries != d.queries || SentStatus(t.replies)))
            && d.queries <= t.queries && (SentStatus(d.replies) ==> SentStatus(t.replies))
            && (SentStatus(t.replies) && !SentStatus(d.replies) ==> |t.replies| > |d.replies|)
  {
    hide SentStatus, StatusCount;
    StatusSentOneMore(d.replies, Digit('1'));
    StatusSentOneMore(d.replies, Digit('0'));
    StatusSentOneMore(d.replies, Status(status(StatusCount(d.replies))));
  }

  /** What makes a connection count as answered: a query queued, a status sent, or, for the current
      handler, a protocol byte refused. */
  lemma {:induction false} AnsweredExactly(dialect: Dialect, status: nat -> seq<nat>, bytes: seq<byte>)
    ensures var d := FeedAll(dialect, status, Start(dialect), bytes);
            && (d.phase.AwaitProto? <==> dialect.Current? && bytes == [])
            && (d.answered <==>
                  d.queries != [] || SentStatus(d.replies) || (dialect.Current? && bytes != [] && bytes[0] != PROTO_VERSION))
  {
    if bytes != [] {
      hide Feed, SentStatus;
      var init := bytes[..|bytes| - 1];
      AnsweredExactly(dialect, status, init);
      var d := FeedAll(dialect, status, Start(dialect), init);
      AnsweredOneMore(dialect, status, d, bytes[|bytes| - 1]);
      if init != [] {
        assert init[0] == bytes[0];
      }
    }
  }

  /** The answer '0' of last resort is due when no query was queued, no status was sent, and the protocol
      byte was absent or accepted. */
  function LastResort(dialect: Dialect, bytes: seq<byte>, queries: seq<seq<byte>>, replies: seq<Reply>): seq<Reply> {
    if queries == [] && (forall r :: r in replies ==> !r.Status?) && (dialect.Current? && bytes != [] ==> bytes[0] == 1)
    then [Digit('0')]
    else []
  }

  /** All that is sent for a list of queries to a connection that then closes: an acknowledgement of the
      protocol byte and of each query, and the last-resort answer only if there was none. */
  lemma AnswersToFrames(status: nat -> seq<nat>, frames: seq<Frame>)
    requires forall f :: f in frames ==> Sendable(f)
    ensures var bytes := [PROTO_VERSION] + Encode(frames);
            var d := FeedAll(Current, status, Start(Current), bytes);
            && d.phase == AwaitType && d.queries == Queries(frames)
            && d.replies + LastResort(Current, bytes, d.queries, d.replies) ==
                 Ones(1 + |frames|) + if frames == [] then [Digit('0')] else []
  {
    hide FeedAll, Encode, Queries, Ones, LastResort, Sendable;
    RoundTrip(status, frames);
    AnswersOf([PROTO_VERSION] + Encode(frames), frames);
  }

  lemma AnswersOf(bytes: seq<byte>, frames: seq<Frame>)
    requires bytes != [] && bytes[0] == 1
    ensures var replies := [Digit('1')] + Ones(|frames|);
            replies + LastResort(Current, bytes, Queries(frames), replies) ==
              Ones(1 + |frames|) + if frames == [] then [Digit('0')] else []
  {
    hide Queries, Ones, LastResort;
    OnesAreDigits(|frames|);
    QueriesCounted(frames);
    LastResortFor(bytes, Queries(frames), Ones(1 + |frames|));
  }

  lemma LastResortFor(bytes: seq<byte>, queries: seq<seq<byte>>, replies: seq<Reply>)
    requires bytes != [] && bytes[0] == 1 && forall r :: r in replies ==> !r.Status?
    ensures LastResort(Current, bytes, queries, replies) == if queries == [] then [Digit('0')] else []
  {
  }

  lemma OnesAreDigits(n: nat)
    ensures [Digit('1')] + Ones(n) == Ones(1 + n) && forall r :: r in Ones(1 + n) ==> !r.Status?
  {
  }

  lemma QueriesCounted(frames: seq<Frame>)
    ensures Queries(frames) == [] <==> frames == []
  {
  }

  /** A connection that opens with any other byte than 1 is refused: it is answered '0', nothing it sends
      is queued, and nothing more is sent. */
  lemma RefusedForGood(status: nat -> seq<nat>, bytes: seq<byte>)
    requires bytes != [] && bytes[0] != 1
    ensures FeedAll(Current, status, Start(Current), bytes) == Decoder(Rejected, [], [Digit('0')], true)
  {
    FeedFirst(Current, status, Start(Current), bytes);
    assert [] + [Digit('0')] == [Digit('0')];
    FeedAbsorbed(Current, status, Decoder(Rejected, [], [Digit('0')], true), bytes[1..]);
  }

  // ---- frames that are answered with nothing --------------------------------------------------------------------

  /** A connect or control frame, and for the earlier handler a status frame, is never left again: with the
      byte after its header the handler scans for ever. */
  lemma UnhandledFrameHangs(
      dialect: Dialect, status: nat -> seq<nat>, d: Decoder, messageType: byte, header: seq<byte>, rest: seq<byte>)
    requires d.phase == AwaitType && rest != []
    requires messageType == 0 || messageType == 2 || (messageType == 1 && dialect.Earlier?)
    requires |header| == if messageType == 0 then 10 else 4
    ensures FeedAll(dialect, status, d, [messageType] + header + rest) == d.(phase := Hung)
  {
    FeedTypeAndHeader(dialect, status, d, messageType, header);
    assert EnterMessage(dialect, status, d, messageType, header) == d.(phase := Ignored);
    hide FeedAll, Feed;
    FeedSplit(dialect, status, d, [messageType] + header, rest);
    IgnoredThenHung(dialect, status, d.(phase := Ignored), rest);
  }

  /** A status frame is answered with the counters of that moment, by the current handler. */
  lemma StatusFrameIsAnswered(status: nat -> seq<nat>, d: Decoder, header: seq<byte>)
    requires d.phase == AwaitType && |header| == 4
    ensures FeedAll(Current, status, d, [1] + header) ==
      Decoder(AwaitType, d.queries, d.replies + [Status(status(|StatusesOf(d.replies)|))], true)
  {
    hide FeedAll, Feed;
    StatusesCounted(d.replies);
    FeedTypeAndHeader(Current, status, d, 1, header);
  }

  /** A type byte above 127 leads outside the header table with the byte after it. */
  lemma NegativeTypeReadsOutside(dialect: Dialect, status: nat -> seq<nat>, d: Decoder, b: byte, rest: seq<byte>)
    requires d.phase == AwaitType && b >= 128 && rest != []
    ensures FeedAll(dialect, status, d, [b] + rest) == d.(phase := OutOfTable)
  {
    var inHeader := d.(phase := InHeader(b, []));
    FeedOne(dialect, status, d, b);
    FeedSplit(dialect, status, d, [b], rest);
    FeedFirst(dialect, status, inHeader, rest);
    FeedAbsorbed(dialect, status, d.(phase := OutOfTable), rest[1..]);
  }

  // ---- the current and the earlier handler -------------------------------------------------------------------

  /** Byte `k` completes the header of a status frame, as the earlier handler splits the stream. */
  predicate CompletesStatus(status: nat -> seq<nat>, bytes: seq<byte>, k: nat)
    requires k < |bytes|
  {
    var phase := FeedAll(Earlier, status, Start(Earlier), bytes[..k]).phase;
    phase.InHeader? && phase.messageType == N_STATUS && |phase.header| + 1 == HeaderSize(N_STATUS)
  }

  ghost predicate HasStatusFrame(status: nat -> seq<nat>, bytes: seq<byte>) {
    exists k: nat :: k < |bytes| && CompletesStatus(status, bytes, k)
  }

  /** The current handler on the protocol byte and `bytes`, and the earlier handler on `bytes`. */
  ghost predicate Agree(status: nat -> seq<nat>, bytes: seq<byte>) {
    var now := FeedAll(Current, status, Start(Current), [PROTO_VERSION] + bytes);
    var before := FeedAll(Earlier, status, Start(Earlier), bytes);
    now.queries == before.queries && now.replies == [Digit('1')] + before.replies
  }

  /** The current decoder in the state of the earlier one, with the answer to the protocol byte in front. */
  function Behind(before: Decoder): Decoder {
    before.(replies := [Digit('1')] + before.replies)
  }

  /** One byte that completes no status header takes both on alike. */
  lemma AgreeOneMore(status: nat -> seq<nat>, before: Decoder, b: byte)
    requires WellFormed(before) && !before.phase.AwaitProto?
    requires before.phase.InHeader? && before.phase.messageType == N_STATUS ==> |before.phase.header| + 1 < HeaderSize(N_STATUS)
    ensures Feed(Current, status, Behind(before), b) == Behind(Feed(Earlier, status, before, b))
  {
    assert [Digit('1')] + before.replies + [Digit('1')] == [Digit('1')] + (before.replies + [Digit('1')]);
    hide StatusCount;
  }

  lemma StatusFrameStays(status: nat -> seq<nat>, bytes: seq<byte>)
    requires bytes != [] && HasStatusFrame(status, bytes[..|bytes| - 1])
    ensures HasStatusFrame(status, bytes)
  {
    hide FeedAll;
    var init := bytes[..|bytes| - 1];
    var k: nat :| k < |init| && CompletesStatus(status, init, k);
    assert bytes[..k] == init[..k];
    assert CompletesStatus(status, bytes, k);
  }

  lemma NoStatusBefore(status: nat -> seq<nat>, bytes: seq<byte>)
    requires bytes != [] && !HasStatusFrame(status, bytes)
    ensures !HasStatusFrame(status, bytes[..|bytes| - 1])
    ensures !CompletesStatus(status, bytes, |bytes| - 1)
  {
    hide FeedAll;
    if HasStatusFrame(status, bytes[..|bytes| - 1]) {
      StatusFrameStays(status, bytes);
    }
  }

  lemma {:induction false} AgreeWithoutStatus(status: nat -> seq<nat>, bytes: seq<byte>)
    requires !HasStatusFrame(status, bytes)
    ensures FeedAll(Current, status, OPENED, bytes) == Behind(FeedAll(Earlier, status, Start(Earlier), bytes))
  {
    if bytes != [] {
      hide Feed, WellFormed, HasStatusFrame, Behind;
      var init := bytes[..|bytes| - 1];
      var before := FeedAll(Earlier, status, Start(Earlier), init);
      NoStatusBefore(status, bytes);
      AgreeWithoutStatus(status, init);
      StartIsWellFormed();
      FeedKeepsWellFormed(Earlier, status, Start(Earlier), init);
      NeverAwaitsProto(status, init);
      if before.phase.InHeader? && before.phase.messageType == N_STATUS {
        HeaderNotFull(before);
      }
      AgreeOneMore(status, before, bytes[|bytes| - 1]);
    }
  }

  lemma StartIsWellFormed()
    ensures WellFormed(Start(Earlier))
  {
  }

  lemma HeaderNotFull(d: Decoder)
    requires WellFormed(d) && d.phase.InHeader? && d.phase.messageType == N_STATUS
    ensures |d.phase.header| < HeaderSize(N_STATUS)
  {
  }

  lemma {:induction false} NeverAwaitsProto(status: nat -> seq<nat>, bytes: seq<byte>)
    ensures !FeedAll(Earlier, status, Start(Earlier), bytes).phase.AwaitProto?
  {
    if bytes != [] {
      NeverAwaitsProto(status, bytes[..|bytes| - 1]);
    }
  }

  lemma {:induction false} EarlierSendsNoStatus(status: nat -> seq<nat>, bytes: seq<byte>)
    ensures forall r :: r in FeedAll(Earlier, status, Start(Earlier), bytes).replies ==> !r.Status?
  {
    if bytes != [] {
      EarlierSendsNoStatus(status, bytes[..|bytes| - 1]);
      NeverAwaitsProto(status, bytes[..|bytes| - 1]);
    }
  }

  lemma StatusHeaderIsAnswered(status: nat -> seq<nat>, bytes: seq<byte>)
    requires bytes != [] && CompletesStatus(status, bytes, |bytes| - 1) && !HasStatusFrame(status, bytes[..|bytes| - 1])
    ensures var replies := FeedAll(Current, status, OPENED, bytes).replies;
            replies != [] && replies[|replies| - 1].Status?
  {
    var init := bytes[..|bytes| - 1];
    AgreeWithoutStatus(status, init);
    FeedKeepsWellFormed(Earlier, status, Start(Earlier), init);
  }

  /** The first status frame is answered by the current handler. */
  lemma FirstStatusIsAnswered(status: nat -> seq<nat>, bytes: seq<byte>, k: nat)
    requires k < |bytes| && CompletesStatus(status, bytes, k) && !HasStatusFrame(status, bytes[..k])
    ensures exists r :: r in FeedAll(Current, status, OPENED, bytes).replies && r.Status?
  {
    hide FeedAll, Feed, HasStatusFrame, OPENED;
    var upTo, rest := bytes[..k + 1], bytes[k + 1..];
    assert upTo[..k] == bytes[..k] && bytes == upTo + rest;
    assert CompletesStatus(status, upTo, |upTo| - 1);
    StatusHeaderIsAnswered(status, upTo);
    var answered := FeedAll(Current, status, OPENED, upTo);
    FeedSplit(Current, status, OPENED, upTo, rest);
    FeedAppends(Current, status, answered, rest);
    var last := answered.replies[|answered.replies| - 1];
    assert last == FeedAll(Current, status, OPENED, bytes).replies[|answered.replies| - 1];
  }

  lemma {:induction false} FirstStatusFrame(status: nat -> seq<nat>, bytes: seq<byte>) returns (k: nat)
    requires HasStatusFrame(status, bytes)
    ensures k < |bytes| && CompletesStatus(status, bytes, k) && !HasStatusFrame(status, bytes[..k])
    decreases |bytes|
  {
    k :| k < |bytes| && CompletesStatus(status, bytes, k);
    if HasStatusFrame(status, bytes[..k]) {
      var j := FirstStatusFrame(status, bytes[..k]);
      assert bytes[..k][..j] == bytes[..j];
      k := j;
    }
  }

  /** On every stream, the current handler on byte 1 and the stream queues the same queries as the earlier
      handler on the stream, and answers '1' and then the same, if and only if the stream completes no
      status header. */
  lemma HandlersAgreeIffNoStatus(status: nat -> seq<nat>, bytes: seq<byte>)
    ensures Agree(status, bytes) <==> !HasStatusFrame(status, bytes)
  {
    AfterProto(status, bytes);
    if HasStatusFrame(status, bytes) {
      var k := FirstStatusFrame(status, bytes);
      FirstStatusIsAnswered(status, bytes, k);
      EarlierSendsNoStatus(status, bytes);
    } else {
      AgreeWithoutStatus(status, bytes);
    }
  }

  // ---- the sample client -----------------------------------------------------------------------------------------

  /** The first frame of the sample script, a status request without a protocol byte before it. */
  const SAMPLE_REQUEST: seq<byte> := [N_STATUS, 0, 0, 0, 0]

  /** The sample script does not get its status.  After this frame it reads a length byte and that many
      bytes of text, and only then sends its query.  The current handler has taken the frame for the
      protocol byte and three bytes of a connect header, and sent '1', which announces 49 bytes.  The
      earlier handler has sent nothing.  Neither sends more until more bytes arrive or the connection
      ends. */
  lemma SampleScriptGetsNoStatus(dialect: Dialect, status: nat -> seq<nat>)
    ensures var d := FeedAll(dialect, status, Start(dialect), SAMPLE_REQUEST);
            && d.queries == []
            && StatusReply.ClientReads(StatusReply.WireAll(d.replies)) == None
            && (dialect.Current? ==> d.phase == InHeader(N_CONNECT, [0, 0, 0]) && d.replies == [Digit('1')])
            && (dialect.Earlier? ==> d.phase == Ignored && d.replies == [])
  {
    hide FeedAll, Feed;
    if dialect.Current? {
      SampleConnectBegins(status);
      OneDigitIsNoStatus();
    } else {
      SampleStatusIgnored(status);
    }
  }

  lemma OneDigitIsNoStatus()
    ensures StatusReply.ClientReads(StatusReply.WireAll([Digit('1')])) == None
  {
    assert [Digit('1')][..0] == [];
    assert StatusReply.WireAll([Digit('1')]) == "1";
  }

  lemma SampleConnectBegins(status: nat -> seq<nat>)
    ensures FeedAll(Current, status, Start(Current), SAMPLE_REQUEST) == OPENED.(phase := InHeader(N_CONNECT, [0, 0, 0]))
  {
    var inHeader := OPENED.(phase := InHeader(N_CONNECT, []));
    assert Feed(Current, status, OPENED, N_CONNECT) == inHeader;
    hide FeedAll, Feed;
    assert SAMPLE_REQUEST == [PROTO_VERSION] + [0, 0, 0, 0];
    AfterProto(status, [0, 0, 0, 0]);
    assert [0, 0, 0, 0] == [N_CONNECT] + [0, 0, 0];
    FeedOne(Current, status, OPENED, N_CONNECT);
    FeedSplit(Current, status, OPENED, [N_CONNECT], [0, 0, 0]);
    FeedPartialHeader(Current, status, inHeader, N_CONNECT, [0, 0, 0]);
  }

  /** A client that sent the two frames of the script one after the other, without reading in between,
      would leave either handler scanning for ever, for any query of three bytes or more, and the query
      would not be queued. */
  lemma SampleFramesHangBoth(dialect: Dialect, status: nat -> seq<nat>, query: seq<byte>)
    requires 3 <= |query| < 0x1_0000_0000
    ensures var d := FeedAll(dialect, status, Start(dialect), SAMPLE_REQUEST + EncodeFrame(Frame([], query)));
            d.phase == Hung && d.queries == []
  {
    hide FeedAll, Feed, Pack;
    var first: seq<byte> := [N_STATUS, 0, 0, 0, 0];
    var second := EncodeFrame(Frame([], query));
    FeedSplit(dialect, status, Start(dialect), first, second);
    if dialect.Current? {
      assert first == [PROTO_VERSION] + [0, 0, 0, 0];
      AfterProto(status, [0, 0, 0, 0]);
      SampleConnectHeader(status, second);
    } else {
      SampleStatusIgnored(status);
      IgnoredThenHung(Earlier, status, Decoder(Ignored, [], [], false), second);
    }
  }

  lemma IgnoredThenHung(dialect: Dialect, status: nat -> seq<nat>, d: Decoder, bytes: seq<byte>)
    requires d.phase == Ignored && bytes != []
    ensures FeedAll(dialect, status, d, bytes) == d.(phase := Hung)
  {
    FeedFirst(dialect, status, d, bytes);
    FeedAbsorbed(dialect, status, d.(phase := Hung), bytes[1..]);
  }

  lemma FeedTypeAndHeader(
      dialect: Dialect, status: nat -> seq<nat>, d: Decoder, messageType: byte, header: seq<byte>)
    requires d.phase == AwaitType && messageType < N_NUMMSG && |header| == HeaderSize(messageType)
    ensures FeedAll(dialect, status, d, [messageType] + header) == EnterMessage(dialect, status, d, messageType, header)
  {
    var inHeader := d.(phase := InHeader(messageType, []));
    assert Feed(dialect, status, d, messageType) == inHeader;
    hide FeedAll, Feed;
    FeedOne(dialect, status, d, messageType);
    FeedSplit(dialect, status, d, [messageType], header);
    FeedHeader(dialect, status, inHeader, messageType, header);
  }

  lemma SampleStatusIgnored(status: nat -> seq<nat>)
    ensures FeedAll(Earlier, status, Start(Earlier), [N_STATUS, 0, 0, 0, 0]) == Decoder(Ignored, [], [], false)
  {
    hide FeedAll, Feed;
    FeedTypeAndHeader(Earlier, status, Start(Earlier), N_STATUS, [0, 0, 0, 0]);
    assert [N_STATUS, 0, 0, 0, 0] == [N_STATUS] + [0, 0, 0, 0];
  }

  lemma SampleConnectHeader(status: nat -> seq<nat>, second: seq<byte>)
    requires |second| >= 8
    ensures FeedAll(Current, status, FeedAll(Current, status, OPENED, [0, 0, 0, 0]), second) == OPENED.(phase := Hung)
  {
    hide FeedAll, Feed;
    var header := [0, 0, 0] + second[..7];
    FeedSplit(Current, status, OPENED, [0, 0, 0, 0], second);
    assert [0, 0, 0, 0] + second == ([N_CONNECT] + header) + second[7..];
    FeedSplit(Current, status, OPENED, [N_CONNECT] + header, second[7..]);
    FeedTypeAndHeader(Current, status, OPENED, N_CONNECT, header);
    IgnoredThenHung(Current, status, OPENED.(phase := Ignored), second[7..]);
  }
}
