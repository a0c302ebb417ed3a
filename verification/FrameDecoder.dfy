/** The wire protocol as a decoder of one byte at a time.

    This is the reference against which the buffered handlers are proved.  It is total: what the
    handlers do with a connect or control frame, or with a type byte above 127, is a phase of its own. */
module FrameDecoder {

  type byte = b: int | 0 <= b < 256

  const N_CONNECT: byte := 0
  const N_STATUS: byte := 1
  const N_CONTROL: byte := 2
  const N_MYSQLDATA: byte := 3
  const N_NUMMSG: byte := 4

  const PROTO_VERSION: byte := 1

  /** The table netmessages_header_size. */
  function HeaderSize(messageType: byte): nat {
    if messageType == N_CONNECT then 10
    else if messageType < N_NUMMSG then 4
    else 0
  }

  /** A type byte is a signed char: from 128 on it is negative and passes the test against N_NUMMSG. */
  predicate Recognised(b: byte) {
    b < N_NUMMSG || b >= 128
  }

  /** The current handler, and the earlier one without a protocol byte and without status replies. */
  datatype Dialect = Current | Earlier

  /** One send: a single digit, or the values of a status reply. */
  datatype Reply = Digit(digit: char) | Status(values: seq<nat>)

  datatype Phase =
    | AwaitProto
    | AwaitType
    | InHeader(messageType: byte, header: seq<byte>)
    | InPayload(size: nat, payload: seq<byte>)
    | Ignored              // a header with no handler: the next byte makes the scan loop for ever
    | Rejected             // the protocol byte was refused and the connection is closed
    | Hung                 // the scan loops for ever
    | OutOfTable           // the header size was looked up at a negative index

  datatype Decoder = Decoder(phase: Phase, queries: seq<seq<byte>>, replies: seq<Reply>, answered: bool)

  function Start(dialect: Dialect): Decoder {
    Decoder(if dialect.Current? then AwaitProto else AwaitType, [], [], false)
  }

  /** Little-endian 32-bit value of the first four bytes of a header. */
  function LittleEndian(h: seq<byte>): nat
    requires |h| >= 4
  {
    (h[0] as int) + 256 * (h[1] as int) + 65536 * (h[2] as int) + 16777216 * (h[3] as int)
  }

  function StatusCount(replies: seq<Reply>): nat {
    if replies == [] then 0
    else StatusCount(replies[..|replies| - 1]) + (if replies[|replies| - 1].Status? then 1 else 0)
  }

  /** A complete query: it is queued, then acknowledged. */
  function Accept(d: Decoder, query: seq<byte>): Decoder {
    Decoder(AwaitType, d.queries + [query], d.replies + [Digit('1')], true)
  }

  /** A complete header.  `status(n)` are the counters read for the n-th status reply. */
  function EnterMessage(dialect: Dialect, status: nat -> seq<nat>, d: Decoder, messageType: byte, header: seq<byte>): Decoder
    requires |header| >= 4
  {
    if messageType == N_MYSQLDATA then
      if LittleEndian(header) == 0 then Accept(d, []) else d.(phase := InPayload(LittleEndian(header), []))
    else if messageType == N_STATUS && dialect.Current? then
      Decoder(AwaitType, d.queries, d.replies + [Status(status(StatusCount(d.replies)))], true)
    else
      d.(phase := Ignored)
  }

  function Feed(dialect: Dialect, status: nat -> seq<nat>, d: Decoder, b: byte): Decoder {
    match d.phase
    case AwaitProto =>
      if b == PROTO_VERSION then d.(phase := AwaitType, replies := d.replies + [Digit('1')])
      else d.(phase := Rejected, replies := d.replies + [Digit('0')], answered := true)
    case AwaitType =>
      if Recognised(b) then d.(phase := InHeader(b, [])) else d
    case InHeader(messageType, header) =>
      if messageType >= N_NUMMSG then d.(phase := OutOfTable)
      else if |header| + 1 < HeaderSize(messageType) then d.(phase := InHeader(messageType, header + [b]))
      else EnterMessage(dialect, status, d, messageType, header + [b])
    case InPayload(size, payload) =>
      if |payload| + 1 == size then Accept(d, payload + [b]) else d.(phase := InPayload(size, payload + [b]))
    case Ignored => d.(phase := Hung)
    case _ => d
  }

  function FeedAll(dialect: Dialect, status: nat -> seq<nat>, d: Decoder, bytes: seq<byte>): Decoder {
    if bytes == [] then d
    else Feed(dialect, status, FeedAll(dialect, status, d, bytes[..|bytes| - 1]), bytes[|bytes| - 1])
  }

  function Flatten(chunks: seq<seq<byte>>): seq<byte> {
    if chunks == [] then [] else Flatten(chunks[..|chunks| - 1]) + chunks[|chunks| - 1]
  }

  /** The phases a decoder can be in; the other values of Decoder do not occur. */
  ghost predicate WellFormed(d: Decoder) {
    match d.phase
    case InHeader(mt, header) => Recognised(mt) && (mt < N_NUMMSG ==> |header| < HeaderSize(mt)) && (mt >= 128 ==> header == [])
    case InPayload(size, payload) => |payload| < size
    case _ => true
  }

  // ---- feeding in pieces ---------------------------------------------------------------------------------

  /** Feeding a stream in two pieces is feeding it at once. */
  lemma {:induction false} FeedSplit(dialect: Dialect, status: nat -> seq<nat>, d: Decoder, xs: seq<byte>, ys: seq<byte>)
    ensures FeedAll(dialect, status, d, xs + ys) == FeedAll(dialect, status, FeedAll(dialect, status, d, xs), ys)
  {
    hide Feed;
    if ys == [] {
      assert xs + ys == xs;
    } else {
      assert (xs + ys)[..|xs + ys| - 1] == xs + ys[..|ys| - 1];
      FeedSplit(dialect, status, d, xs, ys[..|ys| - 1]);
    }
  }

  lemma FeedFirst(dialect: Dialect, status: nat -> seq<nat>, d: Decoder, bytes: seq<byte>)
    requires bytes != []
    ensures FeedAll(dialect, status, d, bytes) == FeedAll(dialect, status, Feed(dialect, status, d, bytes[0]), bytes[1..])
  {
    hide Feed;
    assert bytes == [bytes[0]] + bytes[1..];
    FeedSplit(dialect, status, d, [bytes[0]], bytes[1..]);
    FeedOne(dialect, status, d, bytes[0]);
  }

  lemma FeedOne(dialect: Dialect, status: nat -> seq<nat>, d: Decoder, b: byte)
    ensures FeedAll(dialect, status, d, [b]) == Feed(dialect, status, d, b)
  {
    hide Feed;
    assert [b][..0] == [];
  }

  lemma {:induction false} FeedKeepsWellFormed(dialect: Dialect, status: nat -> seq<nat>, d: Decoder, bytes: seq<byte>)
    requires WellFormed(d)
    ensures WellFormed(FeedAll(dialect, status, d, bytes))
  {
    if bytes != [] {
      FeedKeepsWellFormed(dialect, status, d, bytes[..|bytes| - 1]);
    }
  }

  /** Header bytes are collected until the header is complete. */
  lemma {:induction false} FeedPartialHeader(
      dialect: Dialect, status: nat -> seq<nat>, d: Decoder, messageType: byte, bytes: seq<byte>)
    requires d.phase == InHeader(messageType, []) && messageType < N_NUMMSG && |bytes| < HeaderSize(messageType)
    ensures FeedAll(dialect, status, d, bytes) == d.(phase := InHeader(messageType, bytes))
  {
    if bytes != [] {
      var init := bytes[..|bytes| - 1];
      FeedPartialHeader(dialect, status, d, messageType, init);
      assert init + [bytes[|bytes| - 1]] == bytes;
    }
  }

  lemma FeedHeader(dialect: Dialect, status: nat -> seq<nat>, d: Decoder, messageType: byte, header: seq<byte>)
    requires d.phase == InHeader(messageType, []) && messageType < N_NUMMSG && |header| == HeaderSize(messageType)
    ensures FeedAll(dialect, status, d, header) == EnterMessage(dialect, status, d, messageType, header)
  {
    var init := header[..|header| - 1];
    FeedPartialHeader(dialect, status, d, messageType, init);
    assert init + [header[|header| - 1]] == header;
  }

  /** Payload bytes are collected until the announced size is reached. */
  lemma {:induction false} FeedPayload(
      dialect: Dialect, status: nat -> seq<nat>, d: Decoder, size: nat, payload: seq<byte>, bytes: seq<byte>)
    requires d.phase == InPayload(size, payload) && |payload| + |bytes| <= size && |payload| < size
    ensures FeedAll(dialect, status, d, bytes) ==
      if |payload| + |bytes| == size then Accept(d, payload + bytes) else d.(phase := InPayload(size, payload + bytes))
  {
    if bytes == [] {
      assert payload + bytes == payload;
    } else {
      var init := bytes[..|bytes| - 1];
      FeedPayload(dialect, status, d, size, payload, init);
      assert payload + init + [bytes[|bytes| - 1]] == payload + bytes;
    }
  }

  /** Bytes from 4 to 127 are no frame type and are skipped between frames. */
  lemma {:induction false} FeedGap(dialect: Dialect, status: nat -> seq<nat>, d: Decoder, gap: seq<byte>)
    requires d.phase == AwaitType && forall k :: 0 <= k < |gap| ==> 4 <= gap[k] < 128
    ensures FeedAll(dialect, status, d, gap) == d
  {
    if gap != [] {
      FeedGap(dialect, status, d, gap[..|gap| - 1]);
    }
  }

  /** Phases from which no byte leads anywhere. */
  predicate Absorbing(p: Phase) {
    p.Rejected? || p.Hung? || p.OutOfTable?
  }

  lemma {:induction false} FeedAbsorbed(dialect: Dialect, status: nat -> seq<nat>, d: Decoder, bytes: seq<byte>)
    requires Absorbing(d.phase)
    ensures FeedAll(dialect, status, d, bytes) == d
  {
    if bytes != [] {
      FeedAbsorbed(dialect, status, d, bytes[..|bytes| - 1]);
    }
  }

  /** Queries and replies are only ever appended to. */
  lemma {:induction false} FeedAppends(dialect: Dialect, status: nat -> seq<nat>, d: Decoder, bytes: seq<byte>)
    ensures d.queries <= FeedAll(dialect, status, d, bytes).queries
    ensures d.replies <= FeedAll(dialect, status, d, bytes).replies
  {
    if bytes != [] {
      FeedAppends(dialect, status, d, bytes[..|bytes| - 1]);
    }
  }

  // ---- chunks -----------------------------------------------------------------------------------------------

  lemma {:induction false} FlattenSplit(xs: seq<seq<byte>>, ys: seq<seq<byte>>)
    ensures Flatten(xs + ys) == Flatten(xs) + Flatten(ys)
  {
    if ys == [] {
      assert xs + ys == xs;
    } else {
      assert (xs + ys)[..|xs + ys| - 1] == xs + ys[..|ys| - 1];
      FlattenSplit(xs, ys[..|ys| - 1]);
    }
  }

  /** Feeding the chunks up to `i` and then chunk `i`. */
  lemma FeedNextChunk(dialect: Dialect, status: nat -> seq<nat>, d: Decoder, chunks: seq<seq<byte>>, i: nat)
    requires i < |chunks|
    ensures FeedAll(dialect, status, d, Flatten(chunks[..i + 1])) ==
      FeedAll(dialect, status, FeedAll(dialect, status, d, Flatten(chunks[..i])), chunks[i])
  {
    assert chunks[..i + 1][..i] == chunks[..i];
    FeedSplit(dialect, status, d, Flatten(chunks[..i]), chunks[i]);
  }

  /** Once nothing leads anywhere, the chunks from `i` on do not matter. */
  lemma FeedRemainingChunks(dialect: Dialect, status: nat -> seq<nat>, d: Decoder, chunks: seq<seq<byte>>, i: nat)
    requires i <= |chunks| && (i == |chunks| || Absorbing(FeedAll(dialect, status, d, Flatten(chunks[..i])).phase))
    ensures FeedAll(dialect, status, d, Flatten(chunks)) == FeedAll(dialect, status, d, Flatten(chunks[..i]))
  {
    assert chunks == chunks[..i] + chunks[i..];
    FlattenSplit(chunks[..i], chunks[i..]);
    FeedSplit(dialect, status, d, Flatten(chunks[..i]), Flatten(chunks[i..]));
    if i < |chunks| {
      FeedAbsorbed(dialect, status, FeedAll(dialect, status, d, Flatten(chunks[..i])), Flatten(chunks[i..]));
    }
  }
}
