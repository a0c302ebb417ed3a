/** The buffered decoder of one connection, proved to refine the decoder of one byte at a time whatever
    pieces the stream arrives in.

    GearStreamClientHandler and the earlier GearStreamClientHandlerThread have the same receive loop, buffer
    handling and payload loop; they differ in the protocol byte and in the status case only.  `dialect`
    says which of the two a handler is. */
module ClientHandler {
  import opened FrameDecoder
  import opened FrameTheorems
  import LockedQueue

  const BUFSIZE: nat := 2048
  const DATABUFSIZE: nat := 4096

  /** What has become of the scan of the buffer: it goes on, it repeats one iteration for ever, or it
      looks up the header size at a negative index. */
  datatype Fate = Live | Looping | BadIndex

  /** How `main` ends: it returns; it repeats its receive loop for ever on a partial header after the
      peer has closed; or the scan has come to a bad end. */
  datatype Outcome = Returned | SpinsAtEnd | LoopsInScan | ReadsOutsideTable

  /** `main` returns from a stream that leaves the decoder in phase `p` exactly when the stream did not
      stop in the middle of a header and the scan did not come to a bad end. */
  predicate Returns(p: Phase) {
    !p.Hung? && !p.OutOfTable? && (p.InHeader? ==> p.header == [])
  }

  class Handler {
    const dialect: Dialect
    const status: nat -> seq<nat>
    const queue: LockedQueue.Queue<seq<byte>>
    const data: array<byte>
    var leftover: nat
    var hasProto: bool
    var hasType: bool
    var hasHeader: bool
    var messageType: byte
    var payload: seq<byte>
    var payloadSize: nat
    var payloadRead: nat
    var answered: bool
    var stop: bool
    var replies: seq<Reply>
    var fate: Fate
    /** What the shared queue held when the connection was opened. */
    ghost const before: seq<seq<byte>>

    constructor (dialect: Dialect, queue: LockedQueue.Queue<seq<byte>>, status: nat -> seq<nat>)
      ensures Valid() && fresh(data) && this.dialect == dialect && this.queue == queue && this.status == status
      ensures before == queue.items && leftover == 0 && !stop && fate.Live? && View() == Start(dialect)
    {
      this.dialect := dialect;
      this.queue := queue;
      this.status := status;
      before := queue.items;
      data := new byte[DATABUFSIZE];
      leftover := 0;
      hasProto, hasType, hasHeader := dialect.Earlier?, false, false;
      messageType := 15;
      payload, payloadSize, payloadRead := [], 0, 0;
      answered, stop := false, false;
      replies := [];
      fate := Live;
    }

    /** The fields agree with each other, but for a header just parsed and not yet acted upon. */
    ghost predicate Consistent()
      reads this, queue
    {
      && data.Length == DATABUFSIZE
      && before <= queue.items
      && (dialect.Earlier? ==> hasProto)
      && (hasType ==> hasProto && Recognised(messageType))
      && (hasHeader ==> hasType && messageType < N_NUMMSG)
      && (hasProto && !hasHeader ==> payload == [])
      && payloadRead == |payload|
      && (!hasProto ==> !hasHeader && !hasType && payload == [])
      && (stop ==> !hasProto && answered)
      && (!hasProto && answered ==> stop)
    }

    ghost predicate Valid()
      reads this, queue
    {
      && Consistent()
      && (hasHeader && messageType == N_STATUS ==> dialect.Earlier?)
      && (hasHeader && messageType == N_MYSQLDATA ==> payloadRead < payloadSize)
      && (hasHeader && messageType != N_MYSQLDATA ==> payload == [])
    }

    /** The decoder state the fields stand for. */
    ghost function View(): Decoder
      reads this, queue
      requires Consistent()
    {
      var phase :=
        if fate.Looping? then Hung
        else if fate.BadIndex? then OutOfTable
        else if !hasProto then (if stop then Rejected else AwaitProto)
        else if !hasType then AwaitType
        else if !hasHeader then InHeader(messageType, [])
        else if messageType == N_MYSQLDATA then InPayload(payloadSize, payload)
        else Ignored;
      Decoder(phase, queue.items[|before|..], replies, answered)
    }

    /** The decoder state once the header just parsed has been acted upon. */
    ghost function Due(): Decoder
      reads this, queue
      requires Consistent()
    {
      var d := View();
      if messageType == N_MYSQLDATA then
        if payloadRead == payloadSize then Accept(d, payload) else d.(phase := InPayload(payloadSize, payload))
      else if messageType == N_STATUS && dialect.Current? then
        Decoder(AwaitType, d.queries, d.replies + [Status(status(StatusCount(d.replies)))], true)
      else d.(phase := Ignored)
    }

    /** The decoder state with the bytes carried over from the last receive fed as well. */
    ghost function Total(): Decoder
      reads this, queue, data
      requires Consistent() && leftover <= DATABUFSIZE
    {
      FeedAll(dialect, status, View(), data[..leftover])
    }

    /** The reply to the protocol byte. */
    method TakeProto(proto: byte)
      requires Valid() && fate.Live? && !hasProto && !stop
      modifies this`hasProto, this`replies, this`answered, this`stop
      ensures Valid() && View() == Feed(dialect, status, old(View()), proto)
    {
      if proto < 1 || proto > PROTO_VERSION {
        replies := replies + [Digit('0')];
        answered := true;
        stop := true;
      } else {
        hasProto := true;
        replies := replies + [Digit('1')];
      }
    }

    method TakeType(b: byte)
      requires Valid() && fate.Live? && hasProto && !hasType
      modifies this`hasType, this`messageType
      ensures Valid() && View() == Feed(dialect, status, old(View()), b)
    {
      messageType := b;
      if messageType < N_NUMMSG || messageType >= 128 {
        hasType := true;
      }
    }

    /** Reads the length from the header that starts at `pos`. */
    method ParseHeader(pos: nat)
      requires Valid() && fate.Live? && hasType && !hasHeader && messageType < N_NUMMSG
      requires pos + HeaderSize(messageType) <= DATABUFSIZE
      modifies this`hasHeader, this`payloadSize, this`payloadRead
      ensures Consistent() && hasHeader && payload == []
      ensures Due() == EnterMessage(dialect, status, old(View()), messageType, data[pos..pos + HeaderSize(messageType)])
    {
      hasHeader := true;
      var header := data[pos..pos + HeaderSize(messageType)];
      payloadSize := LittleEndian(header);
      payloadRead := 0;
    }

    method Reset()
      modifies this`hasType, this`hasHeader, this`payload, this`payloadRead, this`payloadSize, this`answered
      ensures !hasType && !hasHeader && payload == [] && payloadRead == 0 && payloadSize == 0 && answered
    {
      answered := true;
      hasType := false;
      hasHeader := false;
      payload := [];
      payloadRead := 0;
      payloadSize := 0;
    }

    method AnswerStatus()
      requires Consistent() && fate.Live? && hasHeader && messageType == N_STATUS && dialect.Current?
      modifies this`hasType, this`hasHeader, this`payload, this`payloadRead, this`payloadSize, this`answered, this`replies
      ensures Valid() && View() == old(Due()) && !hasType && hasProto
    {
      replies := replies + [Status(status(StatusCount(replies)))];
      Reset();
    }

    /** Queues the query before it is acknowledged. */
    method AcceptQuery()
      requires Consistent() && fate.Live? && hasHeader && messageType == N_MYSQLDATA && payloadRead == payloadSize
      modifies this`hasType, this`hasHeader, this`payload, this`payloadRead, this`payloadSize, this`answered, this`replies
      modifies queue
      ensures Valid() && View() == old(Due()) && !hasType && hasProto
    {
      queue.Push(payload);
      replies := replies + [Digit('1')];
      assert queue.items[|before|..] == old(queue.items)[|before|..] + [payload];
      Reset();
    }

    /** Appends payload bytes until the payload is complete or the buffer is used up. */
    method ReadPayload(start: nat, numbytes: nat) returns (pos: nat)
      requires Consistent() && hasHeader && payloadRead <= payloadSize && start <= numbytes <= DATABUFSIZE
      modifies this`payload, this`payloadRead
      ensures Consistent() && start <= pos <= numbytes && payloadRead <= payloadSize
      ensures payload == old(payload) + data[start..pos]
      ensures pos == numbytes || payloadRead == payloadSize
      ensures start < numbytes && old(payloadRead) < payloadSize ==> start < pos
    {
      pos := start;
      if payloadRead < payloadSize {
        while pos < numbytes && payloadRead < payloadSize
          invariant start <= pos <= numbytes
          invariant payloadRead <= payloadSize
          invariant Consistent()
          invariant payload == old(payload) + data[start..pos]
          invariant pos == start ==> payloadRead == old(payloadRead)
        {
          payload := payload + [data[pos]];
          pos := pos + 1;
          payloadRead := payloadRead + 1;
        }
      }
    }

    /** Reading payload bytes is feeding them. */
    method FeedPayloadBytes(start: nat, numbytes: nat) returns (pos: nat)
      requires Consistent() && fate.Live? && hasHeader && messageType == N_MYSQLDATA
      requires payloadRead <= payloadSize && start <= numbytes <= DATABUFSIZE
      modifies this`payload, this`payloadRead
      ensures Consistent() && start <= pos <= numbytes && payloadRead <= payloadSize
      ensures Due() == FeedAll(dialect, status, old(Due()), data[start..pos])
      ensures pos == numbytes || payloadRead == payloadSize
      ensures start < numbytes && old(payloadRead) < payloadSize ==> start < pos
    {
      ghost var due, had := Due(), payload;
      pos := ReadPayload(start, numbytes);
      if |had| < payloadSize {
        FeedPayload(dialect, status, due, payloadSize, had, data[start..pos]);
      } else {
        assert data[start..pos] == [] && payload == had;
      }
    }

    /** The switch over the message type, with the bytes from `start` to `numbytes` still unread. */
    method HandleMessage(start: nat, numbytes: nat) returns (pos: nat)
      requires Consistent() && fate.Live? && hasHeader && payloadRead <= payloadSize && start <= numbytes <= DATABUFSIZE
      requires messageType != N_MYSQLDATA ==> payload == []
      modifies this`hasType, this`hasHeader, this`payload, this`payloadRead, this`payloadSize, this`answered
      modifies this`replies, queue
      ensures Valid() && start <= pos <= numbytes && hasProto
      ensures View() == FeedAll(dialect, status, old(Due()), data[start..pos])
      ensures hasType ==> hasHeader && (messageType == N_MYSQLDATA ==> pos == numbytes)
      ensures old(messageType) == N_MYSQLDATA && start < numbytes && old(payloadRead) < old(payloadSize) ==> start < pos
    {
      pos := start;
      assert data[start..start] == [];
      if messageType == N_STATUS && dialect.Current? {
        AnswerStatus();
      } else if messageType == N_MYSQLDATA {
        pos := FeedPayloadBytes(start, numbytes);
        if payloadRead == payloadSize {
          AcceptQuery();
        }
      }
    }

    /** A complete header, and whatever of its message is in the buffer. */
    method TakeHeader(start: nat, numbytes: nat) returns (pos: nat)
      requires Valid() && fate.Live? && hasType && !hasHeader && messageType < N_NUMMSG
      requires start + HeaderSize(messageType) <= numbytes <= DATABUFSIZE
      modifies this`hasType, this`hasHeader, this`payload, this`payloadRead, this`payloadSize, this`answered
      modifies this`replies, queue
      ensures Valid() && start < pos <= numbytes && hasProto
      ensures View() == FeedAll(dialect, status, old(View()), data[start..pos])
    {
      hide FeedAll, Feed;
      ghost var d := View();
      var headerEnd := start + HeaderSize(messageType);
      FeedHeader(dialect, status, d, messageType, data[start..headerEnd]);
      ParseHeader(start);
      pos := HandleMessage(headerEnd, numbytes);
      assert data[start..pos] == data[start..headerEnd] + data[headerEnd..pos];
      FeedSplit(dialect, status, d, data[start..headerEnd], data[headerEnd..pos]);
    }

    /** The bytes left unread belong to an incomplete header. */
    predicate NeedsMore(unread: nat)
      reads this
    {
      unread == 0 || (hasType && !hasHeader && messageType < N_NUMMSG && unread < HeaderSize(messageType))
    }

    /** Scans the first `numbytes` bytes of the buffer.  Where the source would repeat an iteration that
        changes nothing, or index the header table at a negative position, the scan stops and says so. */
    method Scan(numbytes: nat) returns (pos: nat)
      requires Valid() && fate.Live? && !stop && numbytes <= DATABUFSIZE
      modifies this`hasProto, this`hasType, this`hasHeader, this`messageType, this`payload, this`payloadRead
      modifies this`payloadSize, this`answered, this`stop, this`replies, this`fate, queue
      ensures Valid() && pos <= numbytes
      ensures FeedAll(dialect, status, View(), data[pos..numbytes]) ==
              FeedAll(dialect, status, old(View()), data[..numbytes])
      ensures fate.Live? && !stop ==> NeedsMore(numbytes - pos)
      ensures old(NeedsMore(numbytes)) ==> pos == 0 && View() == old(View()) && fate.Live? && !stop
    {
      hide FeedAll;
      ghost var bytes := data[..numbytes];
      ghost var goal := FeedAll(dialect, status, View(), bytes);
      pos := 0;
      assert bytes[0..] == bytes;
      while pos < numbytes && !stop
        invariant 0 <= pos <= numbytes && Valid() && fate.Live? && data[..numbytes] == bytes
        invariant FeedAll(dialect, status, View(), bytes[pos..]) == goal
        invariant old(NeedsMore(numbytes)) ==> pos == 0 && !stop && NeedsMore(numbytes) && View() == old(View())
        decreases numbytes - pos
      {
        ghost var d, from := View(), pos;
        if !hasProto {
          TakeProto(data[pos]);
          pos := pos + 1;
          FedOne(dialect, status, d, View(), bytes, from);
        } else if !hasType {
          TakeType(data[pos]);
          pos := pos + 1;
          FedOne(dialect, status, d, View(), bytes, from);
        } else if !hasHeader {
          if messageType >= 128 {
            fate := BadIndex;
            FedForEver(dialect, status, d, View(), bytes[pos..]);
            break;
          }
          if HeaderSize(messageType) + pos > numbytes {
            break;
          }
          pos := TakeHeader(pos, numbytes);
          assert data[from..pos] == data[..numbytes][from..pos];
          Fed(dialect, status, d, View(), bytes, from, pos);
        } else if messageType == N_MYSQLDATA {
          pos := HandleMessage(pos, numbytes);
          assert data[from..pos] == data[..numbytes][from..pos];
          Fed(dialect, status, d, View(), bytes, from, pos);
        } else {
          fate := Looping;
          FedForEver(dialect, status, d, View(), bytes[pos..]);
          break;
        }
      }
      assert bytes[pos..] == data[pos..numbytes];
    }

    /** The bytes carried over are the header bytes the decoder has seen. */
    lemma TotalPhase()
      requires Ready()
      ensures Total() == if leftover == 0 then View() else View().(phase := InHeader(messageType, data[..leftover]))
    {
      if leftover != 0 {
        FeedPartialHeader(dialect, status, View(), messageType, data[..leftover]);
      }
    }

    /** Ready for the next receive: at most a partial header is carried over. */
    ghost predicate Ready()
      reads this, queue
    {
      Valid() && fate.Live? && !stop && NeedsMore(leftover)
    }

    /** One turn of the receive loop: `n` bytes have arrived in `buffer`, the rest of which is zero.
        Bytes carried over never exceed 9, and 3 unless a connect header is incomplete, so the copy of
        the whole receive buffer stays inside the data buffer. */
    method Receive(buffer: array<byte>, n: nat)
      requires Ready() && buffer != data && buffer.Length == BUFSIZE && 0 < n < BUFSIZE
      modifies this, data, queue
      ensures Valid() && leftover <= DATABUFSIZE
      ensures fate.Live? && !stop ==> Ready() && leftover <= (if messageType == N_CONNECT then 9 else 3)
      ensures Total() == FeedAll(dialect, status, old(Total()), buffer[..n])
    {
      hide FeedAll, Feed;
      ghost var carried, d := data[..leftover], View();
      var numbytes := n + leftover;
      CopyIn(buffer);
      assert data[..numbytes] == carried + buffer[..n];
      FeedSplit(dialect, status, d, carried, buffer[..n]);
      var pos := Scan(numbytes);
      CarryOver(pos, numbytes);
    }

    /** Copies the whole receive buffer behind the bytes carried over. */
    method CopyIn(buffer: array<byte>)
      requires data.Length == DATABUFSIZE && buffer != data && buffer.Length == BUFSIZE
      requires leftover + BUFSIZE <= DATABUFSIZE
      modifies data
      ensures data[..leftover + BUFSIZE] == old(data[..leftover]) + buffer[..]
    {
      forall i | 0 <= i < BUFSIZE {
        data[leftover + i] := buffer[i];
      }
    }

    /** Moves the unread bytes to the front of the buffer. */
    method CarryOver(pos: nat, numbytes: nat)
      requires Valid() && pos <= numbytes <= DATABUFSIZE
      modifies this`leftover, data
      ensures Valid() && leftover == numbytes - pos
      ensures data[..leftover] == old(data[pos..numbytes])
    {
      leftover := numbytes - pos;
      forall i | 0 <= i < leftover {
        data[i] := data[pos + i];
      }
    }

    /** One turn of the receive loop after the peer has closed: nothing arrives.  If bytes were carried
        over, the turn changes nothing, so the loop repeats it for ever. */
    method ReceiveNothing(buffer: array<byte>) returns (returned: bool)
      requires Ready() && buffer != data && buffer.Length == BUFSIZE
      modifies this, data, queue
      ensures returned <==> old(leftover) == 0
      ensures Ready() && View() == old(View()) && leftover == old(leftover) && data[..leftover] == old(data[..leftover])
    {
      var numbytes := leftover;
      if 0 < numbytes {
        ghost var carried := data[..leftover];
        CopyIn(buffer);
        assert data[..numbytes] == carried;
        var pos := Scan(numbytes);
        CarryOver(pos, numbytes);
        return false;
      }
      return true;
    }

    /** The receive loop, up to the end of the stream or the end of the connection. */
    method Serve(buffer: array<byte>, chunks: seq<seq<byte>>)
      requires forall c :: c in chunks ==> 0 < |c| < BUFSIZE
      requires Ready() && leftover == 0 && buffer != data && buffer.Length == BUFSIZE
      modifies this, data, queue, buffer
      ensures Valid() && leftover <= DATABUFSIZE && (fate.Live? && !stop ==> Ready())
      ensures Total() == FeedAll(dialect, status, old(View()), Flatten(chunks))
    {
      ghost var d := View();
      var i := 0;
      while i < |chunks| && !stop && fate.Live?
        invariant 0 <= i <= |chunks|
        invariant Valid() && leftover <= DATABUFSIZE && (fate.Live? && !stop ==> Ready())
        invariant Total() == FeedAll(dialect, status, d, Flatten(chunks[..i]))
      {
        hide FeedAll, Feed, Consistent;
        Recv(buffer, chunks[i]);
        FeedNextChunk(dialect, status, d, chunks, i);
        Receive(buffer, |chunks[i]|);
        i := i + 1;
      }
      if stop || !fate.Live? {
        FeedAbsorbed(dialect, status, View(), data[..leftover]);
      } else {
        assert chunks[..i] == chunks;
      }
      FeedRemainingChunks(dialect, status, d, chunks, i);
    }

    /** What happens once nothing more arrives. */
    method Close(buffer: array<byte>) returns (outcome: Outcome)
      requires Valid() && leftover <= DATABUFSIZE && (fate.Live? && !stop ==> Ready())
      requires buffer != data && buffer.Length == BUFSIZE
      modifies this, data, queue
      ensures outcome.Returned? <==> Returns(old(Total()).phase)
      ensures outcome.SpinsAtEnd? <==> old(Total()).phase.InHeader? && old(Total()).phase.header != []
      ensures outcome.LoopsInScan? <==> old(Total()).phase.Hung?
      ensures queue.items == before + old(Total()).queries
      ensures replies == old(Total()).replies + if outcome.Returned? && !old(Total()).answered then [Digit('0')] else []
    {
      if stop || !fate.Live? {
        FeedAbsorbed(dialect, status, View(), data[..leftover]);
        outcome := match fate case Live => Returned case Looping => LoopsInScan case BadIndex => ReadsOutsideTable;
      } else {
        TotalPhase();
        var returned := ReceiveNothing(buffer);
        outcome := if returned then Returned else SpinsAtEnd;
      }
      if outcome.Returned? && !answered {
        replies := replies + [Digit('0')];
      }
    }
  }

  /** The bytes of one receive, in a buffer cleared before. */
  method Recv(buffer: array<byte>, chunk: seq<byte>)
    requires buffer.Length == BUFSIZE && |chunk| < BUFSIZE
    modifies buffer
    ensures buffer[..|chunk|] == chunk
  {
    forall i | 0 <= i < BUFSIZE {
      buffer[i] := if i < |chunk| then chunk[i] else 0;
    }
  }

  /** The whole life of one connection, under either handler.  However the stream is cut into receives of
      1 to 2047 bytes, the queries queued, the replies sent and whether the handler returns are those of
      the byte-at-a-time decoder on the concatenation. */
  method RunConnection(dialect: Dialect, queue: LockedQueue.Queue<seq<byte>>, status: nat -> seq<nat>, chunks: seq<seq<byte>>)
    returns (outcome: Outcome, replies: seq<Reply>)
    requires forall c :: c in chunks ==> 0 < |c| < BUFSIZE
    modifies queue
    ensures var d := FeedAll(dialect, status, Start(dialect), Flatten(chunks));
            && queue.items == old(queue.items) + d.queries
            && (outcome.Returned? <==> Returns(d.phase))
            && (outcome.SpinsAtEnd? <==> d.phase.InHeader? && d.phase.header != [])
            && (outcome.LoopsInScan? <==> d.phase.Hung?)
            && replies == d.replies +
                 if outcome.Returned? then LastResort(dialect, Flatten(chunks), d.queries, d.replies) else []
  {
    var h := new Handler(dialect, queue, status);
    var buffer := new byte[BUFSIZE];
    hide FeedAll, Feed;
    AnsweredExactly(dialect, status, Flatten(chunks));
    h.Serve(buffer, chunks);
    outcome := h.Close(buffer);
    replies := h.replies;
  }

  /** A connection that sends protocol byte 1 and then a list of queries, cut up in any way: they are queued
      in order, behind what was queued before, and all that is sent are the acknowledgements, or the
      last-resort answer when there was no query. */
  method RunFrames(queue: LockedQueue.Queue<seq<byte>>, status: nat -> seq<nat>, frames: seq<Frame>, chunks: seq<seq<byte>>)
    returns (outcome: Outcome, replies: seq<Reply>)
    requires forall f :: f in frames ==> Sendable(f)
    requires Flatten(chunks) == [PROTO_VERSION] + Encode(frames) && forall c :: c in chunks ==> 0 < |c| < BUFSIZE
    modifies queue
    ensures outcome.Returned?
    ensures queue.items == old(queue.items) + Queries(frames)
    ensures replies == Ones(1 + |frames|) + if frames == [] then [Digit('0')] else []
  {
    hide FeedAll, Feed, Encode;
    AnswersToFrames(status, frames);
    outcome, replies := RunConnection(Current, queue, status, chunks);
  }

  lemma Fed(dialect: Dialect, status: nat -> seq<nat>, d: Decoder, e: Decoder, bytes: seq<byte>, from: nat, pos: nat)
    requires from <= pos <= |bytes| && e == FeedAll(dialect, status, d, bytes[from..pos])
    ensures FeedAll(dialect, status, e, bytes[pos..]) == FeedAll(dialect, status, d, bytes[from..])
  {
    assert bytes[from..] == bytes[from..pos] + bytes[pos..];
    FeedSplit(dialect, status, d, bytes[from..pos], bytes[pos..]);
  }

  lemma FedOne(dialect: Dialect, status: nat -> seq<nat>, d: Decoder, e: Decoder, bytes: seq<byte>, from: nat)
    requires from < |bytes| && e == Feed(dialect, status, d, bytes[from])
    ensures FeedAll(dialect, status, e, bytes[from + 1..]) == FeedAll(dialect, status, d, bytes[from..])
  {
    assert bytes[from..][1..] == bytes[from + 1..];
    FeedFirst(dialect, status, d, bytes[from..]);
  }

  lemma FedForEver(dialect: Dialect, status: nat -> seq<nat>, d: Decoder, e: Decoder, bytes: seq<byte>)
    requires bytes != [] && e == Feed(dialect, status, d, bytes[0]) && Absorbing(e.phase)
    ensures FeedAll(dialect, status, e, bytes) == FeedAll(dialect, status, d, bytes)
  {
    FeedFirst(dialect, status, d, bytes);
    FeedAbsorbed(dialect, status, e, bytes[1..]);
    FeedAbsorbed(dialect, status, e, bytes);
  }
}
