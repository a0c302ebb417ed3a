/** The text of a status reply, its one-byte length prefix, and what a client reads back. */
module StatusReply {
  import opened Common
  import opened FrameDecoder

  /** What one thread pool reports. */
  datatype PoolCounters = PoolCounters(threads: nat, running: nat, queued: nat, total: nat)

  /** What the connection pool reports. */
  datatype Connections = Connections(max: nat, active: nat)

  // ---- decimals ------------------------------------------------------------------------------------------

  function DigitOf(d: nat): char
    requires d < 10
  {
    '0' + d as char
  }

  function Decimal(n: nat): string {
    if n < 10 then [DigitOf(n)] else Decimal(n / 10) + [DigitOf(n % 10)]
  }

  predicate IsDigit(c: char) {
    '0' <= c <= '9'
  }

  predicate AllDigits(s: string) {
    forall i :: 0 <= i < |s| ==> IsDigit(s[i])
  }

  /** The number a string of digits denotes; leading zeros are allowed, other characters are not. */
  function ReadDecimal(s: string): Option<nat> {
    if s == "" || !AllDigits(s) then None else Some(Value(s))
  }

  function Value(s: string): nat
    requires AllDigits(s)
  {
    if s == "" then 0 else 10 * Value(s[..|s| - 1]) + (s[|s| - 1] - '0') as nat
  }

  lemma {:induction false} DecimalReadsBack(n: nat)
    ensures Decimal(n) != "" && AllDigits(Decimal(n)) && Value(Decimal(n)) == n
  {
    if n >= 10 {
      DecimalReadsBack(n / 10);
      assert Decimal(n)[..|Decimal(n)| - 1] == Decimal(n / 10);
    } else {
      assert Decimal(n)[..0] == "";
    }
  }

  function Power10(k: nat): nat {
    if k == 0 then 1 else 10 * Power10(k - 1)
  }

  lemma {:induction false} DecimalLength(n: nat, k: nat)
    requires k >= 1 && n < Power10(k)
    ensures |Decimal(n)| <= k
  {
    if n >= 10 {
      assert Power10(0) == 1 && Power10(1) == 10;
      DecimalLength(n / 10, k - 1);
    }
  }

  lemma WordIsTenDigits(n: nat)
    requires n < 0x1_0000_0000
    ensures |Decimal(n)| <= 10
  {
    assert Power10(5) == 100000;
    assert Power10(10) == 10 * 10 * 10 * 10 * 10 * Power10(5);
    DecimalLength(n, 10);
  }

  // ---- fields ----------------------------------------------------------------------------------------------

  function Join(values: seq<nat>): string {
    if values == [] then ""
    else if |values| == 1 then Decimal(values[0])
    else Join(values[..|values| - 1]) + ";" + Decimal(values[|values| - 1])
  }

  /** explode(";", text) */
  function Explode(text: string): (fields: seq<string>)
    ensures fields != []
  {
    if text == "" then [""]
    else
      var fields, c := Explode(text[..|text| - 1]), text[|text| - 1];
      if c == ';' then fields + [""]
      else fields[..|fields| - 1] + [fields[|fields| - 1] + [c]]
  }

  lemma ExplodeOneMore(text: string, c: char)
    requires c != ';'
    ensures var fields := Explode(text);
            Explode(text + [c]) == fields[..|fields| - 1] + [fields[|fields| - 1] + [c]]
  {
    assert (text + [c])[..|text|] == text;
  }

  lemma {:induction false} ExplodeMore(text: string, word: string)
    requires ';' !in word
    ensures var fields := Explode(text);
            Explode(text + word) == fields[..|fields| - 1] + [fields[|fields| - 1] + word]
  {
    hide Explode;
    var fields := Explode(text);
    var n := |fields| - 1;
    if word == "" {
      assert text + word == text && fields[n] + word == fields[n];
    } else {
      var init, c := word[..|word| - 1], word[|word| - 1];
      assert c in word;
      ExplodeMore(text, init);
      ExplodeOneMore(text + init, c);
      assert text + word == text + init + [c];
      assert fields[n] + init + [c] == fields[n] + word;
    }
  }

  function Decimals(values: seq<nat>): seq<string> {
    seq(|values|, i requires 0 <= i < |values| => Decimal(values[i]))
  }

  lemma ExplodeSeparator(text: string)
    ensures Explode(text + ";") == Explode(text) + [""]
  {
    assert (text + ";")[..|text|] == text;
  }

  lemma DecimalHasNoSeparator(n: nat)
    ensures ';' !in Decimal(n)
  {
    DecimalReadsBack(n);
    assert !IsDigit(';');
  }

  lemma ExplodeNothing()
    ensures Explode("") == [""]
  {
  }

  /** One more field behind a separator. */
  lemma ExplodeField(text: string, word: string)
    requires ';' !in word
    ensures Explode(text + ";" + word) == Explode(text) + [word]
  {
    hide Explode;
    ExplodeSeparator(text);
    ExplodeMore(text + ";", word);
    assert "" + word == word;
  }

  lemma {:induction false} ExplodeJoin(values: seq<nat>)
    requires values != []
    ensures Explode(Join(values)) == Decimals(values)
  {
    hide Explode, Decimal;
    var n := |values| - 1;
    var last := Decimal(values[n]);
    DecimalHasNoSeparator(values[n]);
    if n == 0 {
      ExplodeNothing();
      ExplodeMore("", last);
      assert "" + last == last && Decimals(values) == [last];
    } else {
      ExplodeJoin(values[..n]);
      ExplodeField(Join(values[..n]), last);
      assert Decimals(values) == Decimals(values[..n]) + [last];
    }
  }

  lemma {:induction false} JoinLength(values: seq<nat>)
    requires values != [] && forall i :: 0 <= i < |values| ==> values[i] < 0x1_0000_0000
    ensures |Join(values)| <= 11 * |values| - 1
  {
    var n := |values| - 1;
    WordIsTenDigits(values[n]);
    if n > 0 {
      JoinLength(values[..n]);
    }
  }

  function ReadAll(fields: seq<string>): Option<seq<nat>> {
    if fields == [] then Some([])
    else match (ReadAll(fields[..|fields| - 1]), ReadDecimal(fields[|fields| - 1]))
      case (Some(values), Some(v)) => Some(values + [v])
      case _ => None
  }

  lemma {:induction false} ReadAllDecimals(values: seq<nat>)
    ensures ReadAll(Decimals(values)) == Some(values)
  {
    if values != [] {
      var n := |values| - 1;
      ReadAllDecimals(values[..n]);
      DecimalReadsBack(values[n]);
      assert Decimals(values)[..n] == Decimals(values[..n]);
      assert values[..n] + [values[n]] == values;
    }
  }

  // ---- the reply -----------------------------------------------------------------------------------------------

  /** What the handler streams for one pool: four numbers, or four zeros if it was given none. */
  function PoolText(pool: Option<PoolCounters>): string {
    match pool
    case Some(p) => Decimal(p.threads) + ";" + Decimal(p.running) + ";" + Decimal(p.queued) + ";" + Decimal(p.total)
    case None => "0;0;0;0"
  }

  /** The text of N_STATUS as it is streamed, for any of the four sources missing. */
  function StatusText(
      queue: Option<nat>, database: Option<Connections>, clients: Option<PoolCounters>, tasks: Option<PoolCounters>): string
  {
    (match queue case Some(size) => Decimal(size) case None => "0") + ";" +
    (match database case Some(d) => Decimal(d.max) + ";" + Decimal(d.active) case None => "0;0") + ";" +
    PoolText(clients) + ";" + PoolText(tasks)
  }

  function PoolValues(pool: Option<PoolCounters>): seq<nat> {
    match pool
    case Some(p) => [p.threads, p.running, p.queued, p.total]
    case None => [0, 0, 0, 0]
  }

  /** The eleven counters, zeros standing for a missing source. */
  function StatusValues(
      queue: Option<nat>, database: Option<Connections>, clients: Option<PoolCounters>, tasks: Option<PoolCounters>): seq<nat>
  {
    [match queue case Some(size) => size case None => 0] +
    (match database case Some(d) => [d.max, d.active] case None => [0, 0]) +
    PoolValues(clients) + PoolValues(tasks)
  }

  lemma JoinLast(values: seq<nat>, last: nat)
    requires values != []
    ensures Join(values + [last]) == Join(values) + ";" + Decimal(last)
  {
    hide Decimal;
    assert (values + [last])[..|values|] == values;
  }

  lemma {:induction false} JoinSplit(xs: seq<nat>, ys: seq<nat>)
    requires xs != [] && ys != []
    ensures Join(xs + ys) == Join(xs) + ";" + Join(ys)
  {
    hide Decimal, Join;
    var n := |ys| - 1;
    if n == 0 {
      JoinOne(ys[0]);
      JoinLast(xs, ys[0]);
      assert ys == [ys[0]];
    } else {
      JoinSplit(xs, ys[..n]);
      JoinLast(xs + ys[..n], ys[n]);
      JoinLast(ys[..n], ys[n]);
      assert xs + ys == (xs + ys[..n]) + [ys[n]];
      assert ys == ys[..n] + [ys[n]];
      var u, v, w := Join(xs), Join(ys[..n]), Decimal(ys[n]);
      assert u + ";" + v + ";" + w == u + ";" + (v + ";" + w);
    }
  }

  lemma JoinTwo(a: nat, b: nat)
    ensures Join([a, b]) == Decimal(a) + ";" + Decimal(b)
  {
    JoinSplit([a], [b]);
    assert [a] + [b] == [a, b];
  }

  lemma FourJoined(a: nat, b: nat, c: nat, d: nat)
    ensures Join([a, b, c, d]) == Decimal(a) + ";" + Decimal(b) + ";" + Decimal(c) + ";" + Decimal(d)
  {
    hide Join, Decimal;
    JoinTwo(a, b);
    JoinTwo(c, d);
    JoinSplit([a, b], [c, d]);
    assert [a, b] + [c, d] == [a, b, c, d];
  }

  lemma PoolTextIsJoin(pool: Option<PoolCounters>)
    ensures PoolText(pool) == Join(PoolValues(pool))
  {
    hide Join, Decimal;
    match pool
    case Some(p) => FourJoined(p.threads, p.running, p.queued, p.total);
    case None =>
      ZeroText();
      FourJoined(0, 0, 0, 0);
  }

  lemma StatusTextJoins(
      queue: Option<nat>, database: Option<Connections>, clients: Option<PoolCounters>, tasks: Option<PoolCounters>)
    ensures StatusText(queue, database, clients, tasks) == Join(StatusValues(queue, database, clients, tasks))
    ensures |StatusValues(queue, database, clients, tasks)| == 11
  {
    hide PoolText, Join, Decimal, PoolValues;
    var q := [match queue case Some(size) => size case None => 0];
    var d := match database case Some(d) => [d.max, d.active] case None => [0, 0];
    ZeroText();
    JoinOne(q[0]);
    JoinTwo(d[0], d[1]);
    assert d == [d[0], d[1]];
    PoolTextIsJoin(clients);
    PoolTextIsJoin(tasks);
    PoolHasFour(clients);
    PoolHasFour(tasks);
    JoinFour(q, d, PoolValues(clients), PoolValues(tasks));
  }

  /** The streamed text holds, joined by semicolons: the queue size; the maximum and the active
      connections; threads, running, queued and total of the client pool; the same of the pool of database
      tasks.  The counters of a missing source are 0. */
  lemma StatusTextIsJoin(
      queue: Option<nat>, database: Option<Connections>, clients: Option<PoolCounters>, tasks: Option<PoolCounters>)
    ensures StatusText(queue, database, clients, tasks) ==
      Join([if queue.Some? then queue.value else 0,
            if database.Some? then database.value.max else 0,
            if database.Some? then database.value.active else 0,
            if clients.Some? then clients.value.threads else 0,
            if clients.Some? then clients.value.running else 0,
            if clients.Some? then clients.value.queued else 0,
            if clients.Some? then clients.value.total else 0,
            if tasks.Some? then tasks.value.threads else 0,
            if tasks.Some? then tasks.value.running else 0,
            if tasks.Some? then tasks.value.queued else 0,
            if tasks.Some? then tasks.value.total else 0])
  {
    hide StatusText, Join;
    StatusTextJoins(queue, database, clients, tasks);
    assert StatusValues(queue, database, clients, tasks) ==
           [if queue.Some? then queue.value else 0,
            if database.Some? then database.value.max else 0,
            if database.Some? then database.value.active else 0,
            if clients.Some? then clients.value.threads else 0,
            if clients.Some? then clients.value.running else 0,
            if clients.Some? then clients.value.queued else 0,
            if clients.Some? then clients.value.total else 0,
            if tasks.Some? then tasks.value.threads else 0,
            if tasks.Some? then tasks.value.running else 0,
            if tasks.Some? then tasks.value.queued else 0,
            if tasks.Some? then tasks.value.total else 0];
  }

  lemma ZeroText()
    ensures Decimal(0) == "0" && "0;0" == "0" + ";" + "0"
  {
  }

  lemma PoolHasFour(pool: Option<PoolCounters>)
    ensures |PoolValues(pool)| == 4
  {
  }

  lemma JoinFour(a: seq<nat>, b: seq<nat>, c: seq<nat>, d: seq<nat>)
    requires a != [] && b != [] && c != [] && d != []
    ensures Join(a + b + c + d) == Join(a) + ";" + Join(b) + ";" + Join(c) + ";" + Join(d)
  {
    hide Join;
    JoinSplit(a, b);
    JoinSplit(a + b, c);
    JoinSplit(a + b + c, d);
  }

  lemma JoinOne(a: nat)
    ensures Join([a]) == Decimal(a)
  {
  }

  /** A char of the wire read as a signed byte, as unpack("c") does. */
  function SignedByte(c: char): int {
    if c as int < 128 then c as int else c as int - 256
  }

  /** The bytes sent: the length cut down to one byte, then the text. */
  function Message(text: string): string {
    [(|text| % 256) as char] + text
  }

  /** The client reads the prefix, then that many bytes, then the fields. */
  function ClientReads(message: string): Option<string> {
    if message == "" then None
    else
      var n := SignedByte(message[0]);
      if 0 <= n < |message| then Some(message[1..1 + n]) else None
  }

  /** The client recovers the whole text if and only if the text has at most 127 bytes. */
  lemma PrefixFitsIff(text: string)
    ensures ClientReads(Message(text)) == Some(text) <==> |text| <= 127
  {
    var n := SignedByte(Message(text)[0]);
    if |text| <= 127 {
      assert Message(text)[1..1 + |text|] == text;
    } else if 0 <= n < |Message(text)| {
      assert |Message(text)[1..1 + n]| == n < |text|;
    }
  }

  /** The bytes of any reply of the decoder. */
  function Wire(r: Reply): string {
    match r
    case Digit(d) => [d]
    case Status(values) => Message(Join(values))
  }

  /** The bytes of all replies. */
  function WireAll(replies: seq<Reply>): string {
    if replies == [] then "" else WireAll(replies[..|replies| - 1]) + Wire(replies[|replies| - 1])
  }

  // ---- what any client can read from a status reply ----------------------------------------------------

  /** A string of digits is at least as long as the decimal of its value. */
  lemma {:induction false} DecimalIsShortest(s: string)
    requires s != "" && AllDigits(s)
    ensures |Decimal(Value(s))| <= |s|
  {
    var init := s[..|s| - 1];
    if init == "" {
      assert Value(init) == 0;
    } else {
      DecimalIsShortest(init);
      assert Value(s) / 10 == Value(init);
    }
  }

  /** The length of the fields with a separator between each two. */
  function TextLength(fields: seq<string>): nat {
    if fields == [] then 0
    else
      var last := |fields| - 1;
      |fields[last]| + (if last == 0 then 0 else TextLength(fields[..last]) + 1)
  }

  lemma {:induction false} ExplodeKeepsLength(text: string)
    ensures TextLength(Explode(text)) == |text|
  {
    if text != "" {
      var init, c := text[..|text| - 1], text[|text| - 1];
      var fields := Explode(init);
      var last := |fields| - 1;
      ExplodeKeepsLength(init);
      if c == ';' {
        assert (fields + [""])[..|fields|] == fields;
      } else {
        assert (fields[..last] + [fields[last] + [c]])[..last] == fields[..last];
      }
    }
  }

  lemma {:induction false} ReadNeedsLength(fields: seq<string>, values: seq<nat>)
    requires fields != [] && ReadAll(fields) == Some(values)
    ensures |values| == |fields| && |Join(values)| <= TextLength(fields)
  {
    hide Decimal, Value;
    var last := |fields| - 1;
    DecimalIsShortest(fields[last]);
    var v := values[|values| - 1];
    var init := values[..|values| - 1];
    assert ReadAll(fields[..last]) == Some(init) && ReadDecimal(fields[last]) == Some(v);
    if last == 0 {
      assert fields[..last] == [] && init == [];
    } else {
      ReadNeedsLength(fields[..last], init);
    }
  }

  /** What the client makes of a message: the numbers between the semicolons. */
  function ClientValues(message: string): Option<seq<nat>> {
    match ClientReads(message)
    case None => None
    case Some(text) => ReadAll(Explode(text))
  }

  /** The client obtains the values of a status reply if and only if their text fits the signed prefix:
      no shorter text would give it the same values. */
  lemma WireReadsBack(values: seq<nat>)
    requires values != []
    ensures ClientValues(Wire(Status(values))) == Some(values) <==> |Join(values)| <= 127
  {
    hide Message, ClientReads, Explode, ReadAll, Join;
    var text := Join(values);
    PrefixFitsIff(text);
    if |text| <= 127 {
      ExplodeJoin(values);
      ReadAllDecimals(values);
    } else {
      var read := ClientReads(Message(text));
      ReadIsShort(text);
      if read.Some? && ReadAll(Explode(read.value)) == Some(values) {
        ExplodeKeepsLength(read.value);
        ReadNeedsLength(Explode(read.value), values);
      }
    }
  }

  lemma ReadIsShort(text: string)
    ensures ClientReads(Message(text)).Some? ==> |ClientReads(Message(text)).value| <= 127
  {
  }

  // ---- the counters, position by position -----------------------------------------------------------------

  predicate SmallPool(pool: Option<PoolCounters>) {
    pool.Some? ==>
      && pool.value.threads < 0x1_0000_0000 && pool.value.running < 0x1_0000_0000
      && pool.value.queued < 0x1_0000_0000 && pool.value.total < 0x1_0000_0000
  }

  /** With every counter below 2^32 the text has at most 120 bytes, and the client reads back eleven
      numbers, each counter at its place, and 0 at the places of a missing source. */
  lemma StatusRoundTrip(
      queue: Option<nat>, database: Option<Connections>, clients: Option<PoolCounters>, tasks: Option<PoolCounters>)
    requires queue.Some? ==> queue.value < 0x1_0000_0000
    requires database.Some? ==> database.value.max < 0x1_0000_0000 && database.value.active < 0x1_0000_0000
    requires SmallPool(clients) && SmallPool(tasks)
    ensures var text := StatusText(queue, database, clients, tasks);
            var read := ClientValues(Message(text));
            && |text| <= 120 && read.Some? && |read.value| == 11
            && (queue.Some? ==> read.value[0] == queue.value)
            && (database.Some? ==> read.value[1] == database.value.max && read.value[2] == database.value.active)
            && (clients.Some? ==>
                  && read.value[3] == clients.value.threads && read.value[4] == clients.value.running
                  && read.value[5] == clients.value.queued && read.value[6] == clients.value.total)
            && (tasks.Some? ==>
                  && read.value[7] == tasks.value.threads && read.value[8] == tasks.value.running
                  && read.value[9] == tasks.value.queued && read.value[10] == tasks.value.total)
            && (queue.None? ==> read.value[0] == 0)
            && (database.None? ==> read.value[1] == read.value[2] == 0)
            && (clients.None? ==> read.value[3] == read.value[4] == read.value[5] == read.value[6] == 0)
            && (tasks.None? ==> read.value[7] == read.value[8] == read.value[9] == read.value[10] == 0)
  {
    hide StatusText, Message, ClientReads, Explode, ReadAll, Join, ClientValues;
    StatusTextJoins(queue, database, clients, tasks);
    var values := StatusValues(queue, database, clients, tasks);
    JoinLength(values);
    WireReadsBack(values);
  }
}
