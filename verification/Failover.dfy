/** Which database server LibzdbHandler connects to, over any number of connects. */
module Failover {
  import opened Common

  /** Seconds a marked server is left alone. */
  const RETRY_AFTER: nat := 30

  /** `marks[i]` is last_error of server `i`, 0 for never; `live` says that conpool is not null. */
  datatype Db = Db(marks: seq<nat>, index: nat, live: bool)

  /** How opening the pool went: `new ConnectionPool` threw, `start` threw, or neither. */
  datatype Opening = ConstructorThrows | StartThrows | Opens

  /** What one call of `connect` meets: the answer of the ping, the clock at each place where it is read,
      and the outcome of opening the pool. */
  datatype Call = Call(pingOk: bool, faultyAt: nat, searchAt: nat, opening: Opening, failedAt: nat)

  /** What conpool->getConnection does: it gives a connection, gives a null one, or throws. */
  datatype Grant = Gives | GivesNull | Throws

  datatype Connection = Usable | Null

  // ---- one connect ---------------------------------------------------------------------------------------

  /** The test of setViableConnectionConfigIndex, in unsigned 64-bit arithmetic. */
  predicate Viable(mark: nat, now: nat) {
    mark == 0 || RETRY_AFTER < (now - mark) % WORD
  }

  function FirstViable(marks: seq<nat>, now: nat, from: nat): (r: Option<nat>)
    requires from <= |marks|
    ensures r.Some? ==> from <= r.value < |marks| && Viable(marks[r.value], now)
    ensures r.Some? ==> forall j :: from <= j < r.value ==> !Viable(marks[j], now)
    ensures r.None? ==> forall j :: from <= j < |marks| ==> !Viable(marks[j], now)
    decreases |marks| - from
  {
    if from == |marks| then None
    else if Viable(marks[from], now) then Some(from)
    else FirstViable(marks, now, from + 1)
  }

  /** setConnectionFaulty: the guard lets index 0 through and no other. */
  function MarkFaulty(marks: seq<nat>, index: nat, now: nat): seq<nat> {
    if 0 >= index && index < |marks| then marks[index := now] else marks
  }

  /** The marks the search sees: a live pool that fails its ping has been marked faulty. */
  function Searched(d: Db, c: Call): seq<nat> {
    if d.live then MarkFaulty(d.marks, d.index, c.faultyAt) else d.marks
  }

  /** The server `connect` picks, if it gets so far. */
  function Chosen(d: Db, c: Call): Option<nat> {
    if d.live && c.pingOk then None else FirstViable(Searched(d, c), c.searchAt, 0)
  }

  function Connect(d: Db, c: Call): Db {
    if d.live && c.pingOk then d
    else
      var marks := Searched(d, c);
      match Chosen(d, c)
      case None => Db(marks, d.index, false)
      case Some(i) =>
        match c.opening
        case ConstructorThrows => Db(marks[i := c.failedAt], i, false)
        case StartThrows => Db(marks[i := c.failedAt], i, true)
        case Opens => Db(marks, i, true)
  }

  /** The state between the deletion of the old pool and the search for a server. */
  function Disconnected(d: Db, c: Call): Db {
    Db(Searched(d, c), d.index, false)
  }

  /** A connect that does not keep its pool is the deletion followed by a connect from there. */
  lemma ConnectInTwoSteps(d: Db, c: Call)
    requires !(d.live && c.pingOk)
    ensures Connect(Disconnected(d, c), c) == Connect(d, c)
  {
  }

  /** The handler of the source, with one field for each of its own, one for the servers' marks, and the
      numbers of connections taken from the pool and given back. */
  class LibzdbHandler {
    var lastErrors: seq<nat>
    var dbserverindex: nat
    var conpool: bool
    var acquired: nat
    var returned: nat

    ghost function View(): Db
      reads this
    {
      Db(lastErrors, dbserverindex, conpool)
    }

    /** `garbage` is whatever the uninitialised index field holds. */
    constructor (servers: nat, garbage: nat)
      ensures View() == Db(seq(servers, _ => 0), garbage, false) && acquired == returned == 0
    {
      acquired, returned := 0, 0;
      lastErrors := seq(servers, _ => 0);
      dbserverindex := garbage;
      conpool := false;
    }

    method SetConnectionFaulty(index: nat, now: nat)
      modifies this`lastErrors
      ensures |lastErrors| == |old(lastErrors)|
      ensures index == 0 && old(lastErrors) != [] ==> lastErrors[0] == now && lastErrors[1..] == old(lastErrors)[1..]
      ensures index != 0 || old(lastErrors) == [] ==> lastErrors == old(lastErrors)
    {
      if 0 >= index && index < |lastErrors| {
        lastErrors := lastErrors[index := now];
      }
    }

    method SetViableConnectionConfigIndex(now: nat) returns (found: bool)
      modifies this`dbserverindex
      ensures found == FirstViable(lastErrors, now, 0).Some?
      ensures dbserverindex == if found then FirstViable(lastErrors, now, 0).value else old(dbserverindex)
    {
      var i := 0;
      while i != |lastErrors|
        invariant 0 <= i <= |lastErrors|
        invariant dbserverindex == old(dbserverindex)
        invariant FirstViable(lastErrors, now, 0) == FirstViable(lastErrors, now, i)
        decreases |lastErrors| - i
      {
        if 0 == lastErrors[i] || RETRY_AFTER < (now - lastErrors[i]) % WORD {
          dbserverindex := i;
          return true;
        }
        i := i + 1;
      }
      return false;
    }

    method Disconnect()
      modifies this`conpool
      ensures !conpool
    {
      if conpool {
        conpool := false;
      }
    }

    method HasConnectionPool() returns (has: bool)
      ensures has == conpool
    {
      has := conpool;
    }

    /** None stands for LibzdbHandlerNoConPoolException, into which every failure is turned. */
    method GetConnection(grant: Grant) returns (con: Option<Connection>)
      modifies this`acquired
      ensures con == if !conpool || grant.Throws? then None else Some(if grant.Gives? then Usable else Null)
      ensures acquired == old(acquired) + (if con == Some(Usable) then 1 else 0)
    {
      if conpool {
        match grant {
          case Gives =>
            acquired := acquired + 1;
            return Some(Usable);
          case GivesNull => return Some(Null);
          case Throws =>
        }
      }
      return None;
    }

    method ReturnConnection()
      modifies this`returned
      ensures returned == old(returned) + (if conpool then 1 else 0)
    {
      if conpool {
        returned := returned + 1;
      }
    }

    method ConnectTo(c: Call)
      modifies this`lastErrors, this`dbserverindex, this`conpool
      ensures View() == Connect(old(View()), c)
      ensures old(conpool) && c.pingOk ==> View() == old(View())
      ensures !(old(conpool) && c.pingOk) ==>
                var seen, chosen := Searched(old(View()), c), Chosen(old(View()), c);
                && (chosen.None? ==> lastErrors == seen && !conpool && dbserverindex == old(dbserverindex))
                && (chosen.Some? ==>
                      && dbserverindex == chosen.value < |lastErrors| == |seen|
                      && (forall k :: 0 <= k < |seen| && k != chosen.value ==> lastErrors[k] == seen[k])
                      && lastErrors[chosen.value] == (if c.opening.Opens? then seen[chosen.value] else c.failedAt)
                      && (conpool <==> !c.opening.ConstructorThrows?))
    {
      var ping := conpool && c.pingOk;
      if ping {
        return;
      }
      if conpool {
        SetConnectionFaulty(dbserverindex, c.faultyAt);
        assert lastErrors == MarkFaulty(old(lastErrors), dbserverindex, c.faultyAt);
      }
      Disconnect();
      var found := SetViableConnectionConfigIndex(c.searchAt);
      if found && dbserverindex < |lastErrors| {
        conpool := !c.opening.ConstructorThrows?;
        if !c.opening.Opens? && dbserverindex < |lastErrors| {
          lastErrors := lastErrors[dbserverindex := c.failedAt];
        }
      }
    }
  }

  // ---- runs -------------------------------------------------------------------------------------------------

  function Run(d: Db, calls: seq<Call>): Db {
    if calls == [] then d else Connect(Run(d, calls[..|calls| - 1]), calls[|calls| - 1])
  }

  /** The clock after the calls, if it read `from` before them. */
  function LastRead(from: nat, calls: seq<Call>): nat {
    if calls == [] then from else calls[|calls| - 1].failedAt
  }

  /** A positive clock that never goes back, read in the order in which the calls read it, all readings
      being at least `from` and representable. */
  predicate Clock(from: nat, calls: seq<Call>) {
    calls != [] ==>
      var init, c := calls[..|calls| - 1], calls[|calls| - 1];
      && Clock(from, init) && LastRead(from, init) <= c.faultyAt
      && 0 < c.faultyAt <= c.searchAt <= c.failedAt < WORD
  }

  /** No mark lies in the future, and a live pool belongs to a server of the list. */
  ghost predicate Sound(d: Db, now: nat) {
    (forall k :: 0 <= k < |d.marks| ==> d.marks[k] <= now) && (d.live ==> d.index < |d.marks|)
  }

  lemma ConnectKeepsSound(d: Db, now: nat, c: Call)
    requires Sound(d, now) && now <= c.faultyAt <= c.searchAt <= c.failedAt
    ensures Sound(Connect(d, c), c.failedAt) && |Connect(d, c).marks| == |d.marks|
    ensures forall k :: 0 <= k < |d.marks| ==> d.marks[k] <= Connect(d, c).marks[k]
  {
    hide Viable;
  }

  lemma {:induction false} RunKeepsSound(d: Db, from: nat, calls: seq<Call>)
    requires Sound(d, from) && Clock(from, calls)
    ensures Sound(Run(d, calls), LastRead(from, calls)) && |Run(d, calls).marks| == |d.marks|
    ensures forall k :: 0 <= k < |d.marks| ==> d.marks[k] <= Run(d, calls).marks[k]
  {
    if calls != [] {
      var init, c := calls[..|calls| - 1], calls[|calls| - 1];
      RunKeepsSound(d, from, init);
      ConnectKeepsSound(Run(d, init), LastRead(from, init), c);
    }
  }

  /** With a clock that has not gone back, a mark expires after 30 seconds and not before. */
  lemma ViableMeansExpired(mark: nat, now: nat)
    requires mark <= now < WORD
    ensures Viable(mark, now) <==> mark == 0 || now > mark + 30
  {
  }

  /** For any two clock readings: a mark lying in the future counts as expired, the difference wrapping
      around, unless it lies so far ahead that the wrapped difference is small. */
  lemma ViableExactly(mark: nat, now: nat)
    requires mark < WORD && now < WORD
    ensures Viable(mark, now) <==> mark == 0 || now > mark + 30 || now < mark < now + WORD - 30
  {
    if now < mark {
      assert (now - mark) % WORD == now - mark + WORD;
    }
  }

  /** In every run, `connect` picks the first server that is unmarked or was marked more than 30 seconds
      ago: every server before it in the list was marked within the last 30 seconds. */
  lemma ChoosesFirstExpired(d: Db, from: nat, calls: seq<Call>, c: Call)
    requires Sound(d, from) && Clock(from, calls + [c])
    requires Chosen(Run(d, calls), c).Some?
    ensures var marks := Searched(Run(d, calls), c);
            var i := Chosen(Run(d, calls), c).value;
            && i < |marks|
            && (marks[i] == 0 || c.searchAt > marks[i] + 30)
            && (forall j :: 0 <= j < i ==> marks[j] != 0 && marks[j] <= c.searchAt <= marks[j] + 30)
  {
    ClockPrefix(from, calls, c);
    RunKeepsSound(d, from, calls);
    hide Viable;
    var marks := Searched(Run(d, calls), c);
    var i := Chosen(Run(d, calls), c).value;
    forall j | 0 <= j <= i
      ensures marks[j] <= c.searchAt
      ensures Viable(marks[j], c.searchAt) <==> marks[j] == 0 || c.searchAt > marks[j] + 30
    {
      ViableMeansExpired(marks[j], c.searchAt);
    }
  }

  lemma ClockPrefix(from: nat, calls: seq<Call>, c: Call)
    requires Clock(from, calls + [c])
    ensures Clock(from, calls) && LastRead(from, calls) <= c.faultyAt
    ensures 0 < c.faultyAt <= c.searchAt <= c.failedAt < WORD
  {
    assert (calls + [c])[..|calls|] == calls;
  }

  /** A server marked at time `t` is not picked again before `t` + 30 has passed, whatever happens in
      between. */
  lemma MarkedServerIsLeftAlone(d: Db, from: nat, k: nat, calls: seq<Call>, c: Call)
    requires Sound(d, from) && Clock(from, calls + [c])
    requires k < |d.marks| && d.marks[k] > 0
    requires Chosen(Run(d, calls), c) == Some(k)
    ensures c.searchAt > d.marks[k] + 30
  {
    ClockPrefix(from, calls, c);
    RunKeepsSound(d, from, calls);
    ChoosesFirstExpired(d, from, calls, c);
  }

  /** A server whose opening failed is marked with the time of the failure, and no other mark changes; a
      server that opened keeps its mark. */
  lemma FailedOpeningIsMarked(d: Db, c: Call)
    requires Chosen(d, c).Some?
    ensures var marks, i := Connect(d, c).marks, Chosen(d, c).value;
            && i < |marks| == |d.marks|
            && marks[i] == (if c.opening.Opens? then Searched(d, c)[i] else c.failedAt)
            && (forall k :: 0 <= k < |marks| && k != i ==> marks[k] == Searched(d, c)[k])
  {
    hide Viable;
  }

  /** In every run, a server whose opening failed at time `t`, whether building the pool object threw or
      starting it, is not picked again before `t` + 30 has passed, whatever happens in between. */
  lemma FailedOpeningIsLeftAlone(d: Db, from: nat, c: Call, between: seq<Call>, again: Call)
    requires Sound(d, from) && Clock(from, [c]) && Clock(c.failedAt, between + [again])
    requires Chosen(d, c).Some? && !c.opening.Opens?
    requires Chosen(Run(Connect(d, c), between), again) == Chosen(d, c)
    ensures again.searchAt > c.failedAt + 30
  {
    hide Viable, Connect, Searched, Run;
    ClockPrefix(from, [], c);
    assert [] + [c] == [c];
    ConnectKeepsSound(d, from, c);
    FailedOpeningIsMarked(d, c);
    MarkedServerIsLeftAlone(Connect(d, c), c.failedAt, Chosen(d, c).value, between, again);
  }

  /** From the start, in every run, a live pool belongs to a server of the list, whatever the index field
      held before it was set. */
  lemma LivePoolHasAServer(servers: nat, garbage: nat, calls: seq<Call>)
    requires Clock(0, calls)
    ensures var d := Run(Db(seq(servers, _ => 0), garbage, false), calls);
            |d.marks| == servers && (d.live ==> d.index < servers)
  {
    RunKeepsSound(Db(seq(servers, _ => 0), garbage, false), 0, calls);
  }

  /** A failed ping marks the server it was sent to if and only if that is the first of the list. */
  lemma FailedPingMarksOnlyTheFirst(d: Db, c: Call)
    requires d.live && d.index < |d.marks| && c.faultyAt > d.marks[d.index]
    ensures Searched(d, c)[d.index] == c.faultyAt <==> d.index == 0
  {
  }

  /** So the server that has just failed its ping is picked again in the same call if and only if it is
      not the first of the list, its own old mark has expired, and so has none before it. */
  lemma FailedServerPickedAgainIff(d: Db, from: nat, c: Call)
    requires Sound(d, from) && Clock(from, [c]) && d.live && !c.pingOk && c.searchAt <= c.faultyAt + 30
    ensures Chosen(d, c) == Some(d.index) <==>
      && d.index != 0
      && (d.marks[d.index] == 0 || c.searchAt > d.marks[d.index] + 30)
      && (forall j :: 0 <= j < d.index ==> d.marks[j] != 0 && c.searchAt <= d.marks[j] + 30)
  {
    hide Viable;
    ClockPrefix(from, [], c);
    assert [] + [c] == [c];
    var marks := Searched(d, c);
    forall j | 0 <= j < |marks|
      ensures Viable(marks[j], c.searchAt) <==> marks[j] == 0 || c.searchAt > marks[j] + 30
    {
      ViableMeansExpired(marks[j], c.searchAt);
    }
  }
}
