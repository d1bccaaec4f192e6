/**
 * The Redis server as the services use it: one keyspace of strings, lists
 * (of `T`, the documents a caller pushes) and sorted sets, with optional
 * expiry deadlines. A string that a service writes as the JSON text of a
 * list of `T` is kept as that list, and GET hands the list back. Each
 * command is one atomic step; the clock is a parameter, and a key whose
 * deadline has passed reads as absent. Commands on a key of the wrong kind,
 * and INCR/DECR on a string that is not an integer, answer `Error`, as the
 * server does. A command whose argument redis-py cannot encode never leaves
 * the client: it raises DataError, a RedisError, and changes nothing.
 */
module KeyValue {
  import opened Common

  datatype RValue<T> =
    | Str(s: string)
    | Json(doc: seq<T>)        // a string holding the JSON text of `doc`
    | List(items: seq<T>)
    | ZSet(scores: map<string, Time>)

  /** The whole keyspace: values and the deadlines of keys that expire. */
  datatype Db<T> = Db(data: map<string, RValue<T>>, deadline: map<string, Time>)

  /** The commands the services send. */
  datatype Cmd<T> =
    | Get(key: string)
    | IncrBy(key: string, delta: int)      // INCR, DECR
    | Set(key: string, s: string)
    | SetEx(key: string, ttl: int, doc: seq<T>)   // of a JSON document
    | Del(key: string)
    | LPush(key: string, item: T)
    | Expire(key: string, secs: int)
    | ZAdd(key: string, member: string, score: Option<Time>)   // None: not a number
    | Refused(key: string)   // redis-py's encoder refused an argument (DataError)

  /** The server's answer; `Error` is raised by the client as a RedisError. */
  datatype Reply<T> = Ok | Int(n: int) | Bulk(s: Option<string>) | Doc(doc: seq<T>) | Error

  // ---------------------------------------------------------------------
  // The integer reading INCR and DECR apply to strings
  // ---------------------------------------------------------------------

  /** The natural number a string of digits spells without leading zeros. */
  function NatValue(s: string): (r: Option<nat>)
    ensures r.Some? ==> NatText(r.value) == s
  {
    if AllDigits(s) && NatText(DigitsValue(s)) == s then Some(DigitsValue(s)) else None
  }

  /** The integer a string spells in canonical decimal, or `None`. */
  function IntValue(s: string): (r: Option<int>)
    ensures r.Some? ==> IntText(r.value) == s
  {
    if |s| >= 1 && s[0] != '-' then
      match NatValue(s)
      case Some(v) => Some(v)
      case None => None
    else if |s| >= 2 && s[0] == '-' then
      match NatValue(s[1..])
      case Some(v) =>
        if v > 0 then
          assert s == "-" + s[1..];
          Some(-(v as int))
        else None
      case None => None
    else None
  }

  /** Reading back what `str(i)` wrote gives `i`, and only the canonical
      spelling of `i` is read as `i`. */
  lemma IntValueExact(s: string, i: int)
    ensures IntValue(s) == Some(i) <==> IntText(i) == s
  {
    if IntText(i) == s {
      if i >= 0 {
        NatTextReadsBack(i);
      } else {
        NatValueOfText(-i);
        NegativeTextReadsBack(NatText(-i), -i);
      }
    }
  }

  /** Python's `int` reads every canonical integer as the server does (and
      reads more spellings besides). */
  lemma PyIntExtendsIntValue(s: string)
    ensures IntValue(s).Some? ==> PyInt(s) == IntValue(s)
  {
    if IntValue(s).Some? {
      IntValueExact(s, IntValue(s).value);
      PyIntOfIntText(IntValue(s).value);
    }
  }

  lemma NatValueOfText(n: nat)
    ensures NatValue(NatText(n)) == Some(n)
  {
    DigitsOfNatText(n);
  }

  lemma NatTextReadsBack(n: nat)
    ensures IntValue(NatText(n)) == Some(n)
  {
    NatValueOfText(n);
  }

  lemma NegativeTextReadsBack(t: string, n: nat)
    requires n > 0 && NatValue(t) == Some(n)
    ensures IntValue("-" + t) == Some(-(n as int))
  {
    DropSign(t);
    IntValueOfNegative("-" + t);
  }

  lemma DropSign(t: string)
    ensures |"-" + t| >= 1 && ("-" + t)[0] == '-' && ("-" + t)[1..] == t
  {
  }

  lemma IntValueOfNegative(s: string)
    requires |s| >= 2 && s[0] == '-'
    ensures IntValue(s) == match NatValue(s[1..])
      case Some(v) => if v > 0 then Some(-(v as int)) else None
      case None => None
  {
  }

  // ---------------------------------------------------------------------
  // The server
  // ---------------------------------------------------------------------

  /** The key's value at time `now`, unless it is missing or has expired. */
  function Current<T>(db: Db<T>, key: string, now: Time): (v: Option<RValue<T>>)
    ensures v.Some? ==> key in db.data && v.value == db.data[key]
  {
    if key in db.data && (key !in db.deadline || now < db.deadline[key]) then Some(db.data[key]) else None
  }

  /** What INCRBY `delta` makes of the key's current value. */
  function Added<T>(cur: Option<RValue<T>>, delta: int): (r: Option<int>)
    ensures cur.None? ==> r == Some(delta)
    ensures cur.Some? && cur.value.Str? && IntValue(cur.value.s).Some? ==> r == Some(IntValue(cur.value.s).value + delta)
    ensures r.Some? ==> cur.None? || (cur.value.Str? && IntValue(cur.value.s).Some?)
  {
    match cur
    case None => Some(delta)
    case Some(Str(s)) => if IntValue(s).Some? then Some(IntValue(s).value + delta) else None
    case Some(_) => None
  }

  /** The integer a counter key reads as: its value, 0 when absent. */
  function Count<T>(db: Db<T>, key: string, now: Time): int
  {
    match Current(db, key, now)
    case Some(Str(s)) => if IntValue(s).Some? then IntValue(s).value else 0
    case _ => 0
  }

  /** One command's effect and reply. An expired key is dropped before the
      command sees it; a write to a undated key starts without a deadline. */
  function Apply<T>(db: Db<T>, cmd: Cmd<T>, now: Time): (out: (Db<T>, Reply<T>))
    ensures out.1 == Error ==> out.0 == db
    ensures forall k :: k != cmd.key ==> Current(out.0, k, now) == Current(db, k, now)
  {
    var cur := Current(db, cmd.key, now);
    var undated := db.deadline - {cmd.key};
    match cmd
    case Get(key) =>
      if cur.None? then (db, Bulk(None))
      else if cur.value.Str? then (db, Bulk(Some(cur.value.s)))
      else if cur.value.Json? then (db, Doc(cur.value.doc))
      else (db, Error)
    case IncrBy(key, delta) =>
      var n := Added(cur, delta);
      if n.None? then (db, Error)
      else (Db(db.data[key := Str(IntText(n.value))], if cur.None? then undated else db.deadline), Int(n.value))
    case Set(key, s) => (Db(db.data[key := Str(s)], undated), Ok)
    case SetEx(key, ttl, doc) =>
      if ttl <= 0 then (db, Error)
      else (Db(db.data[key := Json(doc)], db.deadline[key := now + ttl]), Ok)
    case Del(key) => (Db(db.data - {key}, undated), Int(if cur.Some? then 1 else 0))
    case LPush(key, item) =>
      if cur.None? then (Db(db.data[key := List([item])], undated), Int(1))
      else if cur.value.List? then (Db(db.data[key := List([item] + cur.value.items)], db.deadline), Int(|cur.value.items| + 1))
      else (db, Error)
    case Expire(key, secs) =>
      if cur.None? then (db, Int(0))
      else (Db(db.data, db.deadline[key := now + secs]), Int(1))
    case ZAdd(key, member, score) =>
      if score.None? then (db, Error)
      else if cur.None? then (Db(db.data[key := ZSet(map[member := score.value])], undated), Int(1))
      else if cur.value.ZSet? then
        (Db(db.data[key := ZSet(cur.value.scores[member := score.value])], db.deadline),
         Int(if member in cur.value.scores then 0 else 1))
      else (db, Error)
    case Refused(_) => (db, Error)
  }

  /** A Redis server the services share. */
  class RedisStore<T> {
    var db: Db<T>

    constructor ()
      ensures db == Db(map[], map[])
    {
      db := Db(map[], map[]);
    }

    /** Sends one command; the server applies it atomically. */
    method Exec(cmd: Cmd<T>, now: Time) returns (reply: Reply<T>)
      modifies this
      ensures (db, reply) == Apply(old(db), cmd, now)
    {
      var out := Apply(db, cmd, now);
      db := out.0;
      reply := out.1;
    }
  }

  /** An INCR on a counter adds one to what it reads, and a DECR takes one
      away; neither touches another key. */
  lemma IncrCounts<T>(db: Db<T>, key: string, delta: int, now: Time)
    requires Apply(db, IncrBy(key, delta), now).1 != Error
    ensures Count(Apply(db, IncrBy(key, delta), now).0, key, now) == Count(db, key, now) + delta
  {
    var n := Added(Current(db, key, now), delta).value;
    IntValueExact(IntText(n), n);
  }

  /** DECR followed by INCR leaves a counter reading what it read before. */
  lemma DecrIncrRestores<T>(db: Db<T>, key: string, now: Time)
    requires Apply(db, IncrBy(key, -1), now).1 != Error
    ensures var mid := Apply(db, IncrBy(key, -1), now).0;
      && Apply(mid, IncrBy(key, 1), now).1 != Error
      && Count(Apply(mid, IncrBy(key, 1), now).0, key, now) == Count(db, key, now)
  {
    var mid := Apply(db, IncrBy(key, -1), now).0;
    var n := Added(Current(db, key, now), -1).value;
    IntValueExact(IntText(n), n);
    IncrCounts(db, key, -1, now);
    IncrCounts(mid, key, 1, now);
  }

  // ---------------------------------------------------------------------
  // A client sending several commands in turn
  // ---------------------------------------------------------------------

  /** How a run of commands ends: every command answered, or the command
      with index `at` raised (the server was unreachable or replied with an
      error) and the rest were not sent. */
  datatype RunEnd = Completed | FailedAt(at: nat)

  /** Sends `cmds` in order; `unreachable(i)` says whether the send with index
      `i` fails to reach the server. */
  function Run<T>(db: Db<T>, cmds: seq<Cmd<T>>, now: Time, unreachable: nat -> bool, from: nat): (out: (Db<T>, RunEnd))
    ensures out.1.FailedAt? ==> from <= out.1.at < from + |cmds|
    decreases |cmds|
  {
    if cmds == [] then (db, Completed)
    else if unreachable(from) then (db, FailedAt(from))
    else
      var step := Apply(db, cmds[0], now);
      if step.1 == Error then (db, FailedAt(from))
      else Run(step.0, cmds[1..], now, unreachable, from + 1)
  }

  /** Sending the command with index `i` of a run: it stops the run there, or
      the run goes on from the state it leaves. */
  lemma RunStep<T>(db: Db<T>, cmds: seq<Cmd<T>>, now: Time, unreachable: nat -> bool, i: nat)
    requires i < |cmds|
    ensures Run(db, cmds[i..], now, unreachable, i) ==
      if unreachable(i) || Apply(db, cmds[i], now).1 == Error then (db, FailedAt(i))
      else Run(Apply(db, cmds[i], now).0, cmds[i + 1..], now, unreachable, i + 1)
  {
    assert cmds[i..][1..] == cmds[i + 1..];
  }
}
