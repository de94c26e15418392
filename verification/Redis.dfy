/**
 Redis as far as the service uses it: string keys with an expiry time, and the five Lua
 scripts, each executed atomically. The functions say what a script does to the key space;
 the class runs the same scripts command by command.
 */
module Redis {
  import opened Options

  datatype Value = Number(n: nat) | Token(t: string)

  datatype Entry = Entry(value: Value, expireAt: real)

  type Db = map<string, Entry>

  predicate Live(db: Db, now: real, key: string) {
    key in db && now < db[key].expireAt
  }

  function Get(db: Db, now: real, key: string): Option<Value> {
    if Live(db, now, key) then Some(db[key].value) else None
  }

  function SetEx(db: Db, now: real, key: string, value: Value, ttl: int): Db {
    db[key := Entry(value, now + ttl as real)]
  }

  function Expire(db: Db, now: real, key: string, ttl: int): Db {
    if Live(db, now, key) then db[key := db[key].(expireAt := now + ttl as real)] else db
  }

  // ScriptError: the stored string is no number, and the comparison in the script fails.
  datatype PrepareReply =
    | PreCheckOk(expected: nat)
    | Idempotent(expected: nat)
    | OutOfOrder(expected: nat)
    | ScriptError

  function PrepareReplyTo(current: Option<Value>, incoming: nat): PrepareReply {
    match current
    case None => if incoming == 0 then PreCheckOk(0) else OutOfOrder(0)
    case Some(Token(_)) => ScriptError
    case Some(Number(n)) =>
      if incoming == n then PreCheckOk(n) else if incoming < n then Idempotent(n) else OutOfOrder(n)
  }

  // Only an accepted number touches the key, and then it is stored with the full TTL.
  function PrepareDb(db: Db, now: real, key: string, incoming: nat, ttl: int): (db': Db)
    ensures db' == if PrepareReplyTo(Get(db, now, key), incoming).PreCheckOk?
      then db[key := Entry(Number(incoming), now + ttl as real)] else db
  {
    match Get(db, now, key)
    case None => if incoming == 0 then SetEx(db, now, key, Number(0), ttl) else db
    case Some(current) => if current == Number(incoming) then Expire(db, now, key, ttl) else db
  }

  function CommitDb(db: Db, now: real, key: string, num: nat, ttl: int): Db {
    SetEx(db, now, key, Number(num + 1), ttl)
  }

  function CleanupDb(db: Db, now: real, key: string, ttl: int): Db {
    Expire(db, now, key, ttl)
  }

  predicate ClaimReplyTo(current: Option<Value>, token: string) {
    current == None || current == Some(Token(token))
  }

  function ClaimDb(db: Db, now: real, key: string, token: string, ttl: int): Db {
    if ClaimReplyTo(Get(db, now, key), token) then SetEx(db, now, key, Token(token), ttl) else db
  }

  function ReleaseDb(db: Db, now: real, key: string, token: string): Db {
    if Get(db, now, key) == Some(Token(token)) then db - {key} else db
  }

  datatype Script = PrepareScript | CommitScript | CleanupScript | ClaimScript | ReleaseScript

  datatype Call =
    | PrepareCall(key: string, incoming: nat, ttl: int)
    | CommitCall(key: string, num: nat, ttl: int)
    | CleanupCall(key: string, ttl: int)
    | ClaimCall(key: string, token: string, ttl: int)
    | ReleaseCall(key: string, token: string)

  datatype Reply = Checked(r: PrepareReply) | Done | Flag(b: bool)

  function ScriptOf(call: Call): Script {
    match call
    case PrepareCall(_, _, _) => PrepareScript
    case CommitCall(_, _, _) => CommitScript
    case CleanupCall(_, _) => CleanupScript
    case ClaimCall(_, _, _) => ClaimScript
    case ReleaseCall(_, _) => ReleaseScript
  }

  function CallDb(db: Db, now: real, call: Call): Db {
    match call
    case PrepareCall(key, incoming, ttl) => PrepareDb(db, now, key, incoming, ttl)
    case CommitCall(key, s, ttl) => CommitDb(db, now, key, s, ttl)
    case CleanupCall(key, ttl) => CleanupDb(db, now, key, ttl)
    case ClaimCall(key, token, ttl) => ClaimDb(db, now, key, token, ttl)
    case ReleaseCall(key, token) => ReleaseDb(db, now, key, token)
  }

  function CallReply(db: Db, now: real, call: Call): Reply {
    match call
    case PrepareCall(key, incoming, _) => Checked(PrepareReplyTo(Get(db, now, key), incoming))
    case CommitCall(_, _, _) => Done
    case CleanupCall(_, _) => Done
    case ClaimCall(key, token, _) => Flag(ClaimReplyTo(Get(db, now, key), token))
    case ReleaseCall(key, token) => Flag(Get(db, now, key) == Some(Token(token)))
  }

  /** A Redis server: its clock, its key space and its script cache. */
  class RedisServer {
    var now: real
    var db: Db
    var scripts: set<Script>

    constructor ()
      ensures now == 0.0 && db == map[] && scripts == {}
    {
      now, db, scripts := 0.0, map[], {};
    }

    method Set(key: string, value: Value, ttl: int)
      modifies this`db
      ensures db == SetEx(old(db), now, key, value, ttl)
    {
      db := db[key := Entry(value, now + ttl as real)];
    }

    method SetTtl(key: string, ttl: int)
      modifies this`db
      ensures db == Expire(old(db), now, key, ttl)
    {
      if Live(db, now, key) {
        db := db[key := db[key].(expireAt := now + ttl as real)];
      }
    }

    method RunPrepare(key: string, incoming: nat, ttl: int) returns (reply: PrepareReply)
      modifies this`db
      ensures db == PrepareDb(old(db), now, key, incoming, ttl)
      ensures reply == PrepareReplyTo(Get(old(db), now, key), incoming)
    {
      var current := Get(db, now, key);
      if current.None? {
        if incoming == 0 {
          Set(key, Number(0), ttl);
          return PreCheckOk(0);
        } else {
          return OutOfOrder(0);
        }
      }
      if current.value.Token? {
        return ScriptError;
      }
      var n := current.value.n;
      if incoming == n {
        SetTtl(key, ttl);
        return PreCheckOk(n);
      } else if incoming < n {
        return Idempotent(n);
      } else {
        return OutOfOrder(n);
      }
    }

    method RunCommit(key: string, num: nat, ttl: int)
      modifies this`db
      ensures db == CommitDb(old(db), now, key, num, ttl)
    {
      Set(key, Number(num + 1), ttl);
    }

    method RunCleanup(key: string, finalTtl: int)
      modifies this`db
      ensures db == CleanupDb(old(db), now, key, finalTtl)
    {
      if Live(db, now, key) {
        SetTtl(key, finalTtl);
      }
    }

    method RunClaim(key: string, token: string, ttl: int) returns (owned: bool)
      modifies this`db
      ensures db == ClaimDb(old(db), now, key, token, ttl)
      ensures owned == ClaimReplyTo(Get(old(db), now, key), token)
    {
      var current := Get(db, now, key);
      if current == None || current == Some(Token(token)) {
        Set(key, Token(token), ttl);
        return true;
      }
      return false;
    }

    method RunRelease(key: string, token: string) returns (released: bool)
      modifies this`db
      ensures db == ReleaseDb(old(db), now, key, token)
      ensures released == (Get(old(db), now, key) == Some(Token(token)))
    {
      var current := Get(db, now, key);
      if current == Some(Token(token)) {
        db := db - {key};
        return true;
      }
      return false;
    }

    method Run(call: Call) returns (reply: Reply)
      modifies this`db
      ensures db == CallDb(old(db), now, call)
      ensures reply == CallReply(old(db), now, call)
    {
      match call
      case PrepareCall(key, incoming, ttl) =>
        var r := RunPrepare(key, incoming, ttl);
        reply := Checked(r);
      case CommitCall(key, s, ttl) =>
        RunCommit(key, s, ttl);
        reply := Done;
      case CleanupCall(key, ttl) =>
        RunCleanup(key, ttl);
        reply := Done;
      case ClaimCall(key, token, ttl) =>
        var owned := RunClaim(key, token, ttl);
        reply := Flag(owned);
      case ReleaseCall(key, token) =>
        var released := RunRelease(key, token);
        reply := Flag(released);
    }
  }
}
