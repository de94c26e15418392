/**
 Calling a Lua script by its digest, with a reload when Redis has forgotten it. Both Redis
 clients of the service, the sequence state machine and the ownership guard, work this way.
 Other clients may run scripts, flush the cache or let time pass before every round trip,
 and every round trip may lose its request or its reply.
 */
module ScriptClient {
  import opened Options
  import opened Redis
  import opened Settings

  // What happened at the server, in order.
  datatype Event = Ran(mine: bool, call: Call) | Loaded(script: Script) | Flushed | Elapsed(d: real)

  function Replay(db: Db, now: real, events: seq<Event>): (Db, real) {
    if events == [] then (db, now)
    else
      var (db', now') := Replay(db, now, events[..|events| - 1]);
      match events[|events| - 1]
      case Ran(_, call) => (CallDb(db', now', call), now')
      case Loaded(_) => (db', now')
      case Flushed => (db', now')
      case Elapsed(d) => (db', now' + d)
  }

  function Mine(events: seq<Event>): seq<Call> {
    if events == [] then []
    else
      var e := events[|events| - 1];
      Mine(events[..|events| - 1]) + if e.Ran? && e.mine then [e.call] else []
  }

  // Our call ran at position start or later, and the reply is what that run answered.
  ghost predicate Answered(db: Db, now: real, events: seq<Event>, start: nat, call: Call, reply: Reply) {
    exists i | start <= i < |events| :: AnsweredAt(db, now, events, i, call, reply)
  }

  ghost predicate AnsweredAt(db: Db, now: real, events: seq<Event>, i: nat, call: Call, reply: Reply)
    requires i < |events|
  {
    && events[i] == Ran(true, call)
    && var (db', now') := Replay(db, now, events[..i]);
       reply == CallReply(db', now', call)
  }

  // What running our call next adds to a history.
  lemma RunMine(db: Db, now: real, events: seq<Event>, call: Call)
    ensures var next := events + [Ran(true, call)];
      var (db', now') := Replay(db, now, events);
      && Replay(db, now, next) == (CallDb(db', now', call), now')
      && Mine(next) == Mine(events) + [call]
      && AnsweredAt(db, now, next, |events|, call, CallReply(db', now', call))
  {
    assert (events + [Ran(true, call)])[..|events|] == events;
  }

  datatype Fault = NoFault | RequestLost | ReplyLost

  datatype Other = Foreign(call: Call) | ForeignLoad(script: Script) | Flush | Wait(d: real)

  // One round trip: what others do first, and what the network does to it.
  datatype Trip = Trip(others: seq<Other>, fault: Fault)

  datatype Outcome = Value(reply: Reply) | NoScript | Raised

  function EventOf(o: Other): Event {
    match o
    case Foreign(call) => Ran(false, call)
    case ForeignLoad(script) => Loaded(script)
    case Flush => Flushed
    case Wait(d) => Elapsed(d)
  }

  // ----- when a script is in the server's cache -----

  predicate NoFlush(others: seq<Other>) {
    Flush !in others
  }

  // After what the others do, the script is cached: somebody has loaded it, or it was cached
  // before, and nobody has flushed the cache since.
  ghost predicate Cached(before: bool, script: Script, others: seq<Other>) {
    || (before && NoFlush(others))
    || exists i :: 0 <= i < |others| && others[i] == ForeignLoad(script) && NoFlush(others[i + 1..])
  }

  lemma CachedSnoc(before: bool, script: Script, others: seq<Other>, o: Other)
    ensures Cached(before, script, others + [o]) <==>
      o == ForeignLoad(script) || (o != Flush && Cached(before, script, others))
  {
    var all := others + [o];
    assert NoFlush(all) <==> NoFlush(others) && o != Flush;
    forall i {:trigger others[i]} | 0 <= i < |others| ensures NoFlush(all[i + 1..]) <==> NoFlush(others[i + 1..]) && o != Flush {
      assert all[i + 1..] == others[i + 1..] + [o];
    }
    assert all[|others| + 1..] == [];
    if o == ForeignLoad(script) {
      assert all[|others|] == ForeignLoad(script) && NoFlush(all[|others| + 1..]);
    }
    if exists i :: 0 <= i < |others| && others[i] == ForeignLoad(script) && NoFlush(others[i + 1..]) {
      var i :| 0 <= i < |others| && others[i] == ForeignLoad(script) && NoFlush(others[i + 1..]);
      assert all[i] == ForeignLoad(script);
    }
    if exists i :: 0 <= i < |all| && all[i] == ForeignLoad(script) && NoFlush(all[i + 1..]) {
      var i :| 0 <= i < |all| && all[i] == ForeignLoad(script) && NoFlush(all[i + 1..]);
      assert i < |others| ==> others[i] == all[i];
    }
  }

  // The script is cached after the client has loaded the first n of its scripts, those whose
  // digests it does not know yet.
  ghost predicate CachedAfterLoads(
    before: bool, script: Script, scripts: seq<Script>, known: set<Script>, trips: nat -> Trip, n: nat)
    requires n <= |scripts|
  {
    if n == 0 then before
    else
      var earlier := CachedAfterLoads(before, script, scripts, known, trips, n - 1);
      if scripts[n - 1] in known then earlier
      else scripts[n - 1] == script || Cached(earlier, script, trips(n - 1).others)
  }

  // The loads of the first n scripts go through.
  predicate LoadsReturn(scripts: seq<Script>, known: set<Script>, trips: nat -> Trip, n: nat)
    requires n <= |scripts|
  {
    forall i | 0 <= i < n && scripts[i] !in known :: trips(i).fault.NoFault?
  }

  // A call returns: its loads go through, its EVALSHA too, and this finds the script; or it is
  // answered NOSCRIPT, the reload and the second EVALSHA go through, and this finds the script,
  // because nobody has flushed the cache in between, or has loaded the script again.
  ghost predicate Returns(
    before: bool, script: Script, scripts: seq<Script>, known: set<Script>, trips: nat -> Trip)
  {
    var n := |scripts|;
    && LoadsReturn(scripts, known, trips, n) && trips(n).fault.NoFault?
    && (|| Cached(CachedAfterLoads(before, script, scripts, known, trips, n), script, trips(n).others)
        || (&& trips(n + 1).fault.NoFault? && trips(n + 2).fault.NoFault?
            && Cached(true, script, trips(n + 2).others)))
  }

  /** Without network faults, and without a flush between reload and second EVALSHA, it does. */
  lemma FaultFreeReturns(before: bool, script: Script, scripts: seq<Script>, known: set<Script>, trips: nat -> Trip)
    requires (forall i :: trips(i).fault.NoFault?) && NoFlush(trips(|scripts| + 2).others)
    ensures Returns(before, script, scripts, known, trips)
  {}

  class Client {
    const server: RedisServer
    const prefix: string
    const scripts: seq<Script>
    var known: set<Script>   // the digest fields that are set
    ghost var events: seq<Event>
    ghost var db0: Db
    ghost var now0: real

    ghost predicate Valid()
      reads this, server
    {
      && (server.db, server.now) == Replay(db0, now0, events)
      && forall i, j | 0 <= i < j < |scripts| :: scripts[i] != scripts[j]
    }

    constructor (server: RedisServer, prefix: string, scripts: seq<Script>)
      requires forall i, j | 0 <= i < j < |scripts| :: scripts[i] != scripts[j]
      ensures Valid() && this.server == server && this.prefix == prefix && this.scripts == scripts
      ensures known == {} && events == []
    {
      this.server, this.prefix, this.scripts := server, prefix, scripts;
      known, events, db0, now0 := {}, [], server.db, server.now;
    }

    method Interleave(others: seq<Other>)
      requires Valid()
      modifies this`events, server
      ensures Valid()
      ensures old(events) <= events && Mine(events) == Mine(old(events))
      ensures forall s :: s in server.scripts <==> Cached(s in old(server.scripts), s, others)
      ensures |events| == |old(events)| + |others|
      ensures forall i | 0 <= i < |others| :: events[|old(events)| + i] == EventOf(others[i])
    {
      for i := 0 to |others|
        invariant Valid() && old(events) <= events && Mine(events) == Mine(old(events))
        invariant forall s :: s in server.scripts <==> Cached(s in old(server.scripts), s, others[..i])
        invariant |events| == |old(events)| + i
        invariant forall j | 0 <= j < i :: events[|old(events)| + j] == EventOf(others[j])
      {
        forall s
          ensures Cached(s in old(server.scripts), s, others[..i + 1]) <==>
            others[i] == ForeignLoad(s) || (others[i] != Flush && Cached(s in old(server.scripts), s, others[..i]))
        {
          assert others[..i + 1] == others[..i] + [others[i]];
          CachedSnoc(s in old(server.scripts), s, others[..i], others[i]);
        }
        ghost var e := EventOf(others[i]);
        assert (events + [e])[..|events|] == events;
        match others[i] {
          case Foreign(call) => var _ := server.Run(call);
          case ForeignLoad(script) => server.scripts := server.scripts + {script};
          case Flush => server.scripts := {};
          case Wait(d) => server.now := server.now + d;
        }
        events := events + [e];
      }
      assert others[..|others|] == others;
    }

    method Load(script: Script, trip: Trip) returns (ok: bool)
      requires Valid()
      modifies this`events, this`known, server
      ensures Valid()
      ensures old(events) <= events && Mine(events) == Mine(old(events))
      ensures known == if ok then old(known) + {script} else old(known)
      ensures ok == trip.fault.NoFault?
      ensures ok ==>
        forall s :: s in server.scripts <==> s == script || Cached(s in old(server.scripts), s, trip.others)
    {
      Interleave(trip.others);
      if trip.fault.RequestLost? {
        return false;
      }
      server.scripts := server.scripts + {script};
      if trip.fault.ReplyLost? {
        return false;
      }
      known := known + {script};
      return true;
    }

    // The server finds the script and runs it.
    method Execute(call: Call) returns (reply: Reply)
      requires Valid()
      modifies this`events, server
      ensures Valid() && events == old(events) + [Ran(true, call)] && server.scripts == old(server.scripts)
      ensures Mine(events) == Mine(old(events)) + [call]
      ensures AnsweredAt(db0, now0, events, |old(events)|, call, reply)
    {
      RunMine(db0, now0, events, call);
      reply := server.Run(call);
      events := events + [Ran(true, call)];
    }

    method EvalSha(call: Call, trip: Trip) returns (o: Outcome)
      requires Valid()
      modifies this`events, server
      ensures Valid() && old(events) <= events
      ensures o.Value? ==>
        Mine(events) == Mine(old(events)) + [call] && Answered(db0, now0, events, |old(events)|, call, o.reply)
      ensures o.NoScript? ==> Mine(events) == Mine(old(events))
      ensures var found := Cached(ScriptOf(call) in old(server.scripts), ScriptOf(call), trip.others);
        && (o.Value? <==> trip.fault.NoFault? && found)
        && (o.NoScript? <==> trip.fault.NoFault? && !found)
      ensures o.Raised? ==>
        Mine(events) == Mine(old(events)) || Mine(events) == Mine(old(events)) + [call]
    {
      Interleave(trip.others);
      if trip.fault.RequestLost? {
        return Raised;
      }
      if ScriptOf(call) !in server.scripts {
        return if trip.fault.ReplyLost? then Raised else NoScript;
      }
      var reply := Execute(call);
      return if trip.fault.ReplyLost? then Raised else Value(reply);
    }

    method EnsureScriptsLoaded(trips: nat -> Trip, ghost script: Script) returns (ok: bool)
      requires Valid()
      modifies this`events, this`known, server
      ensures Valid()
      ensures old(events) <= events && Mine(events) == Mine(old(events))
      ensures ok ==> forall s | s in scripts :: s in known
      ensures ok == LoadsReturn(scripts, old(known), trips, |scripts|)
      ensures ok ==>
        (script in server.scripts <==>
         CachedAfterLoads(script in old(server.scripts), script, scripts, old(known), trips, |scripts|))
    {
      for i := 0 to |scripts|
        invariant Valid() && old(events) <= events && Mine(events) == Mine(old(events))
        invariant forall j | 0 <= j < i :: scripts[j] in known
        invariant forall j | i <= j < |scripts| :: scripts[j] in known <==> scripts[j] in old(known)
        invariant LoadsReturn(scripts, old(known), trips, i)
        invariant script in server.scripts <==>
          CachedAfterLoads(script in old(server.scripts), script, scripts, old(known), trips, i)
      {
        if scripts[i] !in known {
          var loaded := Load(scripts[i], trips(i));
          if !loaded {
            return false;
          }
        }
      }
      return true;
    }

    // What decides whether a call that finds this cache and knows these digests returns.
    ghost predicate WillReturn(cache: set<Script>, known: set<Script>, script: Script, trips: nat -> Trip) {
      Returns(script in cache, script, scripts, known, trips)
    }

    /**
     One Python call. It returns normally only after its script ran exactly once, and hands
     back that run's answer; if it raises, the script ran at most once. In both cases the
     server's state is what the recorded history produces, whoever else took part in it. It
     returns if and only if the network lets it, and the script is in the cache when it is
     needed, which the reload sees to unless the cache is flushed right after it.
     */
    method Invoke(call: Call, trips: nat -> Trip) returns (o: Option<Reply>)
      requires Valid() && ScriptOf(call) in scripts
      modifies this`events, this`known, server
      ensures Valid() && old(events) <= events
      ensures o.Some? ==>
        && Mine(events) == Mine(old(events)) + [call]
        && Answered(db0, now0, events, |old(events)|, call, o.value)
      ensures o.None? ==>
        Mine(events) == Mine(old(events)) || Mine(events) == Mine(old(events)) + [call]
      ensures o.Some? <==> WillReturn(old(server.scripts), old(known), ScriptOf(call), trips)
    {
      var loaded := EnsureScriptsLoaded(trips, ScriptOf(call));
      if !loaded {
        return None;
      }
      var first := EvalSha(call, trips(|scripts|));
      if first.Value? {
        return Some(first.reply);
      } else if first.Raised? {
        return None;
      }
      var reloaded := Load(ScriptOf(call), trips(|scripts| + 1));
      if !reloaded {
        return None;
      }
      var second := EvalSha(call, trips(|scripts| + 2));
      if second.Value? {
        return Some(second.reply);
      }
      return None;
    }

    method Prepare(cid: string, incoming: nat, activeTtl: int, trips: nat -> Trip) returns (o: Option<PrepareReply>)
      requires Valid() && PrepareScript in scripts
      modifies this`events, this`known, server
      ensures Valid() && old(events) <= events
      ensures var call := PrepareCall(Key(prefix, cid), incoming, activeTtl);
        if o.Some?
        then
          && Mine(events) == Mine(old(events)) + [call]
          && Answered(db0, now0, events, |old(events)|, call, Checked(o.value))
        else Mine(events) == Mine(old(events)) || Mine(events) == Mine(old(events)) + [call]
      ensures o.Some? <==> WillReturn(old(server.scripts), old(known), PrepareScript, trips)
    {
      var call := PrepareCall(Key(prefix, cid), incoming, activeTtl);
      var reply := Invoke(call, trips);
      if reply.None? {
        return None;
      }
      return Some(reply.value.r);
    }

    method Commit(cid: string, num: nat, activeTtl: int, trips: nat -> Trip) returns (ok: bool)
      requires Valid() && CommitScript in scripts
      modifies this`events, this`known, server
      ensures Valid() && old(events) <= events
      ensures var call := CommitCall(Key(prefix, cid), num, activeTtl);
        Mine(events) == Mine(old(events)) + [call] || (!ok && Mine(events) == Mine(old(events)))
      ensures ok <==> WillReturn(old(server.scripts), old(known), CommitScript, trips)
    {
      var reply := Invoke(CommitCall(Key(prefix, cid), num, activeTtl), trips);
      return reply.Some?;
    }

    method Cleanup(cid: string, finalTtl: int, trips: nat -> Trip) returns (ok: bool)
      requires Valid() && CleanupScript in scripts
      modifies this`events, this`known, server
      ensures Valid() && old(events) <= events
      ensures var call := CleanupCall(Key(prefix, cid), finalTtl);
        Mine(events) == Mine(old(events)) + [call] || (!ok && Mine(events) == Mine(old(events)))
      ensures ok <==> WillReturn(old(server.scripts), old(known), CleanupScript, trips)
    {
      var reply := Invoke(CleanupCall(Key(prefix, cid), finalTtl), trips);
      return reply.Some?;
    }

    method ClaimOrRefresh(cid: string, token: string, guardTtl: int, trips: nat -> Trip) returns (o: Option<bool>)
      requires Valid() && ClaimScript in scripts
      modifies this`events, this`known, server
      ensures Valid() && old(events) <= events
      ensures var call := ClaimCall(Key(prefix, cid), token, guardTtl);
        if o.Some?
        then
          && Mine(events) == Mine(old(events)) + [call]
          && Answered(db0, now0, events, |old(events)|, call, Flag(o.value))
        else Mine(events) == Mine(old(events)) || Mine(events) == Mine(old(events)) + [call]
      ensures o.Some? <==> WillReturn(old(server.scripts), old(known), ClaimScript, trips)
    {
      var call := ClaimCall(Key(prefix, cid), token, guardTtl);
      var reply := Invoke(call, trips);
      if reply.None? {
        return None;
      }
      return Some(reply.value.b);
    }

    method Release(cid: string, token: string, trips: nat -> Trip) returns (ok: bool)
      requires Valid() && ReleaseScript in scripts
      modifies this`events, this`known, server
      ensures Valid() && old(events) <= events
      ensures var call := ReleaseCall(Key(prefix, cid), token);
        Mine(events) == Mine(old(events)) + [call] || (!ok && Mine(events) == Mine(old(events)))
      ensures ok <==> WillReturn(old(server.scripts), old(known), ReleaseScript, trips)
    {
      var reply := Invoke(ReleaseCall(Key(prefix, cid), token), trips);
      return reply.Some?;
    }
  }
}
