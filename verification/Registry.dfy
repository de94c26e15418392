/** The registry of open connections: lists of sockets per conversation, and their number. */
module Registry {
  import opened Options

  type Socket = int
  type Table = map<string, seq<Socket>>

  /** The total length of all lists. */
  ghost function Total(m: Table): nat {
    if m == map[] then 0
    else
      var k :| k in m;
      |m[k]| + Total(m - {k})
  }

  lemma {:induction false} TotalSplit(m: Table, k: string)
    requires k in m
    ensures Total(m) == |m[k]| + Total(m - {k})
    decreases |m|
  {
    var j :| j in m && Total(m) == |m[j]| + Total(m - {j});
    if j != k {
      TotalSplit(m - {j}, k);
      TotalSplit(m - {k}, j);
      assert m - {j} - {k} == m - {k} - {j};
    }
  }

  /** All registered sockets. */
  ghost function Sockets(m: Table): multiset<Socket> {
    if m == map[] then multiset{}
    else
      var k :| k in m;
      multiset(m[k]) + Sockets(m - {k})
  }

  lemma {:induction false} SocketsSplit(m: Table, k: string)
    requires k in m
    ensures Sockets(m) == multiset(m[k]) + Sockets(m - {k})
    decreases |m|
  {
    var j :| j in m && Sockets(m) == multiset(m[j]) + Sockets(m - {j});
    if j != k {
      SocketsSplit(m - {j}, k);
      SocketsSplit(m - {k}, j);
      assert m - {j} - {k} == m - {k} - {j};
    }
  }

  lemma TotalPut(m: Table, k: string, s: seq<Socket>)
    ensures Total(m[k := s]) == Total(m - {k}) + |s|
  {
    TotalSplit(m[k := s], k);
    assert m[k := s] - {k} == m - {k};
  }

  lemma TotalDrop(m: Table, k: string)
    ensures Total(m) == Total(m - {k}) + if k in m then |m[k]| else 0
  {
    if k in m {
      TotalSplit(m, k);
    } else {
      assert m - {k} == m;
    }
  }

  function Without(s: seq<Socket>, ws: Socket): (r: seq<Socket>)
    ensures |r| <= |s| && ws !in r
    ensures forall x | x != ws :: multiset(r)[x] == multiset(s)[x]
  {
    if s == [] then []
    else
      assert s == [s[0]] + s[1..];
      (if s[0] == ws then [] else [s[0]]) + Without(s[1..], ws)
  }

  // How many entries removing the socket takes away.
  function Copies(m: Table, cid: string, ws: Socket): nat {
    if cid in m then |m[cid]| - |Without(m[cid], ws)| else 0
  }

  function Added(m: Table, cid: string, ws: Socket): Table {
    m[cid := (if cid in m then m[cid] else []) + [ws]]
  }

  function Removed(m: Table, cid: string, ws: Option<Socket>): Table {
    if ws.None? then m - {cid}
    else if cid !in m || m[cid] == [] then m
    else
      var remaining := Without(m[cid], ws.value);
      if remaining == [] then m - {cid} else m[cid := remaining]
  }

  // How often the socket is registered for the conversation.
  function Count(m: Table, cid: string, ws: Socket): nat {
    if cid in m then multiset(m[cid])[ws] else 0
  }

  /** Adding registers one more copy of that socket for that conversation, behind the others. */
  lemma AddedExactly(m: Table, cid: string, ws: Socket, k: string, x: Socket)
    ensures var m' := Added(m, cid, ws);
      && Count(m', k, x) == Count(m, k, x) + (if k == cid && x == ws then 1 else 0)
      && (k in m ==> k in m' && m[k] <= m'[k])
  {}

  /**
   Removing takes away all copies of the socket, or all sockets, of that conversation, and
   nothing else; conversations without sockets are not kept.
   */
  lemma RemovedExactly(m: Table, cid: string, ws: Option<Socket>, k: string, x: Socket)
    requires forall c | c in m :: m[c] != []
    ensures var m' := Removed(m, cid, ws);
      && Count(m', k, x) == (if k == cid && (ws.None? || ws.value == x) then 0 else Count(m, k, x))
      && (k in m' ==> k in m && m'[k] != [] && (k != cid ==> m'[k] == m[k]))
      && (k in m && (k != cid || (ws.Some? && exists y :: y in m[k] && y != ws.value)) ==> k in m')
  {
    if cid in m && ws.Some? {
      var rest := Without(m[cid], ws.value);
      assert forall y | y in m[cid] && y != ws.value :: multiset(rest)[y] == multiset(m[cid])[y] > 0;
      assert rest == [] ==> forall y :: multiset(rest)[y] == 0;
      assert multiset(rest)[ws.value] == 0;
    }
  }

  lemma FreshHasOneCopy(m: Table, cid: string, ws: Socket)
    requires cid in m ==> ws !in m[cid]
    ensures Copies(Added(m, cid, ws), cid, ws) == 1
  {
    WithoutLast(if cid in m then m[cid] else [], ws);
  }

  /** Removing a socket undoes adding it, provided it was not registered before. */
  lemma RemoveUndoesAdd(m: Table, cid: string, ws: Socket)
    requires cid in m ==> m[cid] != [] && ws !in m[cid]
    ensures Removed(Added(m, cid, ws), cid, Some(ws)) == m
  {
    var s := if cid in m then m[cid] else [];
    WithoutLast(s, ws);
  }

  lemma {:induction false} WithoutLast(s: seq<Socket>, ws: Socket)
    requires ws !in s
    ensures Without(s + [ws], ws) == s
  {
    if s != [] {
      assert (s + [ws])[1..] == s[1..] + [ws];
      WithoutLast(s[1..], ws);
    }
  }

  // What is left of a table without the first n of its conversations.
  ghost predicate Remaining(m: Table, left: Table, cids: seq<string>, n: nat)
    requires n <= |cids|
  {
    && (forall k | k in left :: k in m && left[k] == m[k])
    && (forall k | k in m :: k in left <==> k !in cids[..n])
  }

  lemma NextRemaining(m: Table, left: Table, cids: seq<string>, n: nat)
    requires n < |cids| && Remaining(m, left, cids, n) && cids[n] in m && cids[n] !in cids[..n]
    ensures cids[n] in left && left[cids[n]] == m[cids[n]] && Remaining(m, left - {cids[n]}, cids, n + 1)
  {
    assert cids[..n + 1] == cids[..n] + [cids[n]];
  }

  lemma NoneRemaining(m: Table, left: Table, cids: seq<string>)
    requires Remaining(m, left, cids, |cids|) && forall k :: k in cids <==> k in m
    ensures left == map[]
  {
    assert cids[..|cids|] == cids;
  }

  /** Removing a socket keeps the order of the others. */
  lemma {:induction false} WithoutConcat(s: seq<Socket>, t: seq<Socket>, ws: Socket)
    ensures Without(s + t, ws) == Without(s, ws) + Without(t, ws)
  {
    if s == [] {
      assert s + t == t;
    } else {
      assert (s + t)[1..] == s[1..] + t;
      WithoutConcat(s[1..], t, ws);
    }
  }

  datatype Removal = Removal(cid: string, ws: Option<Socket>)

  class ConnectionRegistry {
    var connections: Table
    var activeCount: int

    ghost predicate Tidy()
      reads this
    {
      forall k | k in connections :: connections[k] != []
    }

    ghost predicate Valid()
      reads this
    {
      Tidy() && activeCount == Total(connections)
    }

    constructor ()
      ensures Valid() && connections == map[]
    {
      connections, activeCount := map[], 0;
    }

    method Add(cid: string, ws: Socket)
      modifies this
      ensures connections == Added(old(connections), cid, ws) && activeCount == old(activeCount) + 1
      ensures old(Valid()) ==> Valid()
    {
      var sockets := if cid in connections then connections[cid] else [];
      TotalPut(connections, cid, sockets + [ws]);
      TotalDrop(connections, cid);
      connections := connections[cid := sockets + [ws]];
      activeCount := activeCount + 1;
    }

    method Remove(cid: string, ws: Option<Socket>)
      modifies this
      ensures connections == Removed(old(connections), cid, ws)
      ensures activeCount == old(activeCount) -
        if ws.Some? then Copies(old(connections), cid, ws.value)
        else if cid in old(connections) then |old(connections)[cid]| else 0
      ensures old(Valid()) ==> Valid()
      ensures old(Tidy()) ==> Tidy()
    {
      TotalDrop(connections, cid);
      if ws.None? {
        if cid in connections {
          activeCount := activeCount - |connections[cid]|;
        }
        connections := connections - {cid};
        return;
      }
      if cid !in connections || connections[cid] == [] {
        return;
      }
      var sockets := connections[cid];
      var remaining := Without(sockets, ws.value);
      TotalPut(connections, cid, remaining);
      activeCount := activeCount - (|sockets| - |remaining|);
      if remaining != [] {
        connections := connections[cid := remaining];
      } else {
        connections := connections - {cid};
      }
    }

    method RemoveEach(removals: seq<Removal>)
      requires Tidy()
      modifies this
      ensures Tidy() && connections.Keys <= old(connections).Keys
    {
      for i := 0 to |removals|
        invariant Tidy() && connections.Keys <= old(connections).Keys
      {
        Remove(removals[i].cid, removals[i].ws);
      }
    }

    // The conversations in some order, as iterating over the dictionary yields them.
    method Snapshot() returns (cids: seq<string>)
      ensures forall k :: k in cids <==> k in connections
      ensures forall i | 0 <= i < |cids| :: cids[i] !in cids[..i]
    {
      cids := [];
      var rest := connections.Keys;
      while rest != {}
        invariant rest <= connections.Keys
        invariant forall k :: k in cids <==> k in connections && k !in rest
        invariant forall i | 0 <= i < |cids| :: cids[i] !in cids[..i]
        decreases |rest|
      {
        var k :| k in rest;
        assert forall i | 0 <= i < |cids| :: (cids + [k])[..i] == cids[..i];
        assert (cids + [k])[..|cids|] == cids;
        cids, rest := cids + [k], rest - {k};
      }
    }

    // The inner loop: the sockets of one conversation.
    method VisitAll(sockets: seq<Socket>, before: seq<Socket>, removals: nat -> seq<Removal>)
      returns (visited: seq<Socket>)
      requires Tidy()
      modifies this
      ensures Tidy() && connections.Keys <= old(connections).Keys
      ensures visited == before + sockets
    {
      visited := before;
      for j := 0 to |sockets|
        invariant Tidy() && connections.Keys <= old(connections).Keys
        invariant visited == before + sockets[..j]
      {
        visited := visited + [sockets[j]];
        assert sockets[..j + 1] == sockets[..j] + [sockets[j]];
        RemoveEach(removals(|visited|));
      }
      assert sockets[..|sockets|] == sockets;
    }

    /**
     Goes through every socket that was registered at the call, once for each registration,
     and closes it if it is still connected. While it waits for the n-th of them, the sessions that end meanwhile remove
     themselves as removals(n) says. Without new registrations it ends with the empty registry.
     */
    method CloseAll(removals: nat -> seq<Removal>) returns (visited: seq<Socket>)
      requires Tidy()
      modifies this
      ensures connections == map[] && activeCount == 0 && Valid()
      ensures multiset(visited) == Sockets(old(connections))
    {
      ghost var before := connections;
      var snapshot := connections;
      var cids := Snapshot();
      visited := [];
      ghost var left := before;
      for i := 0 to |cids|
        invariant Tidy() && connections.Keys <= left.Keys
        invariant Remaining(before, left, cids, i)
        invariant multiset(visited) + Sockets(left) == Sockets(before)
      {
        NextRemaining(before, left, cids, i);
        SocketsSplit(left, cids[i]);
        visited := VisitAll(snapshot[cids[i]], visited, removals);
        left := left - {cids[i]};
        connections := connections - {cids[i]};
      }
      NoneRemaining(before, left, cids);
      activeCount := 0;
      assert connections == map[];
    }
  }
}
