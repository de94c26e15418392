/**
 Handshake admission: the checks in their order, the lease claim, and what the connection
 limit is worth when several handshakes are under way at once.
 */
module Admission {
  import opened Options
  import opened Redis
  import opened Settings
  import opened Protocol
  import Durability
  import opened Orchestrator
  import opened Handling
  import opened Lease
  import Refresh
  import opened Registry

  datatype Verdict =
    | Admitted
    | MissingConversationId
    | AuthenticationFailed
    | Draining
    | LimitExceeded
    | StoreUnavailable
    | SenderActive

  // ----- the connection limit -----

  // Registered connections, and handshakes between the limit check and their registration.
  datatype Gate = Gate(active: nat, pending: nat)

  datatype GateAction = Check | Register | Abandon | Leave

  function GateStep(limit: nat, g: Gate, a: GateAction): Gate {
    match a
    case Check => if limit == 0 || g.active < limit then g.(pending := g.pending + 1) else g
    case Register => if g.pending > 0 then Gate(g.active + 1, g.pending - 1) else g
    case Abandon => if g.pending > 0 then g.(pending := g.pending - 1) else g
    case Leave => if g.active > 0 then g.(active := g.active - 1) else g
  }

  function GateRun(limit: nat, g: Gate, acts: seq<GateAction>): Gate
    decreases acts
  {
    if acts == [] then g else GateRun(limit, GateStep(limit, g, acts[0]), acts[1..])
  }

  // Never more than k handshakes are under way.
  ghost predicate AtMostPending(limit: nat, g: Gate, acts: seq<GateAction>, k: nat)
    decreases acts
  {
    g.pending <= k && (acts == [] || AtMostPending(limit, GateStep(limit, g, acts[0]), acts[1..], k))
  }

  /** The limit holds up to the number of simultaneous handshakes minus one. */
  lemma {:induction false} LimitBound(limit: nat, g: Gate, acts: seq<GateAction>, k: nat)
    requires 0 < limit && 0 < k && g.active + g.pending <= limit - 1 + k && AtMostPending(limit, g, acts, k)
    ensures var g' := GateRun(limit, g, acts); g'.active + g'.pending <= limit - 1 + k
    decreases acts
  {
    if acts != [] {
      LimitBound(limit, GateStep(limit, g, acts[0]), acts[1..], k);
    }
  }

  // ----- a claim call -----

  // A claim call and what happens around it.
  function ClaimTrace(h: Sid, id: LeaseId, fate: CallFate, others: seq<Action>): seq<Action> {
    Others(h, others) + if Effective(fate) then [ClaimAction(h, id, fate)] else []
  }

  lemma ClaimRuns(cfg: Config, w: World, h: Sid, id: LeaseId, fate: CallFate, others: seq<Action>)
    requires h !in w.holds && forall a | a in others :: Actor(a) != Some(h)
    ensures var w1 := Interfere(cfg, w, h, others);
      && h !in w1.holds && Refresh.OrderlyTrace(cfg, w, ClaimTrace(h, id, fate, others), h)
      && Run(cfg, w, ClaimTrace(h, id, fate, others))
         == if Effective(fate) then Step(cfg, w1, ClaimAction(h, id, fate)) else w1
  {
    var mine, w1 := Others(h, others), Interfere(cfg, w, h, others);
    OthersAreOthers(h, others);
    Refresh.OthersNeverHold(cfg, w, mine, h);
    if Effective(fate) {
      var a := ClaimAction(h, id, fate);
      RunOne(cfg, w1, a);
      RunConcat(cfg, w, mine, [a]);
      assert Refresh.OrderlyTrace(cfg, Step(cfg, w1, a), [a][1..], h);
      Refresh.OrderlyConcat(cfg, w, mine, [a], h);
    } else {
      assert ClaimTrace(h, id, fate, others) == mine;
    }
  }

  // It touches no message in progress.
  lemma ClaimIsConcerned(cfg: Config, w: World, h: Sid, id: LeaseId, fate: CallFate, others: seq<Action>, cid: Cid)
    ensures ConcernedFrom(ClaimTrace(h, id, fate, others), 0, h, cid)
    ensures SameProgress(w, Run(cfg, w, ClaimTrace(h, id, fate, others)), h)
    ensures Durability.Backed(cfg, w) ==> Durability.Backed(cfg, Run(cfg, w, ClaimTrace(h, id, fate, others)))
  {
    var t := ClaimTrace(h, id, fate, others);
    OthersAreOthers(h, others);
    assert AllByOthers(t, h);
    RunKeepsProgress(cfg, w, h, t);
    if Durability.Backed(cfg, w) {
      Durability.RunKeepsBacked(cfg, w, t);
    }
  }

  // The key carries the new token after the call exactly when the script has run and granted.
  lemma ClaimCarries(cfg: Config, w: World, h: Sid, id: LeaseId, fate: CallFate, others: seq<Action>)
    requires Tracked(cfg, w, h) && h !in w.holds
    requires forall a | a in others :: Actor(a) != Some(h)
    ensures Carries(cfg, Run(cfg, w, ClaimTrace(h, id, fate, others)), h, id) <==>
      Effective(fate) && ClaimReply(cfg, Interfere(cfg, w, h, others), h, id)
  {
    var mine, w1 := Others(h, others), Interfere(cfg, w, h, others);
    ClaimRuns(cfg, w, h, id, fate, others);
    OthersAreOthers(h, others);
    NoGrants(cfg, w, mine, h, id, None);
    assert forall a | a in mine :: a.Release? ==> a.h != h;
    RunKeepsKeyFollows(cfg, w, mine, h, id, None);
    if Effective(fate) {
      StepKeepsKeyFollows(cfg, w1, ClaimAction(h, id, fate), h, id, None);
    }
  }

  lemma {:induction false} NoGrants(
    cfg: Config, w: World, acts: seq<Action>, h: Sid, id: LeaseId, last: Option<real>)
    requires forall a | a in acts :: Actor(a) != Some(h)
    ensures LastGrant(cfg, w, acts, h, id, last) == last
    decreases acts
  {
    if acts != [] {
      assert Actor(acts[0]) != Some(h);
      NoGrants(cfg, Step(cfg, w, acts[0]), acts[1..], h, id, last);
    }
  }

  // What a claim call by a new session has done to the trace, the state and the key.
  ghost predicate Claimed(cfg: Config, w0: World, w: World, t0: seq<Action>, t: seq<Action>,
                          h: Sid, id: LeaseId, fate: CallFate, others: seq<Action>)
  {
    && t == t0 + ClaimTrace(h, id, fate, others)
    && w == Run(cfg, w0, ClaimTrace(h, id, fate, others))
    && Refresh.OrderlyTrace(cfg, w0, ClaimTrace(h, id, fate, others), h)
    && (Tracked(cfg, w0, h) ==>
          (Carries(cfg, w, h, id) <==> Effective(fate) && ClaimReply(cfg, Interfere(cfg, w0, h, others), h, id)))
  }

  // The call: OWNED or not, None when it raises. A session that is told it owns holds the lease.
  method ClaimOwnership(cluster: Cluster, h: Sid, id: LeaseId, fate: CallFate, others: seq<Action>)
    returns (owned: Option<bool>)
    requires cluster.Valid() && h !in cluster.w.holds && forall a | a in others :: Actor(a) != Some(h)
    modifies cluster`w, cluster`trace
    ensures cluster.Valid()
    ensures Claimed(cluster.cfg, old(cluster.w), cluster.w, old(cluster.trace), cluster.trace, h, id, fate, others)
    ensures owned == if fate.Raised? then None
      else Some(ClaimReply(cluster.cfg, Interfere(cluster.cfg, old(cluster.w), h, others), h, id))
    ensures owned == Some(true) ==> h in cluster.w.holds && cluster.w.holds[h] == Hold(id, cluster.w.now)
    ensures owned != Some(true) ==> h !in cluster.w.holds
  {
    if Tracked(cluster.cfg, cluster.w, h) {
      ClaimCarries(cluster.cfg, cluster.w, h, id, fate, others);
    }
    ClaimRuns(cluster.cfg, cluster.w, h, id, fate, others);
    cluster.Let(h, others);
    var reply := ClaimReply(cluster.cfg, cluster.w, h, id);
    if Effective(fate) {
      cluster.Do(ClaimAction(h, id, fate));
    }
    owned := if fate.Raised? then None else Some(reply);
  }

  // What the claim of a handshake that has passed all checks leads to.
  function ClaimVerdict(fate: CallFate, granted: bool): Verdict {
    if fate.Raised? then StoreUnavailable else if granted then Admitted else SenderActive
  }

  lemma VerdictIff(cfg: Config, w: World, h: Sid, id: LeaseId, fate: CallFate)
    ensures var v := ClaimVerdict(fate, ClaimReply(cfg, w, h, id));
      && (v == StoreUnavailable <==> fate.Raised?)
      && (v == SenderActive <==> fate.Returned? && TakenByOther(cfg, w, h, id))
      && (v == Admitted <==> fate.Returned? && !TakenByOther(cfg, w, h, id))
  {}

  // ----- the guard and the registry -----

  // A socket enters the registry or leaves it, at some length of the trace.
  datatype Visit = Entered(cid: string, ws: Socket, at: nat) | Left(cid: string, ws: Socket, at: nat)

  /**
   The guard of one process with its registry. The limit check, the registration and the
   removal run without an await inside, so any order of their calls is an interleaving of
   handshakes and sessions; Admit is the way from the check through the lease claim.
   */
  class WsGuard {
    const cluster: Cluster
    const registry: ConnectionRegistry
    const maxConnections: nat
    ghost var pending: nat   // handshakes that passed the limit check and are not registered
    ghost var peak: nat      // the largest number of them there ever was
    ghost var log: seq<Visit>

    // The registry is in order, and the bound holds for the handshakes there have been.
    ghost predicate Valid()
      reads this, registry
    {
      && registry.Valid() && pending <= peak
      && (0 < maxConnections ==>
            registry.activeCount + pending <= if peak == 0 then 0 else maxConnections - 1 + peak)
    }

    ghost function State(): Gate
      requires registry.Valid()
      reads this, registry
    {
      Gate(registry.activeCount, pending)
    }

    constructor (cluster: Cluster, registry: ConnectionRegistry, maxConnections: nat)
      requires registry.Valid() && registry.connections == map[]
      ensures Valid() && this.cluster == cluster && this.registry == registry
      ensures this.maxConnections == maxConnections && State() == Gate(0, 0) && peak == 0 && log == []
    {
      this.cluster, this.registry, this.maxConnections := cluster, registry, maxConnections;
      pending, peak, log := 0, 0, [];
    }

    predicate LimitReached()
      reads registry
    {
      0 < maxConnections && maxConnections <= registry.activeCount
    }

    // The limit check; from here on a handshake that passes is under way.
    method CheckLimit() returns (ok: bool)
      requires Valid()
      modifies this`pending, this`peak
      ensures Valid() && ok == !LimitReached()
      ensures State() == GateStep(maxConnections, old(State()), Check)
      ensures peak == (if pending > old(peak) then pending else old(peak))
      ensures pending == if ok then old(pending) + 1 else old(pending)
    {
      if maxConnections > 0 && registry.activeCount >= maxConnections {
        return false;
      }
      pending := pending + 1;
      peak := if pending > peak then pending else peak;
      return true;
    }

    // The handshake fails after the limit check.
    ghost method GiveUp()
      requires Valid() && 0 < pending
      modifies this`pending
      ensures Valid() && State() == GateStep(maxConnections, old(State()), Abandon)
    {
      pending := pending - 1;
    }

    method Enter(cid: string, ws: Socket)
      requires Valid() && 0 < pending
      modifies this`pending, this`log, registry
      ensures Valid() && registry.connections == Added(old(registry.connections), cid, ws)
      ensures State() == GateStep(maxConnections, old(State()), Register)
      ensures log == old(log) + [Entered(cid, ws, |cluster.trace|)]
    {
      registry.Add(cid, ws);
      log := log + [Entered(cid, ws, |cluster.trace|)];
      pending := pending - 1;
    }

    // A session removes its socket.
    method Exit(cid: string, ws: Socket)
      requires Valid()
      modifies this`log, registry
      ensures Valid() && registry.connections == Removed(old(registry.connections), cid, Some(ws))
      ensures log == old(log) + [Left(cid, ws, |cluster.trace|)]
      ensures Copies(old(registry.connections), cid, ws) == 1 ==>
                State() == GateStep(maxConnections, old(State()), Leave)
    {
      registry.Remove(cid, Some(ws));
      log := log + [Left(cid, ws, |cluster.trace|)];
    }

    /**
     Decides on a handshake. The lease is claimed only when every other check has passed, and
     the session is admitted exactly when that claim is answered OWNED: it then holds the
     lease of the conversation.
     */
    method Admit(h: Sid, cid: string, authenticated: bool, draining: bool, fate: CallFate, others: seq<Action>)
      returns (v: Verdict)
      requires Valid() && cluster.Valid() && h !in cluster.w.holds
      requires forall a | a in others :: Actor(a) != Some(h)
      modifies this`pending, this`peak, cluster`w, cluster`trace
      ensures Valid() && cluster.Valid() && old(cluster.trace) <= cluster.trace
      ensures v == MissingConversationId <==> cid == ""
      ensures v == AuthenticationFailed <==> cid != "" && !authenticated
      ensures v == Draining <==> cid != "" && authenticated && draining
      ensures v == LimitExceeded <==> cid != "" && authenticated && !draining && LimitReached()
      ensures v == StoreUnavailable <==>
        cid != "" && authenticated && !draining && !LimitReached() && fate.Raised?
      ensures v == SenderActive <==>
        && cid != "" && authenticated && !draining && !LimitReached() && fate.Returned?
        && TakenByOther(cluster.cfg, Interfere(cluster.cfg, old(cluster.w), h, others), h, cid)
      ensures v.Admitted? ==>
        && State() == GateStep(maxConnections, old(State()), Check) && 0 < pending
        && h in cluster.w.holds && cluster.w.holds[h] == Hold(cid, cluster.w.now)
      ensures !v.Admitted? ==> State() == old(State()) && h !in cluster.w.holds
      ensures if v in {Admitted, StoreUnavailable, SenderActive} then
          && v == ClaimVerdict(
               fate, ClaimReply(cluster.cfg, Interfere(cluster.cfg, old(cluster.w), h, others), h, cid))
          && Claimed(cluster.cfg, old(cluster.w), cluster.w, old(cluster.trace), cluster.trace, h, cid, fate, others)
        else cluster.w == old(cluster.w) && cluster.trace == old(cluster.trace)
    {
      if cid == "" {
        return MissingConversationId;
      }
      if !authenticated {
        return AuthenticationFailed;
      }
      if draining {
        return Draining;
      }
      var passed := CheckLimit();
      if !passed {
        return LimitExceeded;
      }
      VerdictIff(cluster.cfg, Interfere(cluster.cfg, cluster.w, h, others), h, cid, fate);
      var owned := ClaimOwnership(cluster, h, cid, fate, others);
      if owned == Some(true) {
        return Admitted;
      }
      GiveUp();
      return if owned.None? then StoreUnavailable else SenderActive;
    }

    /**
     The bound is attained: one connection below the limit, k handshakes pass the check
     before any of them registers.
     */
    method SimultaneousHandshakes(k: nat, cid: string)
      requires Valid() && State() == Gate(0, 0) && peak == 0 && 0 < maxConnections && 0 < k
      modifies this`pending, this`peak, this`log, registry
      ensures Valid() && State() == Gate(maxConnections - 1 + k, 0) && peak == k
    {
      for i := 0 to maxConnections - 1
        invariant Valid() && State() == Gate(i, 0) && peak <= 1
      {
        var _ := CheckLimit();
        Enter(cid, i);
      }
      for j := 0 to k
        invariant Valid() && State() == Gate(maxConnections - 1, j)
        invariant j <= peak <= if j == 0 then 1 else j
      {
        var _ := CheckLimit();
      }
      for j := 0 to k
        invariant Valid() && State() == Gate(maxConnections - 1 + j, k - j) && peak == k
      {
        Enter(cid, maxConnections + j);
      }
    }
  }
}
