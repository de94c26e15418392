/**
 The ownership lease, under every interleaving of claims, refreshes, releases and clock
 ticks, and what it buys the delivery protocol: one handler per conversation at a time.
 */
module Lease {
  import opened Options
  import opened Redis
  import opened Settings
  import opened Protocol

  // The session's last OWNED reply is less than one guard TTL old, and it has not released.
  predicate Unlapsed(cfg: Config, w: World, h: Sid) {
    h in w.holds && w.now < w.holds[h].since + cfg.guardTtl as real
  }

  // The lease key names h and outlives the TTL counted from its last OWNED reply.
  predicate KeyHeld(cfg: Config, w: World, h: Sid)
    requires h in w.holds
  {
    var key := LeaseKey(cfg, w.holds[h].cid);
    && key in w.db
    && w.db[key].value == Token(h)
    && w.holds[h].since + cfg.guardTtl as real <= w.db[key].expireAt
  }

  ghost predicate LeaseInv(cfg: Config, w: World) {
    forall h | h in w.holds :: w.holds[h].since <= w.now && (Unlapsed(cfg, w, h) ==> KeyHeld(cfg, w, h))
  }

  lemma OtherStepKeepsLeaseInv(cfg: Config, w: World, a: Action)
    requires cfg.Apart() && LeaseInv(cfg, w) && !a.Claim? && !a.Release?
    ensures LeaseInv(cfg, Step(cfg, w, a))
  {
    KeysSeparate(cfg);
    var w' := Step(cfg, w, a);
    assert w'.holds == w.holds && w.now <= w'.now;
    forall h | h in w'.holds && Unlapsed(cfg, w', h) ensures KeyHeld(cfg, w', h) {
      assert Unlapsed(cfg, w, h) && KeyHeld(cfg, w, h);
    }
  }

  lemma StepKeepsLeaseInv(cfg: Config, w: World, a: Action)
    requires cfg.Accepted() && cfg.Apart() && LeaseInv(cfg, w)
    ensures LeaseInv(cfg, Step(cfg, w, a))
  {
    if a.Claim? || a.Release? {
      KeysSeparate(cfg);
      var w' := Step(cfg, w, a);
      forall h | h in w'.holds && Unlapsed(cfg, w', h) ensures KeyHeld(cfg, w', h) {
        if h != a.h {
          assert Unlapsed(cfg, w, h) && KeyHeld(cfg, w, h);
        }
      }
    } else {
      OtherStepKeepsLeaseInv(cfg, w, a);
    }
  }

  lemma {:induction false} RunKeepsLeaseInv(cfg: Config, w: World, acts: seq<Action>)
    requires cfg.Accepted() && cfg.Apart() && LeaseInv(cfg, w)
    ensures LeaseInv(cfg, Run(cfg, w, acts))
    decreases acts
  {
    if acts != [] {
      StepKeepsLeaseInv(cfg, w, acts[0]);
      RunKeepsLeaseInv(cfg, Step(cfg, w, acts[0]), acts[1..]);
    }
  }

  /** A session still holds the key for one TTL after its last OWNED reply, unless it releases. */
  lemma OwnedKeepsKey(cfg: Config, init: World, acts: seq<Action>, h: Sid)
    requires cfg.Accepted() && cfg.Apart() && Initial(init)
    requires Unlapsed(cfg, Run(cfg, init, acts), h)
    ensures var w := Run(cfg, init, acts);
      && Get(w.db, w.now, LeaseKey(cfg, w.holds[h].cid)) == Some(Token(h))
      && ClaimReply(cfg, w, h, w.holds[h].cid)
  {
    RunKeepsLeaseInv(cfg, init, acts);
  }

  /** No two sessions hold unlapsed leases on one conversation. */
  lemma LeaseIsExclusive(cfg: Config, init: World, acts: seq<Action>, h: Sid, g: Sid)
    requires cfg.Accepted() && cfg.Apart() && Initial(init)
    requires var w := Run(cfg, init, acts);
      Unlapsed(cfg, w, h) && Unlapsed(cfg, w, g) && w.holds[h].cid == w.holds[g].cid
    ensures h == g
  {
    OwnedKeepsKey(cfg, init, acts, h);
    OwnedKeepsKey(cfg, init, acts, g);
  }

  /** Whatever another session claims or releases, an unlapsed lease stays where it is. */
  lemma OthersCannotTakeLease(cfg: Config, init: World, acts: seq<Action>, h: Sid, a: Action)
    requires cfg.Accepted() && cfg.Apart() && Initial(init)
    requires Unlapsed(cfg, Run(cfg, init, acts), h) && (a.Claim? || a.Release?) && a.h != h
    ensures var w := Run(cfg, init, acts);
      var key := LeaseKey(cfg, w.holds[h].cid);
      var w' := Step(cfg, w, a);
      key in w.db && key in w'.db && w'.db[key] == w.db[key] && Unlapsed(cfg, w', h)
  {
    KeysSeparate(cfg);
    RunKeepsLeaseInv(cfg, init, acts);
  }

  // ----- what the key carries -----

  // The lease key is alive and names the session.
  predicate Carries(cfg: Config, w: World, h: Sid, id: LeaseId) {
    Get(w.db, w.now, LeaseKey(cfg, id)) == Some(Token(h))
  }

  // The lease key is alive and does not name the session.
  predicate TakenByOther(cfg: Config, w: World, h: Sid, id: LeaseId) {
    var key := LeaseKey(cfg, id);
    Live(w.db, w.now, key) && w.db[key].value != Token(h)
  }

  // Nobody has written the session's token anywhere.
  ghost predicate NewToken(w: World, h: Sid) {
    forall key | key in w.db :: w.db[key].value != Token(h)
  }

  // What the statements about the key assume: accepted settings, prefixes apart, a new token.
  ghost predicate Tracked(cfg: Config, w: World, h: Sid) {
    cfg.Accepted() && cfg.Apart() && NewToken(w, h)
  }

  // The claim script runs and grants, whether or not the session learns of it.
  predicate Grants(cfg: Config, w: World, a: Action, h: Sid, id: LeaseId) {
    a.Claim? && a.h == h && a.id == id && Enabled(w, a) && ClaimReply(cfg, w, h, id)
  }

  function LastGrant(cfg: Config, w: World, acts: seq<Action>, h: Sid, id: LeaseId, last: Option<real>): Option<real>
    decreases acts
  {
    if acts == [] then last
    else LastGrant(cfg, Step(cfg, w, acts[0]), acts[1..], h, id,
                   if Grants(cfg, w, acts[0], h, id) then Some(w.now) else last)
  }

  // The grant is less than one TTL old.
  predicate Lasts(cfg: Config, now: real, grant: Option<real>) {
    grant.Some? && now < grant.value + cfg.guardTtl as real
  }

  // The key is the session's from the last grant on, for one TTL and no longer.
  predicate KeyFollows(cfg: Config, w: World, h: Sid, id: LeaseId, last: Option<real>) {
    var key := LeaseKey(cfg, id);
    && (key in w.db && w.db[key].value == Token(h) ==>
          last.Some? && w.db[key].expireAt == last.value + cfg.guardTtl as real)
    && (Lasts(cfg, w.now, last) ==> key in w.db && w.db[key].value == Token(h))
  }

  lemma StepKeepsKeyFollows(cfg: Config, w: World, a: Action, h: Sid, id: LeaseId, last: Option<real>)
    requires cfg.Accepted() && cfg.Apart() && KeyFollows(cfg, w, h, id, last)
    requires a.Release? ==> a.h != h
    ensures KeyFollows(cfg, Step(cfg, w, a), h, id, if Grants(cfg, w, a, h, id) then Some(w.now) else last)
  {
    KeysSeparate(cfg);
  }

  lemma {:induction false} RunKeepsKeyFollows(
    cfg: Config, w: World, acts: seq<Action>, h: Sid, id: LeaseId, last: Option<real>)
    requires cfg.Accepted() && cfg.Apart() && KeyFollows(cfg, w, h, id, last)
    requires forall a | a in acts :: a.Release? ==> a.h != h
    ensures KeyFollows(cfg, Run(cfg, w, acts), h, id, LastGrant(cfg, w, acts, h, id, last))
    decreases acts
  {
    if acts != [] {
      assert acts[0] in acts;
      StepKeepsKeyFollows(cfg, w, acts[0], h, id, last);
      RunKeepsKeyFollows(cfg, Step(cfg, w, acts[0]), acts[1..], h, id,
                         if Grants(cfg, w, acts[0], h, id) then Some(w.now) else last);
    }
  }

  /**
   For a new token, and as long as its session does not release: the key carries it exactly
   while the last grant, known to the session or not, is less than one TTL old.
   */
  lemma CarriesIffGranted(cfg: Config, w: World, acts: seq<Action>, h: Sid, id: LeaseId)
    requires Tracked(cfg, w, h)
    requires forall a | a in acts :: a.Release? ==> a.h != h
    ensures var w' := Run(cfg, w, acts);
      Carries(cfg, w', h, id) <==> Lasts(cfg, w'.now, LastGrant(cfg, w, acts, h, id, None))
  {
    RunKeepsKeyFollows(cfg, w, acts, h, id, None);
  }

  // ----- one handler at a time -----

  // What the session code sees to: messages are handled only by a session that was told it
  // owns the conversation, and the lease is released after the last message.
  predicate Orderly(w: World, a: Action) {
    match a
    case Prepare(h, r) => h in w.holds && w.holds[h].cid == r.cid
    case StrayPrepare(h, r) => h in w.holds && w.holds[h].cid == r.cid
    case Release(h, _) => h !in w.busy
    case _ => true
  }

  // What it takes from time, for one session: no gap between its claims reaches the TTL
  // before its last message ends.
  predicate TimelyFor(cfg: Config, w: World, a: Action, h: Sid) {
    match a
    case Prepare(g, _) => g == h && h in w.holds ==> Unlapsed(cfg, w, h)
    case StrayPrepare(g, _) => g == h && h in w.holds ==> Unlapsed(cfg, w, h)
    case Tick(d) => h in w.busy && h in w.holds ==> w.now + d < w.holds[h].since + cfg.guardTtl as real
    case _ => true
  }

  ghost predicate Disciplined(cfg: Config, w: World, a: Action) {
    Orderly(w, a) && forall h :: TimelyFor(cfg, w, a, h)
  }

  ghost predicate DisciplinedRun(cfg: Config, w: World, acts: seq<Action>)
    decreases acts
  {
    acts == [] || (Disciplined(cfg, w, acts[0]) && DisciplinedRun(cfg, Step(cfg, w, acts[0]), acts[1..]))
  }

  ghost predicate BusyHold(cfg: Config, w: World) {
    forall h | h in w.busy :: Unlapsed(cfg, w, h) && w.holds[h].cid == w.busy[h].r.cid
  }

  // At most one handler is between prepare and its return.
  ghost predicate OneHandler(w: World, cid: Cid) {
    forall h, g | h in w.busy && g in w.busy && w.busy[h].r.cid == cid && w.busy[g].r.cid == cid :: h == g
  }

  lemma DisciplinedStepKeepsBusyHold(cfg: Config, w: World, a: Action)
    requires cfg.Accepted() && BusyHold(cfg, w) && Disciplined(cfg, w, a)
    ensures BusyHold(cfg, Step(cfg, w, a))
  {
    var w' := Step(cfg, w, a);
    forall h | h in w'.busy ensures Unlapsed(cfg, w', h) && w'.holds[h].cid == w'.busy[h].r.cid {
      assert TimelyFor(cfg, w, a, h);
      assert h in w.busy ==> Unlapsed(cfg, w, h);
    }
  }

  lemma {:induction false} DisciplineKeepsBusyHold(cfg: Config, w: World, acts: seq<Action>)
    requires cfg.Accepted() && cfg.Apart()
    requires LeaseInv(cfg, w) && BusyHold(cfg, w) && DisciplinedRun(cfg, w, acts)
    ensures LeaseInv(cfg, Run(cfg, w, acts)) && BusyHold(cfg, Run(cfg, w, acts))
    decreases acts
  {
    if acts != [] {
      StepKeepsLeaseInv(cfg, w, acts[0]);
      DisciplinedStepKeepsBusyHold(cfg, w, acts[0]);
      DisciplineKeepsBusyHold(cfg, Step(cfg, w, acts[0]), acts[1..]);
    }
  }

  lemma {:induction false} OneHandlerAt(cfg: Config, w: World, acts: seq<Action>, n: nat, cid: Cid)
    requires cfg.Accepted() && cfg.Apart() && n <= |acts|
    requires LeaseInv(cfg, w) && BusyHold(cfg, w) && DisciplinedRun(cfg, w, acts)
    ensures OneHandler(Run(cfg, w, acts[..n]), cid)
    decreases n
  {
    if n == 0 {
      HoldersAreOne(cfg, w, cid);
    } else {
      StepKeepsLeaseInv(cfg, w, acts[0]);
      DisciplinedStepKeepsBusyHold(cfg, w, acts[0]);
      OneHandlerAt(cfg, Step(cfg, w, acts[0]), acts[1..], n - 1, cid);
      assert acts[..n][1..] == acts[1..][..n - 1];
    }
  }

  /** The two protocols composed: a disciplined run never has two handlers on one conversation. */
  lemma LeaseGivesOneHandler(cfg: Config, init: World, acts: seq<Action>, cid: Cid)
    requires cfg.Accepted() && cfg.Apart() && Initial(init) && DisciplinedRun(cfg, init, acts)
    ensures forall n | 0 <= n <= |acts| :: OneHandler(Run(cfg, init, acts[..n]), cid)
  {
    forall n | 0 <= n <= |acts| ensures OneHandler(Run(cfg, init, acts[..n]), cid) {
      OneHandlerAt(cfg, init, acts, n, cid);
    }
  }

  lemma HoldersAreOne(cfg: Config, w: World, cid: Cid)
    requires LeaseInv(cfg, w) && BusyHold(cfg, w)
    ensures OneHandler(w, cid)
  {
    forall h, g | h in w.busy && g in w.busy && w.busy[h].r.cid == cid && w.busy[g].r.cid == cid ensures h == g {
      assert KeyHeld(cfg, w, h) && KeyHeld(cfg, w, g);
    }
  }

  // Nobody handles a message of the conversation.
  ghost predicate Resting(w: World, cid: Cid) {
    forall h | h in w.busy :: w.busy[h].r.cid != cid
  }

  /** While an idle session holds the lease, nobody else handles a message of the conversation. */
  lemma IdleHolderMeansRest(cfg: Config, w: World, h: Sid, cid: Cid)
    requires LeaseInv(cfg, w) && BusyHold(cfg, w)
    requires h !in w.busy && Unlapsed(cfg, w, h) && w.holds[h].cid == cid
    ensures Resting(w, cid)
  {
    assert KeyHeld(cfg, w, h);
    forall g | g in w.busy ensures w.busy[g].r.cid != cid {
      assert KeyHeld(cfg, w, g);
    }
  }
}
