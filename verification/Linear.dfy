/**
 What one handler at a time gives a conversation: the unconditional SET of the commit script
 is an increment, the expected number never goes back while its key lives, and the log is the
 expected number plus the landed sends whose commit did not take effect.
 */
module Linear {
  import opened Options
  import opened Redis
  import opened Settings
  import opened Protocol
  import opened Durability
  import opened Lease

  // The number the key stores, expired or not.
  function Stored(cfg: Config, w: World, cid: Cid): Option<nat> {
    var key := SeqKey(cfg, cid);
    if key in w.db && w.db[key].value.Number? then Some(w.db[key].value.n) else None
  }

  function Expected(cfg: Config, w: World, cid: Cid): nat {
    match Stored(cfg, w, cid) case Some(n) => n case None => 0
  }

  // The key has not been created yet, or is alive.
  predicate Kept(cfg: Config, w: World, cid: Cid) {
    SeqKey(cfg, cid) in w.db ==> Live(w.db, w.now, SeqKey(cfg, cid))
  }

  // No commit takes effect after its handler is gone.
  predicate Prompt(a: Action, cid: Cid) {
    !(a.LateCommit? && a.r.cid == cid)
  }

  // And a prepare whose reply is lost does not find the key expired under a handler.
  ghost predicate Steady(cfg: Config, w: World, a: Action, cid: Cid) {
    && Prompt(a, cid)
    && (a.StrayPrepare? && a.r.cid == cid && Enabled(w, a) ==> Kept(cfg, w, cid) || Resting(w, cid))
  }

  // No prepare finds the key expired.
  predicate Unexpired(cfg: Config, w: World, a: Action, cid: Cid) {
    (a.Prepare? || a.StrayPrepare?) && a.r.cid == cid ==> Kept(cfg, w, cid)
  }

  ghost predicate SoloRun(cfg: Config, w: World, acts: seq<Action>, cid: Cid)
    decreases acts
  {
    && OneHandler(w, cid)
    && (acts == [] ||
        (Steady(cfg, w, acts[0], cid) && SoloRun(cfg, Step(cfg, w, acts[0]), acts[1..], cid)))
  }

  ghost predicate UnexpiredRun(cfg: Config, w: World, acts: seq<Action>, cid: Cid)
    decreases acts
  {
    acts == [] || (Unexpired(cfg, w, acts[0], cid) && UnexpiredRun(cfg, Step(cfg, w, acts[0]), acts[1..], cid))
  }

  /** The lease discipline and prompt commits are what makes a run solo; keys may expire. */
  lemma {:induction false} LeaseGivesSoloRun(cfg: Config, w: World, acts: seq<Action>, cid: Cid)
    requires cfg.Accepted() && cfg.Apart() && LeaseInv(cfg, w) && BusyHold(cfg, w)
    requires DisciplinedRun(cfg, w, acts) && forall a | a in acts :: Prompt(a, cid)
    ensures SoloRun(cfg, w, acts, cid)
    decreases acts
  {
    HoldersAreOne(cfg, w, cid);
    if acts != [] {
      var a := acts[0];
      assert Prompt(a, cid);
      if a.StrayPrepare? && a.r.cid == cid && Enabled(w, a) {
        assert TimelyFor(cfg, w, a, a.h);
        IdleHolderMeansRest(cfg, w, a.h, cid);
      }
      StepKeepsLeaseInv(cfg, w, a);
      DisciplinedStepKeepsBusyHold(cfg, w, a);
      LeaseGivesSoloRun(cfg, Step(cfg, w, a), acts[1..], cid);
    }
  }

  predicate Applied(p: Phase) {
    p.Committed? || (p.Sent? && p.applied)
  }

  // The handler in progress knows the stored number.
  ghost predicate Linked(cfg: Config, w: World, cid: Cid) {
    forall h | h in w.busy && w.busy[h].r.cid == cid ::
      Stored(cfg, w, cid) == Some(w.busy[h].r.num + if Applied(w.busy[h]) then 1 else 0)
  }

  predicate Commits(w: World, a: Action, cid: Cid) {
    a.ApplyCommit? && Enabled(w, a) && w.busy[a.h].r.cid == cid && !w.busy[a.h].applied
  }

  /** The commit script, though it never looks at the key, refines expected := expected + 1. */
  lemma CommitIncrements(cfg: Config, w: World, h: Sid, cid: Cid)
    requires Linked(cfg, w, cid)
    requires h in w.busy && w.busy[h].Sent? && w.busy[h].r.cid == cid
    ensures var w' := Step(cfg, w, ApplyCommit(h));
      && Stored(cfg, w, cid) == Some(w.busy[h].r.num + if w.busy[h].applied then 1 else 0)
      && (0 < cfg.activeTtl ==> Live(w'.db, w'.now, SeqKey(cfg, cid)))
      && Stored(cfg, w', cid) == Some(Expected(cfg, w, cid) + if w.busy[h].applied then 0 else 1)
  {}

  lemma StepKeepsStored(cfg: Config, w: World, a: Action, cid: Cid)
    requires cfg.Apart() && Steady(cfg, w, a, cid) && Linked(cfg, w, cid)
    requires !Commits(w, a, cid)
    requires Unexpired(cfg, w, a, cid)
    ensures var s := Stored(cfg, Step(cfg, w, a), cid);
      s == Stored(cfg, w, cid) || (Stored(cfg, w, cid) == None && s == Some(0))
  {
    KeysSeparate(cfg);
  }

  lemma StepKeepsLinked(cfg: Config, w: World, a: Action, cid: Cid)
    requires cfg.Apart() && Steady(cfg, w, a, cid) && Linked(cfg, w, cid)
    requires OneHandler(w, cid) && OneHandler(Step(cfg, w, a), cid)
    ensures Linked(cfg, Step(cfg, w, a), cid)
  {
    if a.Prepare? && a.r.cid == cid {
      PrepareKeepsLinked(cfg, w, a, cid);
    } else if a.StrayPrepare? && a.r.cid == cid && !Kept(cfg, w, cid) {
      assert Enabled(w, a) ==> Resting(Step(cfg, w, a), cid);
    } else if Commits(w, a, cid) {
      CommitKeepsLinked(cfg, w, a, cid);
    } else {
      OtherKeepsLinked(cfg, w, a, cid);
    }
  }

  lemma CommitKeepsLinked(cfg: Config, w: World, a: Action, cid: Cid)
    requires Linked(cfg, w, cid) && OneHandler(w, cid) && Commits(w, a, cid)
    ensures Linked(cfg, Step(cfg, w, a), cid)
  {
    CommitIncrements(cfg, w, a.h, cid);
  }

  lemma OtherKeepsLinked(cfg: Config, w: World, a: Action, cid: Cid)
    requires cfg.Apart() && Steady(cfg, w, a, cid) && Unexpired(cfg, w, a, cid) && Linked(cfg, w, cid)
    requires !Commits(w, a, cid) && !(a.Prepare? && a.r.cid == cid)
    ensures Linked(cfg, Step(cfg, w, a), cid)
  {
    StepKeepsStored(cfg, w, a, cid);
  }

  lemma PrepareKeepsLinked(cfg: Config, w: World, a: Action, cid: Cid)
    requires Linked(cfg, w, cid) && a.Prepare? && a.r.cid == cid
    requires OneHandler(w, cid) && OneHandler(Step(cfg, w, a), cid)
    ensures Linked(cfg, Step(cfg, w, a), cid)
  {
    var w' := Step(cfg, w, a);
    if Enabled(w, a) && SeqReply(cfg, w, a.r).PreCheckOk? {
      assert a.h in w'.busy && w'.busy[a.h].r.cid == cid;
      forall h | h in w'.busy && w'.busy[h].r.cid == cid ensures h == a.h {}
    }
  }

  lemma {:induction false} SoloRunKeepsLinked(cfg: Config, w: World, acts: seq<Action>, cid: Cid)
    requires cfg.Apart() && SoloRun(cfg, w, acts, cid) && Linked(cfg, w, cid)
    ensures Linked(cfg, Run(cfg, w, acts), cid) && OneHandler(Run(cfg, w, acts), cid)
    decreases acts
  {
    if acts != [] {
      StepKeepsLinked(cfg, w, acts[0], cid);
      SoloRunKeepsLinked(cfg, Step(cfg, w, acts[0]), acts[1..], cid);
    }
  }

  /**
   Lease implies linear commits: in every disciplined run with prompt commits, expiries
   included, a first commit makes Redis expect one more than it did when it last expected
   anything, namely the message's own number; Redis expects that number, unless the key has
   expired since the prepare.
   */
  lemma LeaseGivesLinearCommits(cfg: Config, init: World, acts: seq<Action>, h: Sid)
    requires cfg.Accepted() && cfg.Apart() && Initial(init) && DisciplinedRun(cfg, init, acts)
    requires var w := Run(cfg, init, acts); h in w.busy && w.busy[h] == Sent(w.busy[h].r, false)
    requires forall a | a in acts :: Prompt(a, Run(cfg, init, acts).busy[h].r.cid)
    ensures var w := Run(cfg, init, acts);
      var w' := Step(cfg, w, ApplyCommit(h));
      var r := w.busy[h].r;
      var key := SeqKey(cfg, r.cid);
      && key in w.db && w.db[key].value == Number(r.num)
      && Get(w.db, w.now, key) == (if Live(w.db, w.now, key) then Some(Number(r.num)) else None)
      && Get(w'.db, w'.now, key) == Some(Number(r.num + 1))
  {
    var cid := Run(cfg, init, acts).busy[h].r.cid;
    LeaseGivesSoloRun(cfg, init, acts, cid);
    SoloRunKeepsLinked(cfg, init, acts, cid);
    CommitIncrements(cfg, Run(cfg, init, acts), h, cid);
  }

  // How often the commit script advanced the conversation.
  function Advances(cfg: Config, w: World, acts: seq<Action>, cid: Cid): nat
    decreases acts
  {
    if acts == [] then 0
    else (if Commits(w, acts[0], cid) then 1 else 0) + Advances(cfg, Step(cfg, w, acts[0]), acts[1..], cid)
  }

  /** While its key lives, the expected number moves by the commits alone, one at a time. */
  lemma {:induction false} ExpectedCountsCommits(cfg: Config, w: World, acts: seq<Action>, cid: Cid)
    requires cfg.Apart() && SoloRun(cfg, w, acts, cid) && UnexpiredRun(cfg, w, acts, cid) && Linked(cfg, w, cid)
    ensures Expected(cfg, Run(cfg, w, acts), cid) == Expected(cfg, w, cid) + Advances(cfg, w, acts, cid)
    decreases acts
  {
    if acts != [] {
      StepChangesExpected(cfg, w, acts[0], cid);
      StepKeepsLinked(cfg, w, acts[0], cid);
      ExpectedCountsCommits(cfg, Step(cfg, w, acts[0]), acts[1..], cid);
    }
  }

  // ----- conservation -----

  // A landed send is wasted when its handler stops before the commit has run, and when it
  // lands after its handler stopped.
  predicate Wastes(w: World, a: Action, cid: Cid) {
    || (a.LateLand? && Enabled(w, a) && a.r.cid == cid)
    || (a.Abort? && Enabled(w, a) && w.busy[a.h].r.cid == cid && Uncommitted(w.busy[a.h]))
  }

  predicate Uncommitted(p: Phase) {
    (p.Sending? && p.landed) || (p.Sent? && !p.applied)
  }

  function Wasted(cfg: Config, w: World, acts: seq<Action>, cid: Cid): nat
    decreases acts
  {
    if acts == [] then 0
    else (if Wastes(w, acts[0], cid) then 1 else 0) + Wasted(cfg, Step(cfg, w, acts[0]), acts[1..], cid)
  }

  ghost function InProgress(w: World, cid: Cid): nat {
    if exists h :: h in w.busy && w.busy[h].r.cid == cid && Uncommitted(w.busy[h]) then 1 else 0
  }

  ghost function Surplus(cfg: Config, w: World, cid: Cid): int {
    |Log(w.topic, cid)| - Expected(cfg, w, cid) - InProgress(w, cid)
  }

  lemma InProgressOf(w: World, h: Sid, cid: Cid)
    requires OneHandler(w, cid) && h in w.busy && w.busy[h].r.cid == cid
    ensures InProgress(w, cid) == if Uncommitted(w.busy[h]) then 1 else 0
  {}

  // What an action adds to the log, to the expected number and to the work in progress.
  lemma StepChangesLog(cfg: Config, w: World, a: Action, cid: Cid)
    ensures |Log(Step(cfg, w, a).topic, cid)| == |Log(w.topic, cid)| +
      if (a.Land? || a.LateLand?) && Enabled(w, a) && Subject(w, a) == Some(cid) then 1 else 0
  {
    if Enabled(w, a) && (a.Land? || a.LateLand?) {
      LogSnoc(w.topic, if a.Land? then w.busy[a.h].r else a.r, cid);
    }
  }

  lemma StepChangesExpected(cfg: Config, w: World, a: Action, cid: Cid)
    requires cfg.Apart() && Steady(cfg, w, a, cid) && Unexpired(cfg, w, a, cid) && Linked(cfg, w, cid)
    ensures Expected(cfg, Step(cfg, w, a), cid) == Expected(cfg, w, cid) + if Commits(w, a, cid) then 1 else 0
  {
    if Commits(w, a, cid) {
      CommitIncrements(cfg, w, a.h, cid);
    } else {
      StepKeepsStored(cfg, w, a, cid);
    }
  }

  lemma StepChangesInProgress(cfg: Config, w: World, a: Action, cid: Cid)
    requires OneHandler(w, cid) && OneHandler(Step(cfg, w, a), cid)
    ensures InProgress(Step(cfg, w, a), cid) == InProgress(w, cid)
      + (if a.Land? && Enabled(w, a) && w.busy[a.h].r.cid == cid then 1 else 0)
      - (if Commits(w, a, cid) then 1 else 0)
      - (if a.Abort? && Wastes(w, a, cid) then 1 else 0)
  {
    if Enabled(w, a) && (a.BeginSend? || a.Land? || a.SendOk? || a.ApplyCommit? || a.CommitOk? || a.Ack? || a.Abort?) {
      if w.busy[a.h].r.cid == cid {
        InProgressOf(w, a.h, cid);
        if a.h in Step(cfg, w, a).busy {
          InProgressOf(Step(cfg, w, a), a.h, cid);
        } else {
          assert Resting(Step(cfg, w, a), cid);
        }
      } else {
        OtherKeepsInProgress(cfg, w, a, cid);
      }
    } else {
      OtherKeepsInProgress(cfg, w, a, cid);
    }
  }

  lemma OtherKeepsInProgress(cfg: Config, w: World, a: Action, cid: Cid)
    requires !Enabled(w, a) || a.Tick? || a.Prepare? || a.StrayPrepare? || a.LateLand? || a.LateCommit?
      || a.Cleanup? || a.Claim? || a.Release? || w.busy[a.h].r.cid != cid
    ensures InProgress(Step(cfg, w, a), cid) == InProgress(w, cid)
  {
    var w' := Step(cfg, w, a);
    assert forall h | h in w.busy && w.busy[h].r.cid == cid :: h in w'.busy && w'.busy[h] == w.busy[h];
    assert forall h | h in w'.busy && w'.busy[h].r.cid == cid && Uncommitted(w'.busy[h]) ::
      h in w.busy && w'.busy[h] == w.busy[h];
  }

  lemma StepChangesSurplus(cfg: Config, w: World, a: Action, cid: Cid)
    requires cfg.Apart() && Steady(cfg, w, a, cid) && Unexpired(cfg, w, a, cid) && Linked(cfg, w, cid)
    requires OneHandler(w, cid) && OneHandler(Step(cfg, w, a), cid)
    ensures Surplus(cfg, Step(cfg, w, a), cid) == Surplus(cfg, w, cid) + if Wastes(w, a, cid) then 1 else 0
  {
    StepChangesLog(cfg, w, a, cid);
    StepChangesExpected(cfg, w, a, cid);
    StepChangesInProgress(cfg, w, a, cid);
  }

  lemma {:induction false} RunChangesSurplus(cfg: Config, w: World, acts: seq<Action>, cid: Cid)
    requires cfg.Apart() && SoloRun(cfg, w, acts, cid) && UnexpiredRun(cfg, w, acts, cid) && Linked(cfg, w, cid)
    ensures Surplus(cfg, Run(cfg, w, acts), cid) == Surplus(cfg, w, cid) + Wasted(cfg, w, acts, cid)
    decreases acts
  {
    if acts != [] {
      StepChangesSurplus(cfg, w, acts[0], cid);
      StepKeepsLinked(cfg, w, acts[0], cid);
      RunChangesSurplus(cfg, Step(cfg, w, acts[0]), acts[1..], cid);
    }
  }

  /** Conservation: between messages the log is the expected number plus the wasted sends. */
  lemma Conservation(cfg: Config, init: World, acts: seq<Action>, cid: Cid)
    requires cfg.Apart() && Initial(init) && SoloRun(cfg, init, acts, cid) && UnexpiredRun(cfg, init, acts, cid)
    requires Resting(Run(cfg, init, acts), cid)
    ensures var w := Run(cfg, init, acts);
      |Log(w.topic, cid)| == Expected(cfg, w, cid) + Wasted(cfg, init, acts, cid)
  {
    RunChangesSurplus(cfg, init, acts, cid);
  }

  lemma {:induction false} LogOnlyGrows(cfg: Config, w: World, acts: seq<Action>)
    ensures w.topic <= Run(cfg, w, acts).topic
    decreases acts
  {
    if acts != [] {
      LogOnlyGrows(cfg, Step(cfg, w, acts[0]), acts[1..]);
    }
  }

  lemma {:induction false} NothingDropped(log: seq<nat>)
    requires |FirstCopies(log)| == |log|
    ensures FirstCopies(log) == log
  {
    if log != [] {
      var front, last := log[..|log| - 1], log[|log| - 1];
      FirstCopiesMembers(front, 0);
      assert last !in front;
      assert FirstCopies(log) == FirstCopies(front) + [last];
      NothingDropped(front);
      assert log == front + [last];
    }
  }

  /** A run that wastes nothing leaves the log exactly 0, 1, ..., n - 1, with n expected next. */
  lemma FaultFreeLogIsExact(cfg: Config, init: World, acts: seq<Action>, cid: Cid)
    requires cfg.Apart() && Initial(init) && SoloRun(cfg, init, acts, cid) && UnexpiredRun(cfg, init, acts, cid)
    requires Resting(Run(cfg, init, acts), cid) && Wasted(cfg, init, acts, cid) == 0
    ensures var w := Run(cfg, init, acts);
      Log(w.topic, cid) == UpTo(Expected(cfg, w, cid))
  {
    var w := Run(cfg, init, acts);
    var log, n := Log(w.topic, cid), Expected(cfg, w, cid);
    Conservation(cfg, init, acts, cid);
    FirstCopiesInOrder(cfg, init, acts, cid);
    RunKeepsBacked(cfg, init, acts);
    var firsts := FirstCopies(log);
    FirstCopiesMembers(log, 0);
    if |firsts| < n {
      var k := |firsts|;
      assert Covered(w.topic, cid, n);
      LogMembers(w.topic, cid, k);
      FirstCopiesMembers(log, k);
      InUpTo(k, k);
      assert false;
    }
    NothingDropped(log);
  }

  // ----- the grace window -----

  predicate KeyUntil(cfg: Config, w: World, cid: Cid, until: real) {
    var key := SeqKey(cfg, cid);
    key in w.db && until <= w.db[key].expireAt
  }

  lemma StepKeepsKeyUntil(cfg: Config, w: World, a: Action, cid: Cid, t: real)
    requires cfg.Accepted() && cfg.Apart() && t <= w.now
    requires KeyUntil(cfg, w, cid, t + cfg.finalTtl as real)
    ensures KeyUntil(cfg, Step(cfg, w, a), cid, t + cfg.finalTtl as real) && t <= Step(cfg, w, a).now
  {
    KeysSeparate(cfg);
  }

  lemma {:induction false} RunKeepsKeyUntil(cfg: Config, w: World, acts: seq<Action>, cid: Cid, t: real)
    requires cfg.Accepted() && cfg.Apart() && t <= w.now
    requires KeyUntil(cfg, w, cid, t + cfg.finalTtl as real)
    ensures KeyUntil(cfg, Run(cfg, w, acts), cid, t + cfg.finalTtl as real) && t <= Run(cfg, w, acts).now
    decreases acts
  {
    if acts != [] {
      StepKeepsKeyUntil(cfg, w, acts[0], cid, t);
      RunKeepsKeyUntil(cfg, Step(cfg, w, acts[0]), acts[1..], cid, t);
    }
  }

  /** After a commit the key lives for the final TTL, whatever scripts of anybody follow. */
  lemma GraceWindow(cfg: Config, w: World, r: Record, acts: seq<Action>)
    requires cfg.Accepted() && cfg.Apart()
    requires Run(cfg, RunCommit(cfg, w, r), acts).now < w.now + cfg.finalTtl as real
    ensures var w' := Run(cfg, RunCommit(cfg, w, r), acts);
      Live(w'.db, w'.now, SeqKey(cfg, r.cid))
  {
    RunKeepsKeyUntil(cfg, RunCommit(cfg, w, r), acts, r.cid, w.now);
  }

  /** The settings rule final TTL <= active TTL is exactly what the window needs. */
  lemma GraceWindowIffTtlRule(cfg: Config, w: World, r: Record)
    requires cfg.Apart() && 0 < cfg.finalTtl && 0 < cfg.activeTtl && 0 < cfg.guardTtl
    requires cfg.seqPrefix != "" && cfg.leasePrefix != "" && 0.0 < cfg.refreshInterval < cfg.guardTtl as real
    ensures cfg.finalTtl <= cfg.activeTtl <==>
      forall acts :: var w' := Run(cfg, RunCommit(cfg, w, r), acts);
        w'.now < w.now + cfg.finalTtl as real ==> Live(w'.db, w'.now, SeqKey(cfg, r.cid))
  {
    if cfg.finalTtl <= cfg.activeTtl {
      forall acts | Run(cfg, RunCommit(cfg, w, r), acts).now < w.now + cfg.finalTtl as real
        ensures var w' := Run(cfg, RunCommit(cfg, w, r), acts); Live(w'.db, w'.now, SeqKey(cfg, r.cid))
      {
        GraceWindow(cfg, w, r, acts);
      }
    } else {
      var wait := [Tick(cfg.activeTtl as real)];
      var w1 := RunCommit(cfg, w, r);
      assert Run(cfg, w1, wait) == Run(cfg, Step(cfg, w1, wait[0]), wait[1..]) == Step(cfg, w1, wait[0]);
      assert !Live(Run(cfg, w1, wait).db, Run(cfg, w1, wait).now, SeqKey(cfg, r.cid));
    }
  }

  lemma {:induction false} WindowIsUnexpired(
    cfg: Config, w: World, acts: seq<Action>, cid: Cid, until: real, t: real)
    requires cfg.Accepted() && cfg.Apart() && t <= w.now && until == t + cfg.finalTtl as real
    requires KeyUntil(cfg, w, cid, until) && Run(cfg, w, acts).now < until
    ensures UnexpiredRun(cfg, w, acts, cid) && w.now <= Run(cfg, w, acts).now
    decreases acts
  {
    if acts != [] {
      StepKeepsKeyUntil(cfg, w, acts[0], cid, t);
      WindowIsUnexpired(cfg, Step(cfg, w, acts[0]), acts[1..], cid, until, t);
    }
  }

  /**
   In the window after its commit, every replay of a number is answered IDEMPOTENT: it is
   acknowledged, and neither the log nor the key space changes.
   */
  lemma ReplayInWindowIsIdempotent(cfg: Config, w: World, h: Sid, acts: seq<Action>, g: Sid)
    requires cfg.Accepted() && cfg.Apart()
    requires h in w.busy && w.busy[h].Sent? && Linked(cfg, w, w.busy[h].r.cid)
    requires var r := w.busy[h].r; SoloRun(cfg, w, [ApplyCommit(h)] + acts, r.cid)
    requires var w' := Run(cfg, Step(cfg, w, ApplyCommit(h)), acts);
      w'.now < w.now + cfg.finalTtl as real && g !in w'.busy
    ensures var r := w.busy[h].r;
      var w' := Run(cfg, Step(cfg, w, ApplyCommit(h)), acts);
      && SeqReply(cfg, w', r).Idempotent?
      && Step(cfg, w', Prepare(g, r)) == w'.(acks := w'.acks + {r})
  {
    var r, w1 := w.busy[h].r, Step(cfg, w, ApplyCommit(h));
    assert ([ApplyCommit(h)] + acts)[1..] == acts;
    CommitIncrements(cfg, w, h, r.cid);
    StepKeepsLinked(cfg, w, ApplyCommit(h), r.cid);
    WindowIsUnexpired(cfg, w1, acts, r.cid, w.now + cfg.finalTtl as real, w.now);
    RunKeepsKeyUntil(cfg, w1, acts, r.cid, w.now);
    ExpectedCountsCommits(cfg, w1, acts, r.cid);
    assert Expected(cfg, w1, r.cid) == r.num + 1;
  }
}
