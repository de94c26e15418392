/**
 The expiry of a sequence key: what one message leaves behind when nobody else touches the key
 meanwhile. Any other conversation, lease, append or clock tick may go on.
 */
module KeyLife {
  import opened Options
  import opened Redis
  import opened Settings
  import opened Protocol
  import opened Orchestrator
  import opened Handling

  function EntryOf(cfg: Config, w: World, cid: Cid): Option<Entry> {
    if SeqKey(cfg, cid) in w.db then Some(w.db[SeqKey(cfg, cid)]) else None
  }

  // Not a script of somebody else on the conversation's sequence key.
  predicate HandsOff(a: Action, cid: Cid) {
    && !((a.Prepare? || a.StrayPrepare? || a.LateCommit?) && a.r.cid == cid)
    && !(a.Cleanup? && a.cid == cid)
  }

  ghost predicate HandsOffEnv(env: Env, cid: Cid) {
    forall i, a | a in env(i) :: HandsOff(a, cid)
  }

  // No other handler is busy with the conversation.
  ghost predicate Lone(w: World, h: Sid, cid: Cid) {
    forall g | g in w.busy && g != h :: w.busy[g].r.cid != cid
  }

  lemma UntouchedStep(cfg: Config, w: World, h: Sid, cid: Cid, a: Action)
    requires cfg.Apart() && Lone(w, h, cid) && ByOthers(a, h) && HandsOff(a, cid)
    ensures Lone(Step(cfg, w, a), h, cid) && EntryOf(cfg, Step(cfg, w, a), cid) == EntryOf(cfg, w, cid)
  {
    KeysSeparate(cfg);
  }

  lemma {:induction false} UntouchedRun(cfg: Config, w: World, h: Sid, cid: Cid, acts: seq<Action>)
    requires cfg.Apart() && Lone(w, h, cid) && AllByOthers(acts, h) && forall a | a in acts :: HandsOff(a, cid)
    ensures Lone(Run(cfg, w, acts), h, cid) && EntryOf(cfg, Run(cfg, w, acts), cid) == EntryOf(cfg, w, cid)
    decreases acts
  {
    if acts != [] {
      assert ByOthers(acts[0], h) && acts[0] in acts;
      UntouchedStep(cfg, w, h, cid, acts[0]);
      UntouchedRun(cfg, Step(cfg, w, acts[0]), h, cid, acts[1..]);
    }
  }

  // The handler of h is in phase p, alone with the conversation, whose key has the entry e.
  ghost predicate Stands(cfg: Config, w: World, h: Sid, p: Phase, e: Option<Entry>) {
    Lone(w, h, p.r.cid) && h in w.busy && w.busy[h] == p && EntryOf(cfg, w, p.r.cid) == e
  }

  lemma InterfereStands(cfg: Config, w: World, h: Sid, p: Phase, e: Option<Entry>, env: Env, i: nat)
    requires cfg.Apart() && HandsOffEnv(env, p.r.cid) && Stands(cfg, w, h, p, e)
    ensures Stands(cfg, Interfere(cfg, w, h, env(i)), h, p, e)
  {
    OthersAreOthers(h, env(i));
    UntouchedRun(cfg, w, h, p.r.cid, Others(h, env(i)));
    InterfereKeeps(cfg, w, h, env(i));
  }

  // Neither sending nor the ends of calls touch a key.
  lemma OwnStepStands(cfg: Config, w: World, h: Sid, r: Record, e: Option<Entry>)
    ensures Stands(cfg, w, h, Prepared(r), e) ==> Stands(cfg, Step(cfg, w, BeginSend(h)), h, Sending(r, false), e)
    ensures Stands(cfg, w, h, Sending(r, false), e) ==> Stands(cfg, Step(cfg, w, Land(h)), h, Sending(r, true), e)
    ensures Stands(cfg, w, h, Sending(r, true), e) ==> Stands(cfg, Step(cfg, w, SendOk(h)), h, Sent(r, false), e)
    ensures Stands(cfg, w, h, Sent(r, true), e) ==> Stands(cfg, Step(cfg, w, CommitOk(h)), h, Committed(r), e)
  {}

  lemma StopKeepsEntry(cfg: Config, w: World, h: Sid, p: Phase, e: Option<Entry>)
    requires Stands(cfg, w, h, p, e)
    ensures EntryOf(cfg, Step(cfg, w, Abort(h)), p.r.cid) == e && EntryOf(cfg, Step(cfg, w, Ack(h)), p.r.cid) == e
  {}

  // What the scripts leave that take effect on the key.
  function AfterPrepareAt(cfg: Config, w: World, r: Record): Option<Entry> {
    Some(Entry(Number(r.num), w.now + cfg.activeTtl as real))
  }

  function AfterCommitAt(cfg: Config, w: World, r: Record): Option<Entry> {
    Some(Entry(Number(r.num + 1), w.now + cfg.activeTtl as real))
  }

  function AfterCleanupAt(cfg: Config, w: World, r: Record): Option<Entry> {
    Some(Entry(Number(r.num + 1), w.now + cfg.finalTtl as real))
  }

  // The key after a commit at wk: a cleanup at wc shortens its life, if it is not over by then.
  function CommittedEntry(cfg: Config, wk: World, wc: World, m: Message, f: Fates): Option<Entry> {
    if f.commit.Returned? && m.ev.Complete? && Effective(f.cleanup) && wc.now < wk.now + cfg.activeTtl as real
      then AfterCleanupAt(cfg, wc, m.r)
    else AfterCommitAt(cfg, wk, m.r)
  }

  // The key that a message leaves, from the states in which its scripts run.
  function LeftEntry(cfg: Config, w0: World, wk: World, wc: World, m: Message, f: Fates): Option<Entry> {
    if !Fits(cfg, w0, m.r) || !Effective(f.prepare) then EntryOf(cfg, w0, m.r.cid)
    else if f.prepare.Raised? || !f.send.Acked? || !Effective(f.commit) then AfterPrepareAt(cfg, w0, m.r)
    else CommittedEntry(cfg, wk, wc, m, f)
  }

  lemma CommitStands(cfg: Config, w: World, h: Sid, r: Record, e: Option<Entry>)
    requires Stands(cfg, w, h, Sent(r, false), e)
    ensures Stands(cfg, Step(cfg, w, ApplyCommit(h)), h, Sent(r, true), AfterCommitAt(cfg, w, r))
  {}

  lemma CleanupStands(cfg: Config, w: World, h: Sid, r: Record, e: Entry)
    requires Stands(cfg, w, h, Committed(r), Some(e))
    ensures Stands(cfg, Step(cfg, w, Cleanup(h, r.cid)), h, Committed(r),
                   Some(if w.now < e.expireAt then e.(expireAt := w.now + cfg.finalTtl as real) else e))
  {}

  lemma CleanedLeaves(cfg: Config, w: World, h: Sid, m: Message, f: Fates, env: Env, e: Entry)
    requires cfg.Apart() && HandsOffEnv(env, m.r.cid) && Stands(cfg, w, h, Committed(m.r), Some(e))
    requires m.ev.Complete? && Effective(f.cleanup)
    ensures var wc := Interfere(cfg, w, h, env(5));
      EntryOf(cfg, FinishStage(cfg, w, h, m, f, env).0, m.r.cid) ==
      Some(if wc.now < e.expireAt then e.(expireAt := wc.now + cfg.finalTtl as real) else e)
  {
    var wc := Interfere(cfg, w, h, env(5));
    InterfereStands(cfg, w, h, Committed(m.r), Some(e), env, 5);
    CleanupStands(cfg, wc, h, m.r, e);
    StopKeepsEntry(cfg, Step(cfg, wc, Cleanup(h, m.r.cid)), h, Committed(m.r),
                   Some(if wc.now < e.expireAt then e.(expireAt := wc.now + cfg.finalTtl as real) else e));
  }

  lemma UncleanedLeaves(cfg: Config, w: World, h: Sid, m: Message, f: Fates, env: Env, e: Entry)
    requires cfg.Apart() && HandsOffEnv(env, m.r.cid) && Stands(cfg, w, h, Committed(m.r), Some(e))
    requires !(m.ev.Complete? && Effective(f.cleanup))
    ensures EntryOf(cfg, FinishStage(cfg, w, h, m, f, env).0, m.r.cid) == Some(e)
  {
    InterfereStands(cfg, w, h, Committed(m.r), Some(e), env, 5);
    StopKeepsEntry(cfg, if m.ev.Complete? then Interfere(cfg, w, h, env(5)) else w, h, Committed(m.r), Some(e));
  }

  lemma FinishLeaves(cfg: Config, w: World, h: Sid, m: Message, f: Fates, env: Env, wk: World)
    requires cfg.Apart() && HandsOffEnv(env, m.r.cid) && f.commit.Returned?
    requires Stands(cfg, w, h, Committed(m.r), AfterCommitAt(cfg, wk, m.r))
    ensures EntryOf(cfg, FinishStage(cfg, w, h, m, f, env).0, m.r.cid)
      == CommittedEntry(cfg, wk, Interfere(cfg, w, h, env(5)), m, f)
  {
    var e := AfterCommitAt(cfg, wk, m.r).value;
    if m.ev.Complete? && Effective(f.cleanup) {
      CleanedLeaves(cfg, w, h, m, f, env, e);
    } else {
      UncleanedLeaves(cfg, w, h, m, f, env, e);
    }
  }

  // From the state in which the commit script runs.
  lemma CommittedLeaves(cfg: Config, wk: World, h: Sid, m: Message, f: Fates, env: Env, e: Option<Entry>)
    requires cfg.Apart() && HandsOffEnv(env, m.r.cid) && Stands(cfg, wk, h, Sent(m.r, false), e)
    ensures var w2 := Interfere(cfg, Step(cfg, wk, ApplyCommit(h)), h, env(4));
      EntryOf(cfg, if f.commit.Raised? then Step(cfg, w2, Abort(h))
                   else FinishStage(cfg, Step(cfg, w2, CommitOk(h)), h, m, f, env).0, m.r.cid)
      == CommittedEntry(cfg, wk, AtCleanup(cfg, wk, h, env), m, f)
  {
    var v, e' := Step(cfg, wk, ApplyCommit(h)), AfterCommitAt(cfg, wk, m.r);
    CommitStands(cfg, wk, h, m.r, e);
    InterfereStands(cfg, v, h, Sent(m.r, true), e', env, 4);
    var w2 := Interfere(cfg, v, h, env(4));
    if f.commit.Raised? {
      StopKeepsEntry(cfg, w2, h, Sent(m.r, true), e');
    } else {
      OwnStepStands(cfg, w2, h, m.r, e');
      FinishLeaves(cfg, Step(cfg, w2, CommitOk(h)), h, m, f, env, wk);
    }
  }

  lemma CommitLeaves(cfg: Config, w: World, h: Sid, m: Message, f: Fates, env: Env, e: Option<Entry>)
    requires cfg.Apart() && HandsOffEnv(env, m.r.cid) && Stands(cfg, w, h, Sent(m.r, false), e)
    ensures var wk := Interfere(cfg, w, h, env(3));
      var wc := AtCleanup(cfg, wk, h, env);
      EntryOf(cfg, CommitStage(cfg, w, h, m, f, env).0, m.r.cid) ==
      if !Effective(f.commit) then e
      else CommittedEntry(cfg, wk, wc, m, f)
  {
    var wk := Interfere(cfg, w, h, env(3));
    InterfereStands(cfg, w, h, Sent(m.r, false), e, env, 3);
    if Effective(f.commit) {
      CommittedLeaves(cfg, wk, h, m, f, env, e);
    } else {
      InterfereStands(cfg, wk, h, Sent(m.r, false), e, env, 4);
      StopKeepsEntry(cfg, Interfere(cfg, wk, h, env(4)), h, Sent(m.r, false), e);
    }
  }

  lemma SendLeaves(cfg: Config, w: World, h: Sid, m: Message, f: Fates, env: Env, e: Option<Entry>)
    requires cfg.Apart() && HandsOffEnv(env, m.r.cid) && Stands(cfg, w, h, Prepared(m.r), e)
    ensures var wk := AtCommit(cfg, w, h, env);
      var wc := AtCleanup(cfg, wk, h, env);
      EntryOf(cfg, SendStage(cfg, w, h, m, f, env).0, m.r.cid) ==
      if !(f.send.Acked? && Effective(f.commit)) then e
      else CommittedEntry(cfg, wk, wc, m, f)
  {
    StopKeepsEntry(cfg, w, h, Prepared(m.r), e);
    OwnStepStands(cfg, w, h, m.r, e);
    var v1 := Step(cfg, w, BeginSend(h));
    InterfereStands(cfg, v1, h, Sending(m.r, false), e, env, 1);
    var w1 := Interfere(cfg, v1, h, env(1));
    OwnStepStands(cfg, w1, h, m.r, e);
    var landed := Landed(f.send);
    var v2 := if landed then Step(cfg, w1, Land(h)) else w1;
    InterfereStands(cfg, v2, h, Sending(m.r, landed), e, env, 2);
    var w2 := Interfere(cfg, v2, h, env(2));
    StopKeepsEntry(cfg, w2, h, Sending(m.r, landed), e);
    if f.send.Acked? {
      OwnStepStands(cfg, w2, h, m.r, e);
      CommitLeaves(cfg, Step(cfg, w2, SendOk(h)), h, m, f, env, e);
    }
  }

  lemma PrepareLeaves(cfg: Config, w: World, h: Sid, r: Record)
    requires h !in w.busy && Lone(w, h, r.cid)
    ensures EntryOf(cfg, RunPrepare(cfg, w, r), r.cid) ==
      if Fits(cfg, w, r) then AfterPrepareAt(cfg, w, r) else EntryOf(cfg, w, r.cid)
    ensures Fits(cfg, w, r) ==>
      Stands(cfg, Step(cfg, w, Prepare(h, r)), h, Prepared(r), AfterPrepareAt(cfg, w, r))
  {}

  lemma BeforePrepare(cfg: Config, w: World, h: Sid, cid: Cid, env: Env)
    requires cfg.Apart() && h !in w.busy && Lone(w, h, cid) && HandsOffEnv(env, cid)
    ensures var w0 := Interfere(cfg, w, h, env(0));
      h !in w0.busy && Lone(w0, h, cid) && EntryOf(cfg, w0, cid) == EntryOf(cfg, w, cid)
  {
    OthersAreOthers(h, env(0));
    UntouchedRun(cfg, w, h, cid, Others(h, env(0)));
    InterfereKeeps(cfg, w, h, env(0));
  }

  // The first stage decides whether there are others.
  lemma HandleStarts(cfg: Config, w: World, h: Sid, m: Message, f: Fates, env: Env)
    ensures var w0 := Interfere(cfg, w, h, env(0));
      var w' := Handle(cfg, w, h, Some(m), f, env).0;
      if f.prepare.Returned? && Fits(cfg, w0, m.r)
        then w' == SendStage(cfg, Step(cfg, w0, Prepare(h, m.r)), h, m, f, env).0
      else h !in w0.busy ==> w'.db == (if Effective(f.prepare) then RunPrepare(cfg, w0, m.r) else w0).db
  {}

  lemma AcceptedLeaves(cfg: Config, w0: World, h: Sid, m: Message, f: Fates, env: Env)
    requires cfg.Apart() && h !in w0.busy && Lone(w0, h, m.r.cid) && HandsOffEnv(env, m.r.cid)
    requires f.prepare.Returned? && Fits(cfg, w0, m.r)
    ensures var w1 := Step(cfg, w0, Prepare(h, m.r));
      var wk := AtCommit(cfg, w1, h, env);
      var wc := AtCleanup(cfg, wk, h, env);
      EntryOf(cfg, SendStage(cfg, w1, h, m, f, env).0, m.r.cid) == LeftEntry(cfg, w0, wk, wc, m, f)
  {
    PrepareLeaves(cfg, w0, h, m.r);
    SendLeaves(cfg, Step(cfg, w0, Prepare(h, m.r)), h, m, f, env, AfterPrepareAt(cfg, w0, m.r));
  }

  /**
   The key that one message leaves, if nobody else touches it: committed, it holds the next
   number for the active TTL from the commit on, and for the final TTL from the cleanup on if
   the message completes the session and its cleanup takes effect on the living key. Accepted
   only, it holds the same number for the active TTL from the prepare on. Otherwise it is as
   it was.
   */
  lemma KeyIsLeft(cfg: Config, w: World, h: Sid, m: Message, f: Fates, env: Env)
    requires cfg.Apart() && h !in w.busy && Lone(w, h, m.r.cid) && HandsOffEnv(env, m.r.cid)
    ensures var w0 := Interfere(cfg, w, h, env(0));
      var wk := AtCommit(cfg, Step(cfg, w0, Prepare(h, m.r)), h, env);
      var wc := AtCleanup(cfg, wk, h, env);
      && EntryOf(cfg, w0, m.r.cid) == EntryOf(cfg, w, m.r.cid)
      && EntryOf(cfg, Handle(cfg, w, h, Some(m), f, env).0, m.r.cid) == LeftEntry(cfg, w0, wk, wc, m, f)
  {
    var w0 := Interfere(cfg, w, h, env(0));
    BeforePrepare(cfg, w, h, m.r.cid, env);
    HandleStarts(cfg, w, h, m, f, env);
    if f.prepare.Returned? && Fits(cfg, w0, m.r) {
      AcceptedLeaves(cfg, w0, h, m, f, env);
    } else {
      PrepareLeaves(cfg, w0, h, m.r);
    }
  }
}
