/**
 Conversations do not influence each other: any run over many conversations, seen from one
 of them, is a run of the machine in which only that conversation exists.
 */
module Projection {
  import opened Options
  import opened Redis
  import opened Settings
  import opened Protocol
  import Lease
  import Linear

  // ----- what is left of each part of the state -----

  function OnlyDb(cfg: Config, db: Db, cid: Cid): Db {
    map k | k in db && (k == SeqKey(cfg, cid) || k == LeaseKey(cfg, cid)) :: db[k]
  }

  function OnlyTopic(topic: seq<Record>, cid: Cid): seq<Record> {
    if topic == [] then []
    else
      var last := topic[|topic| - 1];
      OnlyTopic(topic[..|topic| - 1], cid) + if last.cid == cid then [last] else []
  }

  function OnlyRecords(rs: set<Record>, cid: Cid): set<Record> {
    set r | r in rs && r.cid == cid
  }

  function OnlyBusy(busy: map<Sid, Phase>, cid: Cid): map<Sid, Phase> {
    map h | h in busy && busy[h].r.cid == cid :: busy[h]
  }

  function OnlyHolds(holds: map<Sid, Hold>, cid: Cid): map<Sid, Hold> {
    map h | h in holds && holds[h].cid == cid :: holds[h]
  }

  function Only(cfg: Config, w: World, cid: Cid): World {
    World(w.now, OnlyDb(cfg, w.db, cid), OnlyTopic(w.topic, cid), OnlyRecords(w.floating, cid),
          OnlyRecords(w.lateCommits, cid), OnlyBusy(w.busy, cid), OnlyRecords(w.acks, cid), OnlyHolds(w.holds, cid))
  }

  // ----- updates inside and outside of the conversation -----

  predicate OwnKey(cfg: Config, k: string, cid: Cid) {
    k == SeqKey(cfg, cid) || k == LeaseKey(cfg, cid)
  }

  lemma DbUpdate(cfg: Config, db: Db, k: string, e: Entry, cid: Cid)
    ensures OnlyDb(cfg, db[k := e], cid) ==
      if OwnKey(cfg, k, cid) then OnlyDb(cfg, db, cid)[k := e] else OnlyDb(cfg, db, cid)
    ensures OnlyDb(cfg, db - {k}, cid) ==
      if OwnKey(cfg, k, cid) then OnlyDb(cfg, db, cid) - {k} else OnlyDb(cfg, db, cid)
  {}

  lemma BusyUpdate(busy: map<Sid, Phase>, h: Sid, p: Phase, cid: Cid)
    requires h in busy ==> busy[h].r.cid == p.r.cid
    ensures OnlyBusy(busy[h := p], cid) ==
      if p.r.cid == cid then OnlyBusy(busy, cid)[h := p] else OnlyBusy(busy, cid)
    ensures OnlyBusy(busy - {h}, cid) ==
      if p.r.cid == cid then OnlyBusy(busy, cid) - {h} else OnlyBusy(busy, cid)
  {
    assert OnlyBusy(busy[h := p], cid) ==
      if p.r.cid == cid then OnlyBusy(busy, cid)[h := p] else OnlyBusy(busy, cid);
    assert OnlyBusy(busy - {h}, cid) ==
      if p.r.cid == cid then OnlyBusy(busy, cid) - {h} else OnlyBusy(busy, cid);
  }

  lemma HoldsUpdate(holds: map<Sid, Hold>, h: Sid, x: Hold, cid: Cid)
    requires h in holds ==> holds[h].cid == x.cid
    ensures OnlyHolds(holds[h := x], cid) ==
      if x.cid == cid then OnlyHolds(holds, cid)[h := x] else OnlyHolds(holds, cid)
    ensures OnlyHolds(holds - {h}, cid) ==
      if x.cid == cid then OnlyHolds(holds, cid) - {h} else OnlyHolds(holds, cid)
  {
    assert OnlyHolds(holds[h := x], cid) ==
      if x.cid == cid then OnlyHolds(holds, cid)[h := x] else OnlyHolds(holds, cid);
    assert OnlyHolds(holds - {h}, cid) ==
      if x.cid == cid then OnlyHolds(holds, cid) - {h} else OnlyHolds(holds, cid);
  }

  lemma RecordsUpdate(rs: set<Record>, r: Record, cid: Cid)
    ensures OnlyRecords(rs + {r}, cid) ==
      if r.cid == cid then OnlyRecords(rs, cid) + {r} else OnlyRecords(rs, cid)
    ensures OnlyRecords(rs + {}, cid) == OnlyRecords(rs, cid) + {}
  {
    assert OnlyRecords(rs + {r}, cid) ==
      if r.cid == cid then OnlyRecords(rs, cid) + {r} else OnlyRecords(rs, cid);
    assert rs + {} == rs;
    assert OnlyRecords(rs, cid) + {} == OnlyRecords(rs, cid);
  }

  lemma TopicUpdate(topic: seq<Record>, r: Record, cid: Cid)
    ensures OnlyTopic(topic + [r], cid) ==
      if r.cid == cid then OnlyTopic(topic, cid) + [r] else OnlyTopic(topic, cid)
  {
    assert (topic + [r])[..|topic|] == topic;
    assert OnlyTopic(topic, cid) + [] == OnlyTopic(topic, cid);
  }

  // ----- the scripts -----

  lemma PrepareScriptProjects(cfg: Config, db: Db, now: real, d: Cid, n: nat, cid: Cid)
    requires cfg.Apart()
    ensures var key, mine := SeqKey(cfg, d), OnlyDb(cfg, db, cid);
      && OnlyDb(cfg, PrepareDb(db, now, key, n, cfg.activeTtl), cid)
         == (if d == cid then PrepareDb(mine, now, key, n, cfg.activeTtl) else mine)
      && (d == cid ==> Get(mine, now, key) == Get(db, now, key))
  {
    KeysSeparate(cfg);
    var key := SeqKey(cfg, d);
    assert OwnKey(cfg, key, cid) <==> d == cid;
    DbUpdate(cfg, db, key, Entry(Number(0), now + cfg.activeTtl as real), cid);
    if key in db {
      DbUpdate(cfg, db, key, db[key].(expireAt := now + cfg.activeTtl as real), cid);
    }
  }

  lemma CommitScriptProjects(cfg: Config, db: Db, now: real, d: Cid, n: nat, cid: Cid)
    requires cfg.Apart()
    ensures var key, mine := SeqKey(cfg, d), OnlyDb(cfg, db, cid);
      OnlyDb(cfg, CommitDb(db, now, key, n, cfg.activeTtl), cid)
      == if d == cid then CommitDb(mine, now, key, n, cfg.activeTtl) else mine
  {
    KeysSeparate(cfg);
    assert OwnKey(cfg, SeqKey(cfg, d), cid) <==> d == cid;
    DbUpdate(cfg, db, SeqKey(cfg, d), Entry(Number(n + 1), now + cfg.activeTtl as real), cid);
  }

  lemma CleanupScriptProjects(cfg: Config, db: Db, now: real, d: Cid, cid: Cid)
    requires cfg.Apart()
    ensures var key, mine := SeqKey(cfg, d), OnlyDb(cfg, db, cid);
      OnlyDb(cfg, CleanupDb(db, now, key, cfg.finalTtl), cid)
      == if d == cid then CleanupDb(mine, now, key, cfg.finalTtl) else mine
  {
    KeysSeparate(cfg);
    var key := SeqKey(cfg, d);
    assert OwnKey(cfg, key, cid) <==> d == cid;
    if key in db {
      DbUpdate(cfg, db, key, db[key].(expireAt := now + cfg.finalTtl as real), cid);
    }
  }

  lemma LeaseScriptsProject(cfg: Config, db: Db, now: real, d: LeaseId, h: Sid, cid: Cid)
    requires cfg.Apart()
    ensures var key, mine := LeaseKey(cfg, d), OnlyDb(cfg, db, cid);
      && OnlyDb(cfg, ClaimDb(db, now, key, h, cfg.guardTtl), cid)
         == (if d == cid then ClaimDb(mine, now, key, h, cfg.guardTtl) else mine)
      && OnlyDb(cfg, ReleaseDb(db, now, key, h), cid)
         == (if d == cid then ReleaseDb(mine, now, key, h) else mine)
      && (d == cid ==> Get(mine, now, key) == Get(db, now, key))
  {
    KeysSeparate(cfg);
    var key := LeaseKey(cfg, d);
    assert OwnKey(cfg, key, cid) <==> d == cid;
    DbUpdate(cfg, db, key, Entry(Token(h), now + cfg.guardTtl as real), cid);
  }

  // ----- one step -----

  predicate Concerns(w: World, a: Action, cid: Cid) {
    a.Tick? || Subject(w, a) == Some(cid)
  }

  // Seen from the conversation, a step of its own happens and a step of another does not.
  ghost predicate Projects(cfg: Config, w: World, a: Action, cid: Cid) {
    Only(cfg, Step(cfg, w, a), cid) ==
      if Concerns(w, a, cid) then Step(cfg, Only(cfg, w, cid), a) else Only(cfg, w, cid)
  }

  lemma EnabledProjects(cfg: Config, w: World, a: Action, cid: Cid)
    requires Concerns(w, a, cid) && Enabled(w, a)
    ensures Enabled(Only(cfg, w, cid), a)
  {}

  lemma PrepareProjects(cfg: Config, w: World, a: Action, cid: Cid)
    requires cfg.Apart() && Enabled(w, a) && (a.Prepare? || a.StrayPrepare?)
    ensures Projects(cfg, w, a, cid)
  {
    PrepareScriptProjects(cfg, w.db, w.now, a.r.cid, a.r.num, cid);
    if a.Prepare? {
      BusyUpdate(w.busy, a.h, Prepared(a.r), cid);
    }
    RecordsUpdate(w.acks, a.r, cid);
  }

  lemma CommitProjects(cfg: Config, w: World, a: Action, cid: Cid)
    requires cfg.Apart() && Enabled(w, a) && (a.ApplyCommit? || a.LateCommit?)
    ensures Projects(cfg, w, a, cid)
  {
    var r := if a.ApplyCommit? then w.busy[a.h].r else a.r;
    CommitScriptProjects(cfg, w.db, w.now, r.cid, r.num, cid);
    if a.ApplyCommit? {
      BusyUpdate(w.busy, a.h, Sent(r, true), cid);
    }
  }

  lemma LeaseProjects(cfg: Config, w: World, a: Action, cid: Cid)
    requires cfg.Apart() && Enabled(w, a) && (a.Claim? || a.Release?)
    ensures Projects(cfg, w, a, cid)
  {
    LeaseScriptsProject(cfg, w.db, w.now, a.id, a.h, cid);
    HoldsUpdate(w.holds, a.h, Hold(a.id, w.now), cid);
  }

  lemma LandProjects(cfg: Config, w: World, a: Action, cid: Cid)
    requires Enabled(w, a) && (a.Land? || a.LateLand?)
    ensures Projects(cfg, w, a, cid)
  {
    var r := if a.Land? then w.busy[a.h].r else a.r;
    TopicUpdate(w.topic, r, cid);
    if a.Land? {
      BusyUpdate(w.busy, a.h, Sending(r, true), cid);
    }
  }

  lemma AckProjects(cfg: Config, w: World, a: Action, cid: Cid)
    requires Enabled(w, a) && a.Ack?
    ensures Projects(cfg, w, a, cid)
  {
    BusyUpdate(w.busy, a.h, w.busy[a.h], cid);
    RecordsUpdate(w.acks, w.busy[a.h].r, cid);
  }

  lemma AbortProjects(cfg: Config, w: World, a: Action, cid: Cid)
    requires Enabled(w, a) && a.Abort?
    ensures Projects(cfg, w, a, cid)
  {
    var r := w.busy[a.h].r;
    BusyUpdate(w.busy, a.h, w.busy[a.h], cid);
    RecordsUpdate(w.floating, r, cid);
    RecordsUpdate(w.lateCommits, r, cid);
  }

  lemma StepProjects(cfg: Config, w: World, a: Action, cid: Cid)
    requires cfg.Apart() && Enabled(w, a)
    ensures Projects(cfg, w, a, cid)
  {
    match a
    case Tick(_) =>
    case Prepare(_, _) => PrepareProjects(cfg, w, a, cid);
    case StrayPrepare(_, _) => PrepareProjects(cfg, w, a, cid);
    case BeginSend(h) => BusyUpdate(w.busy, h, Sending(w.busy[h].r, false), cid);
    case Land(_) => LandProjects(cfg, w, a, cid);
    case SendOk(h) => BusyUpdate(w.busy, h, Sent(w.busy[h].r, false), cid);
    case LateLand(_) => LandProjects(cfg, w, a, cid);
    case ApplyCommit(_) => CommitProjects(cfg, w, a, cid);
    case CommitOk(h) => BusyUpdate(w.busy, h, Committed(w.busy[h].r), cid);
    case LateCommit(_) => CommitProjects(cfg, w, a, cid);
    case Cleanup(_, d) => CleanupScriptProjects(cfg, w.db, w.now, d, cid);
    case Ack(_) => AckProjects(cfg, w, a, cid);
    case Abort(_) => AbortProjects(cfg, w, a, cid);
    case Claim(_, _, _) => LeaseProjects(cfg, w, a, cid);
    case Release(_, _) => LeaseProjects(cfg, w, a, cid);
  }

  // ----- runs -----

  // The actions of a run that concern a conversation and had an effect.
  function OnlyActions(cfg: Config, w: World, acts: seq<Action>, cid: Cid): seq<Action>
    decreases acts
  {
    if acts == [] then []
    else
      (if Concerns(w, acts[0], cid) && Enabled(w, acts[0]) then [acts[0]] else [])
      + OnlyActions(cfg, Step(cfg, w, acts[0]), acts[1..], cid)
  }

  // Every action of the list is enabled when its turn comes.
  predicate AllEnabled(cfg: Config, w: World, acts: seq<Action>)
    decreases acts
  {
    acts == [] || (Enabled(w, acts[0]) && AllEnabled(cfg, Step(cfg, w, acts[0]), acts[1..]))
  }

  /** An interleaved run, projected onto a conversation, is a run of that conversation alone. */
  lemma {:induction false} RunProjects(cfg: Config, w: World, acts: seq<Action>, cid: Cid)
    requires cfg.Apart()
    ensures var mine := OnlyActions(cfg, w, acts, cid);
      && Only(cfg, Run(cfg, w, acts), cid) == Run(cfg, Only(cfg, w, cid), mine)
      && AllEnabled(cfg, Only(cfg, w, cid), mine)
    decreases acts
  {
    if acts != [] {
      var a, w1 := acts[0], Step(cfg, w, acts[0]);
      var rest := OnlyActions(cfg, w1, acts[1..], cid);
      RunProjects(cfg, w1, acts[1..], cid);
      if Enabled(w, a) {
        StepProjects(cfg, w, a, cid);
        if Concerns(w, a, cid) {
          EnabledProjects(cfg, w, a, cid);
          assert ([a] + rest)[1..] == rest;
        } else {
          assert [] + rest == rest;
        }
      } else {
        assert [] + rest == rest;
      }
    }
  }

  lemma {:induction false} ProjectedLog(topic: seq<Record>, cid: Cid)
    ensures Log(OnlyTopic(topic, cid), cid) == Log(topic, cid)
  {
    if topic != [] {
      var front, last := topic[..|topic| - 1], topic[|topic| - 1];
      assert topic == front + [last];
      ProjectedLog(front, cid);
      TopicUpdate(front, last, cid);
      LogSnoc(OnlyTopic(front, cid), last, cid);
      LogSnoc(front, last, cid);
      assert Log(front, cid) + [] == Log(front, cid);
    }
  }

  /**
   What a conversation sees of a run over many of them, its log and the answers it gets from
   Redis, is what it would see if it were alone.
   */
  lemma SameViewAlone(cfg: Config, w: World, acts: seq<Action>, cid: Cid)
    requires cfg.Apart()
    ensures var w1 := Run(cfg, w, acts);
      var w2 := Run(cfg, Only(cfg, w, cid), OnlyActions(cfg, w, acts, cid));
      && Log(w1.topic, cid) == Log(w2.topic, cid)
      && (forall n :: SeqReply(cfg, w1, Record(cid, n)) == SeqReply(cfg, w2, Record(cid, n)))
      && (forall h :: ClaimReply(cfg, w1, h, cid) == ClaimReply(cfg, w2, h, cid))
      && Linear.Stored(cfg, w1, cid) == Linear.Stored(cfg, w2, cid)
  {
    RunProjects(cfg, w, acts, cid);
    ProjectedLog(Run(cfg, w, acts).topic, cid);
  }

  /**
   So a theorem about a conversation alone is one about any run over many: here conservation,
   from what the conversation's own actions do and nothing else.
   */
  lemma ConservationFromOwnActions(cfg: Config, init: World, acts: seq<Action>, cid: Cid)
    requires cfg.Apart() && Initial(init)
    requires var alone, mine := Only(cfg, init, cid), OnlyActions(cfg, init, acts, cid);
      && Linear.SoloRun(cfg, alone, mine, cid) && Linear.UnexpiredRun(cfg, alone, mine, cid)
      && Lease.Resting(Run(cfg, alone, mine), cid)
    ensures var w := Run(cfg, init, acts);
      |Log(w.topic, cid)| == Linear.Expected(cfg, w, cid)
        + Linear.Wasted(cfg, Only(cfg, init, cid), OnlyActions(cfg, init, acts, cid), cid)
  {
    SameViewAlone(cfg, init, acts, cid);
    Linear.Conservation(cfg, Only(cfg, init, cid), OnlyActions(cfg, init, acts, cid), cid);
  }
}
