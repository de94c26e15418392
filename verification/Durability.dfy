/**
 What holds in every interleaving, with any number of handlers per conversation, no lease,
 crashes, expiring keys, late sends and late commits: the expected number never runs ahead
 of the log, acknowledged messages are in the log, and first copies arrive in order.
 */
module Durability {
  import opened Options
  import opened Redis
  import opened Settings
  import opened Protocol

  ghost predicate Covered(topic: seq<Record>, cid: Cid, n: nat) {
    forall k: nat | k < n :: Record(cid, k) in topic
  }

  // A record is only ever appended after all its predecessors.
  ghost predicate Ordered(topic: seq<Record>) {
    forall i | 0 <= i < |topic| :: Covered(topic[..i], topic[i].cid, topic[i].num)
  }

  ghost predicate PhaseBacked(topic: seq<Record>, p: Phase) {
    && Covered(topic, p.r.cid, p.r.num)
    && (p.Sent? || p.Committed? || (p.Sending? && p.landed) ==> p.r in topic)
  }

  ghost predicate KeysBacked(cfg: Config, db: Db, topic: seq<Record>) {
    forall cid: Cid {:trigger SeqKey(cfg, cid)} |
      SeqKey(cfg, cid) in db && db[SeqKey(cfg, cid)].value.Number? ::
      Covered(topic, cid, db[SeqKey(cfg, cid)].value.n)
  }

  ghost predicate Backed(cfg: Config, w: World) {
    && Ordered(w.topic)
    && KeysBacked(cfg, w.db, w.topic)
    && (forall h | h in w.busy :: PhaseBacked(w.topic, w.busy[h]))
    && (forall r | r in w.floating :: Covered(w.topic, r.cid, r.num))
    && (forall r | r in w.lateCommits :: Covered(w.topic, r.cid, r.num) && r in w.topic)
    && (forall r | r in w.acks :: r in w.topic)
  }

  lemma AppendKeepsOrder(topic: seq<Record>, r: Record)
    requires Ordered(topic) && Covered(topic, r.cid, r.num)
    ensures Ordered(topic + [r])
    ensures forall x | x in topic :: x in topic + [r]
  {
    forall i | 0 <= i < |topic + [r]|
      ensures Covered((topic + [r])[..i], (topic + [r])[i].cid, (topic + [r])[i].num)
    {
      assert (topic + [r])[..i] == if i < |topic| then topic[..i] else topic;
    }
  }

  lemma SetKeepsKeysBacked(cfg: Config, db: Db, topic: seq<Record>, cid: Cid, e: Entry)
    requires KeysBacked(cfg, db, topic)
    requires e.value.Number? ==> Covered(topic, cid, e.value.n)
    ensures KeysBacked(cfg, db[SeqKey(cfg, cid) := e], topic)
  {
    KeysSeparate(cfg);
  }

  lemma PrepareKeepsKeysBacked(cfg: Config, w: World, r: Record)
    requires KeysBacked(cfg, w.db, w.topic)
    ensures KeysBacked(cfg, RunPrepare(cfg, w, r).db, w.topic)
    ensures SeqReply(cfg, w, r).PreCheckOk? ==> Covered(w.topic, r.cid, r.num)
    ensures SeqReply(cfg, w, r).Idempotent? ==> r in w.topic
  {
    KeysSeparate(cfg);
    assert Live(w.db, w.now, SeqKey(cfg, r.cid)) ==> SeqKey(cfg, r.cid) in w.db;
  }

  lemma LeaseKeepsKeysBacked(cfg: Config, w: World, h: Sid, cid: LeaseId)
    requires KeysBacked(cfg, w.db, w.topic)
    ensures KeysBacked(cfg, ClaimDb(w.db, w.now, LeaseKey(cfg, cid), h, cfg.guardTtl), w.topic)
    ensures KeysBacked(cfg, ReleaseDb(w.db, w.now, LeaseKey(cfg, cid), h), w.topic)
  {}

  lemma LandKeepsBacked(cfg: Config, w: World, a: Action)
    requires Backed(cfg, w) && (a.Land? || a.LateLand?) && Enabled(w, a)
    ensures Backed(cfg, Step(cfg, w, a))
  {
    AppendKeepsOrder(w.topic, if a.Land? then w.busy[a.h].r else a.r);
  }

  lemma CommitKeepsBacked(cfg: Config, w: World, a: Action)
    requires Backed(cfg, w) && (a.ApplyCommit? || a.LateCommit?) && Enabled(w, a)
    ensures Backed(cfg, Step(cfg, w, a))
  {
    var r := if a.ApplyCommit? then w.busy[a.h].r else a.r;
    SetKeepsKeysBacked(cfg, w.db, w.topic, r.cid, Entry(Number(r.num + 1), w.now + cfg.activeTtl as real));
  }

  lemma StepKeepsBacked(cfg: Config, w: World, a: Action)
    requires Backed(cfg, w)
    ensures Backed(cfg, Step(cfg, w, a))
  {
    if Enabled(w, a) {
      match a
      case Prepare(_, r) => PrepareKeepsKeysBacked(cfg, w, r);
      case StrayPrepare(_, r) => PrepareKeepsKeysBacked(cfg, w, r);
      case Land(_) => LandKeepsBacked(cfg, w, a);
      case LateLand(_) => LandKeepsBacked(cfg, w, a);
      case ApplyCommit(_) => CommitKeepsBacked(cfg, w, a);
      case LateCommit(_) => CommitKeepsBacked(cfg, w, a);
      case Cleanup(_, cid) => KeysSeparate(cfg);
      case Claim(h, cid, _) => LeaseKeepsKeysBacked(cfg, w, h, cid);
      case Release(h, cid) => LeaseKeepsKeysBacked(cfg, w, h, cid);
      case _ =>
    }
  }

  lemma {:induction false} RunKeepsBacked(cfg: Config, w: World, acts: seq<Action>)
    requires Backed(cfg, w)
    ensures Backed(cfg, Run(cfg, w, acts))
    decreases acts
  {
    if acts != [] {
      StepKeepsBacked(cfg, w, acts[0]);
      RunKeepsBacked(cfg, Step(cfg, w, acts[0]), acts[1..]);
    }
  }

  /** Gap-free durability: when Redis expects n, the log holds every number below n. */
  lemma ExpectedNeverAheadOfLog(cfg: Config, init: World, acts: seq<Action>, cid: Cid)
    requires Initial(init)
    ensures var w := Run(cfg, init, acts);
      var e := Get(w.db, w.now, SeqKey(cfg, cid));
      e.Some? && e.value.Number? ==> forall k: nat | k < e.value.n :: k in Log(w.topic, cid)
  {
    RunKeepsBacked(cfg, init, acts);
    var w := Run(cfg, init, acts);
    forall k: nat ensures k in Log(w.topic, cid) <==> Record(cid, k) in w.topic {
      LogMembers(w.topic, cid, k);
    }
  }

  /** Every acknowledged message, fresh or replayed, is in its conversation's log. */
  lemma AckedIsDurable(cfg: Config, init: World, acts: seq<Action>, r: Record)
    requires Initial(init) && r in Run(cfg, init, acts).acks
    ensures r.num in Log(Run(cfg, init, acts).topic, r.cid)
  {
    RunKeepsBacked(cfg, init, acts);
    LogMembers(Run(cfg, init, acts).topic, r.cid, r.num);
  }

  // ----- first copies -----

  function FirstCopies(log: seq<nat>): seq<nat> {
    if log == [] then []
    else
      var front, last := log[..|log| - 1], log[|log| - 1];
      FirstCopies(front) + if last in front then [] else [last]
  }

  function UpTo(m: nat): (s: seq<nat>)
    ensures |s| == m && forall i | 0 <= i < m :: s[i] == i
  {
    if m == 0 then [] else UpTo(m - 1) + [m - 1]
  }

  lemma InUpTo(m: nat, n: nat)
    ensures n in UpTo(m) <==> n < m
  {
    assert n < m ==> UpTo(m)[n] == n;
  }

  lemma {:induction false} FirstCopiesMembers(log: seq<nat>, n: nat)
    ensures n in FirstCopies(log) <==> n in log
    ensures |FirstCopies(log)| <= |log|
  {
    if log != [] {
      var front, last := log[..|log| - 1], log[|log| - 1];
      assert log == front + [last];
      FirstCopiesMembers(front, n);
    }
  }

  ghost predicate LogOrdered(log: seq<nat>) {
    forall i, k: nat | 0 <= i < |log| && k < log[i] :: k in log[..i]
  }

  lemma {:induction false} OrderedLog(topic: seq<Record>, cid: Cid)
    requires Ordered(topic)
    ensures LogOrdered(Log(topic, cid))
  {
    if topic != [] {
      var front, last := topic[..|topic| - 1], topic[|topic| - 1];
      assert Ordered(front) by {
        forall i | 0 <= i < |front| ensures Covered(front[..i], front[i].cid, front[i].num) {
          assert front[..i] == topic[..i];
        }
      }
      OrderedLog(front, cid);
      var log, pre := Log(topic, cid), Log(front, cid);
      forall i, k: nat | 0 <= i < |log| && k < log[i] ensures k in log[..i] {
        if i < |pre| {
          assert log[..i] == pre[..i];
        } else {
          assert log[..i] == pre;
          LogMembers(front, cid, k);
        }
      }
    }
  }

  lemma {:induction false} FirstCopiesOfOrdered(log: seq<nat>)
    requires LogOrdered(log)
    ensures FirstCopies(log) == UpTo(|FirstCopies(log)|)
  {
    if log != [] {
      var front, last := log[..|log| - 1], log[|log| - 1];
      assert LogOrdered(front) by {
        forall i, k: nat | 0 <= i < |front| && k < front[i] ensures k in front[..i] {
          assert front[..i] == log[..i];
        }
      }
      FirstCopiesOfOrdered(front);
      var m := |FirstCopies(front)|;
      assert m < last ==> m in log[..|log| - 1];
      FirstCopiesMembers(front, last);
      FirstCopiesMembers(front, m);
      InUpTo(m, last);
      InUpTo(m, m);
    }
  }

  /** First-occurrence order: the first copies in a conversation's log are 0, 1, ..., m - 1. */
  lemma FirstCopiesInOrder(cfg: Config, init: World, acts: seq<Action>, cid: Cid)
    requires Initial(init)
    ensures var firsts := FirstCopies(Log(Run(cfg, init, acts).topic, cid));
      firsts == UpTo(|firsts|)
  {
    RunKeepsBacked(cfg, init, acts);
    OrderedLog(Run(cfg, init, acts).topic, cid);
    FirstCopiesOfOrdered(Log(Run(cfg, init, acts).topic, cid));
  }

  // ----- what is not promised -----

  /** A send or a commit given up by its handler may take effect any time later. */
  lemma GivenUpMayTakeEffect(cfg: Config, w: World, h: Sid, acts: seq<Action>)
    requires h in w.busy
    ensures w.busy[h] == Sending(w.busy[h].r, false) ==> w.busy[h].r in Step(cfg, w, Abort(h)).floating
    ensures w.busy[h].Sent? ==> w.busy[h].r in Step(cfg, w, Abort(h)).lateCommits
    ensures var w' := Run(cfg, w, acts); w.floating <= w'.floating && w.lateCommits <= w'.lateCommits
    ensures forall r | r in w.floating :: Step(cfg, w, LateLand(r)).topic == w.topic + [r]
    ensures forall r | r in w.lateCommits ::
      Get(Step(cfg, w, LateCommit(r)).db, w.now, SeqKey(cfg, r.cid))
      == if 0 < cfg.activeTtl then Some(Number(r.num + 1)) else None
  {
    PendingStays(cfg, w, acts);
  }

  lemma {:induction false} PendingStays(cfg: Config, w: World, acts: seq<Action>)
    ensures var w' := Run(cfg, w, acts); w.floating <= w'.floating && w.lateCommits <= w'.lateCommits
    decreases acts
  {
    if acts != [] {
      PendingStays(cfg, Step(cfg, w, acts[0]), acts[1..]);
    }
  }

  // The first attempt: the send is given up, and lands.
  lemma TimedOutSend(cfg: Config, init: World, h: Sid, r: Record)
    requires cfg.Accepted() && Initial(init) && r.num == 0
    ensures var w1 := Step(cfg, init, Prepare(h, r));
      var w3 := Step(cfg, Step(cfg, w1, BeginSend(h)), Abort(h));
      var w4 := Step(cfg, w3, LateLand(r));
      w4.topic == [r] && w4.busy == map[] && SeqReply(cfg, w4, r) == PreCheckOk(0)
  {
    assert init.topic + [r] == [r];
  }

  // The retry, which the server cannot tell from a first attempt.
  lemma Retry(cfg: Config, w: World, h: Sid, r: Record)
    requires w.topic == [r] && w.busy == map[] && SeqReply(cfg, w, r) == PreCheckOk(0)
    ensures Step(cfg, Step(cfg, Step(cfg, w, Prepare(h, r)), BeginSend(h)), Land(h)).topic == [r] + [r]
  {}

  lemma RunCons(cfg: Config, w: World, a: Action, acts: seq<Action>)
    ensures Run(cfg, w, [a] + acts) == Run(cfg, Step(cfg, w, a), acts)
  {
    assert ([a] + acts)[1..] == acts;
  }

  // Three actions one after the other.
  lemma RunThree(cfg: Config, w: World, a: Action, b: Action, c: Action, acts: seq<Action>)
    ensures Run(cfg, w, [a] + ([b] + ([c] + acts))) == Run(cfg, Step(cfg, Step(cfg, Step(cfg, w, a), b), c), acts)
  {
    RunCons(cfg, w, a, [b] + ([c] + acts));
    RunCons(cfg, Step(cfg, w, a), b, [c] + acts);
    RunCons(cfg, Step(cfg, Step(cfg, w, a), b), c, acts);
  }

  /**
   Delivery is not exactly once: a send that timed out and then lands, and the retry that its
   client was told to make, leave two copies. So the first copies are what the order is about.
   */
  lemma DeliveredTwice(cfg: Config, init: World, h: Sid, cid: Cid) returns (acts: seq<Action>)
    requires cfg.Accepted() && Initial(init)
    ensures Log(Run(cfg, init, acts).topic, cid) == [0, 0]
  {
    var r := Record(cid, 0);
    var retry := [Prepare(h, r)] + ([BeginSend(h)] + ([Land(h)] + []));
    acts := [Prepare(h, r)] + ([BeginSend(h)] + ([Abort(h)] + ([LateLand(r)] + retry)));
    var w3 := Step(cfg, Step(cfg, Step(cfg, init, Prepare(h, r)), BeginSend(h)), Abort(h));
    var w4 := Step(cfg, w3, LateLand(r));
    TimedOutSend(cfg, init, h, r);
    Retry(cfg, w4, h, r);
    RunThree(cfg, init, Prepare(h, r), BeginSend(h), Abort(h), [LateLand(r)] + retry);
    RunCons(cfg, w3, LateLand(r), retry);
    RunThree(cfg, w4, Prepare(h, r), BeginSend(h), Land(h), []);
    LogSnoc([], r, cid);
    LogSnoc([r], r, cid);
    assert [] + [r] == [r];
  }
}
