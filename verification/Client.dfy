/**
 A client that sends 0, 1, 2, ... and repeats a number until it is acknowledged, talking to
 the orchestrator one message at a time, through a new session whenever it has to reconnect.
 Other conversations, the clock, late sends of its own, lease traffic and lost replies are
 arbitrary.
 */
module Client {
  import opened Options
  import opened Redis
  import opened Settings
  import opened Protocol
  import opened Orchestrator
  import opened Handling
  import opened Linear
  import Lease

  // The client's conversation, and the sessions that serve it.
  datatype Peer = Peer(cid: Cid, sessions: iset<Sid>)

  // The others leave the conversation's sequence and the client's sessions to this client: no
  // prepare and no late commit for it. Cleanups, late sends and leases are free.
  ghost predicate Quiet(a: Action, c: Peer) {
    && !(a.Prepare? && (a.r.cid == c.cid || a.h in c.sessions))
    && !(a.StrayPrepare? && a.r.cid == c.cid)
    && !(a.LateCommit? && a.r.cid == c.cid)
  }

  ghost predicate AllQuiet(acts: seq<Action>, c: Peer) {
    forall a | a in acts :: Quiet(a, c)
  }

  // Nobody but the handler of h is busy with the conversation or in one of its sessions.
  ghost predicate Alone(w: World, h: Sid, c: Peer) {
    forall g | g in w.busy && g != h :: w.busy[g].r.cid != c.cid && g !in c.sessions
  }

  predicate NumberKey(cfg: Config, w: World, cid: Cid) {
    SeqKey(cfg, cid) in w.db ==> w.db[SeqKey(cfg, cid)].value.Number?
  }

  // What the handler of h relies on while others act.
  ghost predicate Stable(cfg: Config, w: World, w': World, h: Sid, c: Peer) {
    && Alone(w', h, c) && NumberKey(cfg, w', c.cid)
    && SameProgress(w, w', h) && Stored(cfg, w', c.cid) == Stored(cfg, w, c.cid)
  }

  lemma QuietStepKeepsStored(cfg: Config, w: World, h: Sid, c: Peer, a: Action)
    requires cfg.Apart() && Alone(w, h, c) && NumberKey(cfg, w, c.cid) && ByOthers(a, h) && Quiet(a, c)
    ensures NumberKey(cfg, Step(cfg, w, a), c.cid) && Stored(cfg, Step(cfg, w, a), c.cid) == Stored(cfg, w, c.cid)
  {
    KeysSeparate(cfg);
  }

  lemma QuietStepKeepsAlone(cfg: Config, w: World, h: Sid, c: Peer, a: Action)
    requires Alone(w, h, c) && ByOthers(a, h) && Quiet(a, c)
    ensures Alone(Step(cfg, w, a), h, c) && SameProgress(w, Step(cfg, w, a), h)
  {}

  lemma {:induction false} QuietRunIsStable(cfg: Config, w: World, h: Sid, c: Peer, acts: seq<Action>)
    requires cfg.Apart() && Alone(w, h, c) && NumberKey(cfg, w, c.cid)
    requires AllByOthers(acts, h) && AllQuiet(acts, c)
    ensures Stable(cfg, w, Run(cfg, w, acts), h, c)
    decreases acts
  {
    if acts != [] {
      assert ByOthers(acts[0], h) && Quiet(acts[0], c);
      QuietStepKeepsStored(cfg, w, h, c, acts[0]);
      QuietStepKeepsAlone(cfg, w, h, c, acts[0]);
      QuietRunIsStable(cfg, Step(cfg, w, acts[0]), h, c, acts[1..]);
    }
  }

  lemma InterfereIsStable(cfg: Config, w: World, h: Sid, c: Peer, acts: seq<Action>)
    requires cfg.Apart() && Alone(w, h, c) && NumberKey(cfg, w, c.cid) && AllQuiet(acts, c)
    ensures Stable(cfg, w, Interfere(cfg, w, h, acts), h, c)
  {
    OthersAreOthers(h, acts);
    QuietRunIsStable(cfg, w, h, c, Others(h, acts));
  }

  // The handler of h is in phase p, and the key stores n.
  ghost predicate At(cfg: Config, w: World, h: Sid, c: Peer, p: Phase, n: nat) {
    && Alone(w, h, c) && NumberKey(cfg, w, c.cid) && p.r.cid == c.cid
    && h in w.busy && w.busy[h] == p && Stored(cfg, w, c.cid) == Some(n)
  }

  lemma InterfereAt(cfg: Config, w: World, h: Sid, c: Peer, p: Phase, n: nat, acts: seq<Action>)
    requires cfg.Apart() && At(cfg, w, h, c, p, n) && AllQuiet(acts, c)
    ensures At(cfg, Interfere(cfg, w, h, acts), h, c, p, n)
  {
    InterfereIsStable(cfg, w, h, c, acts);
  }

  lemma SendStepAt(cfg: Config, w: World, h: Sid, c: Peer, r: Record, n: nat)
    ensures At(cfg, w, h, c, Prepared(r), n) ==> At(cfg, Step(cfg, w, BeginSend(h)), h, c, Sending(r, false), n)
    ensures At(cfg, w, h, c, Sending(r, false), n) ==> At(cfg, Step(cfg, w, Land(h)), h, c, Sending(r, true), n)
    ensures At(cfg, w, h, c, Sending(r, true), n) ==> At(cfg, Step(cfg, w, SendOk(h)), h, c, Sent(r, false), n)
  {}

  lemma CommitStepAt(cfg: Config, w: World, h: Sid, c: Peer, r: Record, n: nat)
    ensures At(cfg, w, h, c, Sent(r, false), n) ==>
              At(cfg, Step(cfg, w, ApplyCommit(h)), h, c, Sent(r, true), r.num + 1)
    ensures At(cfg, w, h, c, Sent(r, true), n) ==> At(cfg, Step(cfg, w, CommitOk(h)), h, c, Committed(r), n)
  {}

  ghost predicate QuietEnv(env: Env, c: Peer) {
    forall i :: AllQuiet(env(i), c)
  }

  // The client's sessions are idle, and the last stored number is the client's or the next one.
  ghost predicate Agree(cfg: Config, w: World, c: Peer, next: nat) {
    && Lease.Resting(w, c.cid) && (forall h | h in w.busy :: h !in c.sessions) && NumberKey(cfg, w, c.cid)
    && (Expected(cfg, w, c.cid) == next || Expected(cfg, w, c.cid) == next + 1)
  }

  // After a stage: still in agreement, and one ahead if the answer is an ACK.
  ghost predicate StillAgree(cfg: Config, w: World, res: Result, c: Peer, m: Message) {
    && Agree(cfg, w, c, m.r.num)
    && (IsAck(res.response) ==> Expected(cfg, w, c.cid) == m.r.num + 1)
    && res.response != ErrorFrame(SequenceOutOfOrder)
  }

  lemma StopAgrees(cfg: Config, w: World, h: Sid, c: Peer, p: Phase, n: nat)
    requires At(cfg, w, h, c, p, n) && (n == p.r.num || n == p.r.num + 1)
    ensures Agree(cfg, Step(cfg, w, Abort(h)), c, p.r.num)
    ensures p.Committed? ==> Agree(cfg, Step(cfg, w, Ack(h)), c, p.r.num)
    ensures Expected(cfg, Step(cfg, w, Abort(h)), c.cid) == Expected(cfg, Step(cfg, w, Ack(h)), c.cid) == n
  {}

  lemma CleanupAt(cfg: Config, w: World, h: Sid, c: Peer, p: Phase, n: nat)
    requires At(cfg, w, h, c, p, n)
    ensures At(cfg, Step(cfg, w, Cleanup(h, c.cid)), h, c, p, n)
  {}

  lemma FinishAgrees(cfg: Config, w: World, h: Sid, c: Peer, m: Message, f: Fates, env: Env)
    requires cfg.Apart() && QuietEnv(env, c) && At(cfg, w, h, c, Committed(m.r), m.r.num + 1)
    ensures var (w', res) := FinishStage(cfg, w, h, m, f, env);
      StillAgree(cfg, w', res, c, m) && IsAck(res.response) && Expected(cfg, w', c.cid) == m.r.num + 1
  {
    var w0 := Interfere(cfg, w, h, env(5));
    InterfereAt(cfg, w, h, c, Committed(m.r), m.r.num + 1, env(5));
    CleanupAt(cfg, w0, h, c, Committed(m.r), m.r.num + 1);
    var w1 := if m.ev.Ongoing? then w else if Effective(f.cleanup) then Step(cfg, w0, Cleanup(h, c.cid)) else w0;
    StopAgrees(cfg, w1, h, c, Committed(m.r), m.r.num + 1);
  }

  lemma CommitAgrees(cfg: Config, w: World, h: Sid, c: Peer, m: Message, f: Fates, env: Env)
    requires cfg.Apart() && QuietEnv(env, c) && At(cfg, w, h, c, Sent(m.r, false), m.r.num)
    ensures var (w', res) := CommitStage(cfg, w, h, m, f, env);
      && StillAgree(cfg, w', res, c, m) && (f.commit.Returned? ==> IsAck(res.response))
      && Expected(cfg, w', c.cid) == m.r.num + if Effective(f.commit) then 1 else 0
  {
    var w1 := Interfere(cfg, w, h, env(3));
    InterfereAt(cfg, w, h, c, Sent(m.r, false), m.r.num, env(3));
    CommitStepAt(cfg, w1, h, c, m.r, m.r.num);
    var v := if Effective(f.commit) then Step(cfg, w1, ApplyCommit(h)) else w1;
    var n := if Effective(f.commit) then m.r.num + 1 else m.r.num;
    InterfereAt(cfg, v, h, c, Sent(m.r, Effective(f.commit)), n, env(4));
    var w2 := Interfere(cfg, v, h, env(4));
    if f.commit.Returned? {
      CommitStepAt(cfg, w2, h, c, m.r, n);
      FinishAgrees(cfg, Step(cfg, w2, CommitOk(h)), h, c, m, f, env);
    } else {
      StopAgrees(cfg, w2, h, c, Sent(m.r, Effective(f.commit)), n);
    }
  }

  lemma SendAgrees(cfg: Config, w: World, h: Sid, c: Peer, m: Message, f: Fates, env: Env)
    requires cfg.Apart() && QuietEnv(env, c) && At(cfg, w, h, c, Prepared(m.r), m.r.num)
    ensures var (w', res) := SendStage(cfg, w, h, m, f, env);
      && StillAgree(cfg, w', res, c, m) && (f.send.Acked? && f.commit.Returned? ==> IsAck(res.response))
      && Expected(cfg, w', c.cid) == m.r.num + if f.send.Acked? && Effective(f.commit) then 1 else 0
  {
    var n := m.r.num;
    if f.send.Unconverted? {
      StopAgrees(cfg, w, h, c, Prepared(m.r), n);
      return;
    }
    SendStepAt(cfg, w, h, c, m.r, n);
    var v1 := Step(cfg, w, BeginSend(h));
    InterfereAt(cfg, v1, h, c, Sending(m.r, false), n, env(1));
    var w1 := Interfere(cfg, v1, h, env(1));
    SendStepAt(cfg, w1, h, c, m.r, n);
    var v2 := if Landed(f.send) then Step(cfg, w1, Land(h)) else w1;
    InterfereAt(cfg, v2, h, c, Sending(m.r, Landed(f.send)), n, env(2));
    var w2 := Interfere(cfg, v2, h, env(2));
    if f.send.Acked? {
      SendStepAt(cfg, w2, h, c, m.r, n);
      CommitAgrees(cfg, Step(cfg, w2, SendOk(h)), h, c, m, f, env);
    } else {
      StopAgrees(cfg, w2, h, c, Sending(m.r, Landed(f.send)), n);
    }
  }

  // One attempt: the session it goes through, the event type sent, what the environment does to
  // it, and whether the reply is lost on the way to the client.
  datatype Attempt = Attempt(h: Sid, ev: EventType, f: Fates, env: Env, replyLost: bool)

  // A failing cleanup is no fault.
  predicate FaultFree(t: Attempt) {
    t.f.prepare.Returned? && t.f.send.Acked? && t.f.commit.Returned? && !t.replyLost
  }

  // The attempt goes through a session of the client, and nobody interferes.
  ghost predicate Proper(t: Attempt, c: Peer) {
    t.h in c.sessions && QuietEnv(t.env, c)
  }

  // The state in which the attempt's prepare runs.
  function AtPrepare(cfg: Config, w: World, t: Attempt): World {
    Interfere(cfg, w, t.h, t.env(0))
  }

  // What the attempt's prepare is answered, if the reply arrives.
  function Answer(cfg: Config, w: World, r: Record, t: Attempt): PrepareReply {
    SeqReply(cfg, AtPrepare(cfg, w, t), r)
  }

  function Try(cfg: Config, w: World, r: Record, t: Attempt): (World, Result) {
    Handle(cfg, w, t.h, Some(Message(r, t.ev)), t.f, t.env)
  }

  // The number is 0, or the key is alive when the prepare runs.
  predicate Findable(cfg: Config, w: World, cid: Cid, next: nat, t: Attempt) {
    next == 0 || Live(AtPrepare(cfg, w, t).db, AtPrepare(cfg, w, t).now, SeqKey(cfg, cid))
  }

  // The commit script runs, inside the call.
  predicate Commits(cfg: Config, w: World, r: Record, t: Attempt) {
    t.f.prepare.Returned? && Answer(cfg, w, r, t).PreCheckOk? && t.f.send.Acked? && Effective(t.f.commit)
  }

  // The answer to a client in agreement.
  lemma AgreedAnswer(cfg: Config, w: World, c: Peer, next: nat, t: Attempt)
    requires cfg.Apart() && Agree(cfg, w, c, next) && Proper(t, c)
    ensures Agree(cfg, AtPrepare(cfg, w, t), c, next)
    ensures Expected(cfg, AtPrepare(cfg, w, t), c.cid) == Expected(cfg, w, c.cid)
    ensures var answer := Answer(cfg, w, Record(c.cid, next), t);
      if !Findable(cfg, w, c.cid, next, t) then answer == OutOfOrder(0)
      else if Expected(cfg, w, c.cid) == next then answer == PreCheckOk(next)
      else answer == Idempotent(next + 1) || (answer == PreCheckOk(next) && next == 0)
  {
    InterfereIsStable(cfg, w, t.h, c, t.env(0));
  }

  lemma PrepareAt(cfg: Config, w: World, h: Sid, c: Peer, next: nat)
    requires Agree(cfg, w, c, next) && h in c.sessions && SeqReply(cfg, w, Record(c.cid, next)).PreCheckOk?
    ensures At(cfg, Step(cfg, w, Prepare(h, Record(c.cid, next))), h, c, Prepared(Record(c.cid, next)), next)
  {}

  // A prepare that starts no handler leaves the stored number of a live key as it is.
  lemma NoHandlerAgrees(cfg: Config, w: World, h: Sid, c: Peer, next: nat)
    requires Agree(cfg, w, c, next)
    ensures Agree(cfg, Step(cfg, w, StrayPrepare(h, Record(c.cid, next))), c, next)
    ensures var w' := Step(cfg, w, Prepare(h, Record(c.cid, next)));
      !SeqReply(cfg, w, Record(c.cid, next)).PreCheckOk? ==>
        Agree(cfg, w', c, next) && Expected(cfg, w', c.cid) == Expected(cfg, w, c.cid)
  {}

  // The attempt by branches: it starts a handler, or not.
  lemma HandledAttempt(cfg: Config, w: World, c: Peer, next: nat, t: Attempt)
    requires cfg.Apart() && Agree(cfg, w, c, next) && Proper(t, c)
    requires t.f.prepare.Returned? && Answer(cfg, w, Record(c.cid, next), t).PreCheckOk?
    ensures var m := Message(Record(c.cid, next), t.ev);
      var (w', res) := Try(cfg, w, m.r, t);
      && StillAgree(cfg, w', res, c, m) && (t.f.send.Acked? && t.f.commit.Returned? ==> IsAck(res.response))
      && Expected(cfg, w', c.cid) == next + if t.f.send.Acked? && Effective(t.f.commit) then 1 else 0
  {
    var m, w0 := Message(Record(c.cid, next), t.ev), AtPrepare(cfg, w, t);
    AgreedAnswer(cfg, w, c, next, t);
    PrepareAt(cfg, w0, t.h, c, next);
    SendAgrees(cfg, Step(cfg, w0, Prepare(t.h, m.r)), t.h, c, m, t.f, t.env);
  }

  lemma UnhandledAttempt(cfg: Config, w: World, c: Peer, next: nat, t: Attempt)
    requires cfg.Apart() && Agree(cfg, w, c, next) && Proper(t, c)
    requires t.f.prepare.Raised? || !Answer(cfg, w, Record(c.cid, next), t).PreCheckOk?
    ensures var m := Message(Record(c.cid, next), t.ev);
      var (w', res) := Try(cfg, w, m.r, t);
      && Agree(cfg, w', c, next)
      && (Expected(cfg, w', c.cid) == Expected(cfg, w, c.cid) || t.f.prepare.Raised?)
      && res == (if t.f.prepare.Raised? then Failure(Internal)
                 else if Answer(cfg, w, m.r, t).Idempotent? then Success(m) else Failure(SequenceOutOfOrder))
  {
    AgreedAnswer(cfg, w, c, next, t);
    NoHandlerAgrees(cfg, AtPrepare(cfg, w, t), t.h, c, next);
  }

  // A prepare whose reply is lost does not make the server advance.
  lemma LostReplyAdvancesNothing(cfg: Config, w: World, c: Peer, next: nat, t: Attempt)
    requires cfg.Apart() && Agree(cfg, w, c, next) && Proper(t, c)
    requires t.f.prepare.Raised? && Expected(cfg, w, c.cid) == next
    ensures Expected(cfg, Try(cfg, w, Record(c.cid, next), t).0, c.cid) == next
  {
    AgreedAnswer(cfg, w, c, next, t);
  }

  /**
   One attempt of a client in agreement with the server. It stays in agreement, and is refused
   with E1006 exactly when the key has expired under an advanced client.
   */
  lemma AttemptAgrees(cfg: Config, w: World, c: Peer, next: nat, t: Attempt)
    requires cfg.Apart() && Agree(cfg, w, c, next) && Proper(t, c)
    ensures var (w', res) := Try(cfg, w, Record(c.cid, next), t);
      && Agree(cfg, w', c, next)
      && (IsAck(res.response) ==> Agree(cfg, w', c, next + 1))
      && (res.response == ErrorFrame(SequenceOutOfOrder) <==>
          t.f.prepare.Returned? && !Findable(cfg, w, c.cid, next, t))
  {
    AgreedAnswer(cfg, w, c, next, t);
    if t.f.prepare.Returned? && Answer(cfg, w, Record(c.cid, next), t).PreCheckOk? {
      HandledAttempt(cfg, w, c, next, t);
    } else {
      UnhandledAttempt(cfg, w, c, next, t);
    }
  }

  /**
   It is acknowledged when nothing fails and the key is alive, and it makes the server advance
   exactly when Kafka has confirmed the message and the commit has taken effect.
   */
  lemma AttemptAdvances(cfg: Config, w: World, c: Peer, next: nat, t: Attempt)
    requires cfg.Apart() && Agree(cfg, w, c, next) && Proper(t, c)
    ensures var (w', res) := Try(cfg, w, Record(c.cid, next), t);
      var found := t.f.prepare.Returned? && Findable(cfg, w, c.cid, next, t);
      && (found && t.f.send.Acked? && t.f.commit.Returned? ==> IsAck(res.response))
      && (Expected(cfg, w, c.cid) == next ==>
            (Expected(cfg, w', c.cid) == next + 1 <==> found && t.f.send.Acked? && Effective(t.f.commit)))
  {
    AgreedAnswer(cfg, w, c, next, t);
    if t.f.prepare.Returned? && Answer(cfg, w, Record(c.cid, next), t).PreCheckOk? {
      HandledAttempt(cfg, w, c, next, t);
    } else {
      UnhandledAttempt(cfg, w, c, next, t);
      if t.f.prepare.Raised? && Expected(cfg, w, c.cid) == next {
        LostReplyAdvancesNothing(cfg, w, c, next, t);
      }
    }
  }

  // ----- the whole conversation of a client -----

  // What an attempt makes of the state and of the client's number.
  function Advance(cfg: Config, w: World, cid: Cid, next: nat, t: Attempt): (World, nat) {
    var (w', res) := Try(cfg, w, Record(cid, next), t);
    (w', if IsAck(res.response) && !t.replyLost then next + 1 else next)
  }

  function ClientRun(cfg: Config, w: World, cid: Cid, next: nat, ts: seq<Attempt>): (World, nat)
    decreases ts
  {
    if ts == [] then (w, next)
    else
      var (w', next') := Advance(cfg, w, cid, next, ts[0]);
      ClientRun(cfg, w', cid, next', ts[1..])
  }

  ghost predicate AllProper(ts: seq<Attempt>, c: Peer) {
    forall i | 0 <= i < |ts| :: Proper(ts[i], c)
  }

  lemma {:induction false} RunKeepsAgreement(cfg: Config, w: World, c: Peer, next: nat, ts: seq<Attempt>)
    requires cfg.Apart() && Agree(cfg, w, c, next) && AllProper(ts, c)
    ensures var (w', next') := ClientRun(cfg, w, c.cid, next, ts);
      Agree(cfg, w', c, next') && next <= next'
    decreases ts
  {
    if ts != [] {
      AttemptAgrees(cfg, w, c, next, ts[0]);
      var (w', next') := Advance(cfg, w, c.cid, next, ts[0]);
      RunKeepsAgreement(cfg, w', c, next', ts[1..]);
    }
  }

  /**
   Stop-and-wait agreement, in what Redis answers: under any pattern of failures, reconnects,
   expiries and lost ACKs, the next attempt finds its number expected or already committed
   while the key lives, and also for number 0; with the key gone an advanced client is told 0.
   */
  lemma StopAndWaitAgreement(cfg: Config, w: World, c: Peer, next: nat, ts: seq<Attempt>, t: Attempt)
    requires cfg.Apart() && Agree(cfg, w, c, next) && AllProper(ts, c) && Proper(t, c)
    ensures var (w', n) := ClientRun(cfg, w, c.cid, next, ts);
      var w0 := AtPrepare(cfg, w', t);
      var answer := SeqReply(cfg, w0, Record(c.cid, n));
      if n == 0 || Live(w0.db, w0.now, SeqKey(cfg, c.cid))
        then answer == PreCheckOk(n) || answer == Idempotent(n + 1)
        else answer == OutOfOrder(0)
  {
    RunKeepsAgreement(cfg, w, c, next, ts);
    var (w', n) := ClientRun(cfg, w, c.cid, next, ts);
    AgreedAnswer(cfg, w', c, n, t);
  }

  /** Such a client, from a fresh start, receives E1006 if and only if its key has expired. */
  lemma RefusedIffExpired(cfg: Config, init: World, c: Peer, ts: seq<Attempt>, t: Attempt)
    requires cfg.Apart() && Initial(init) && AllProper(ts, c) && Proper(t, c)
    ensures var (w, next) := ClientRun(cfg, init, c.cid, 0, ts);
      var w0 := AtPrepare(cfg, w, t);
      Try(cfg, w, Record(c.cid, next), t).1.response == ErrorFrame(SequenceOutOfOrder) <==>
      t.f.prepare.Returned? && 0 < next && !Live(w0.db, w0.now, SeqKey(cfg, c.cid))
  {
    RunKeepsAgreement(cfg, init, c, 0, ts);
    var (w, next) := ClientRun(cfg, init, c.cid, 0, ts);
    AttemptAgrees(cfg, w, c, next, t);
  }

  // The key is never good for more than one active TTL.
  predicate KeyBounded(cfg: Config, w: World, cid: Cid) {
    var key := SeqKey(cfg, cid);
    key in w.db ==> w.db[key].expireAt <= w.now + cfg.activeTtl as real
  }

  lemma StepKeepsKeyBounded(cfg: Config, w: World, a: Action, cid: Cid)
    requires cfg.Accepted() && cfg.Apart() && KeyBounded(cfg, w, cid)
    ensures KeyBounded(cfg, Step(cfg, w, a), cid)
  {
    KeysSeparate(cfg);
  }

  lemma {:induction false} RunKeepsKeyBounded(cfg: Config, w: World, acts: seq<Action>, cid: Cid)
    requires cfg.Accepted() && cfg.Apart() && KeyBounded(cfg, w, cid)
    ensures KeyBounded(cfg, Run(cfg, w, acts), cid)
    decreases acts
  {
    if acts != [] {
      StepKeepsKeyBounded(cfg, w, acts[0], cid);
      RunKeepsKeyBounded(cfg, Step(cfg, w, acts[0]), acts[1..], cid);
    }
  }

  lemma {:induction false} ClientKeepsKeyBounded(cfg: Config, w: World, cid: Cid, next: nat, ts: seq<Attempt>)
    requires cfg.Accepted() && cfg.Apart() && KeyBounded(cfg, w, cid)
    ensures KeyBounded(cfg, ClientRun(cfg, w, cid, next, ts).0, cid)
    decreases ts
  {
    if ts != [] {
      var t := ts[0];
      var (w', next') := Advance(cfg, w, cid, next, t);
      var acts := HandleIsRun(cfg, w, t.h, Some(Message(Record(cid, next), t.ev)), t.f, t.env);
      RunKeepsKeyBounded(cfg, w, acts, cid);
      ClientKeepsKeyBounded(cfg, w', cid, next', ts[1..]);
    }
  }

  // Nothing fails, and before the first step the given time passes.
  function AfterPause(h: Sid, d: real): Attempt {
    Attempt(h, Ongoing, Fates(Returned, Acked, Returned, Returned), (i: nat) => if i == 0 then [Tick(d)] else [], false)
  }

  /** A client that has advanced and then pauses for the active TTL is refused, whatever went before. */
  lemma PauseRefuses(cfg: Config, init: World, c: Peer, ts: seq<Attempt>, h: Sid, d: real)
    requires cfg.Accepted() && cfg.Apart() && Initial(init) && AllProper(ts, c) && h in c.sessions
    requires cfg.activeTtl as real <= d
    requires 0 < ClientRun(cfg, init, c.cid, 0, ts).1
    ensures var (w, next) := ClientRun(cfg, init, c.cid, 0, ts);
      Try(cfg, w, Record(c.cid, next), AfterPause(h, d)).1.response == ErrorFrame(SequenceOutOfOrder)
  {
    var t := AfterPause(h, d);
    var (w, next) := ClientRun(cfg, init, c.cid, 0, ts);
    RunKeepsAgreement(cfg, init, c, 0, ts);
    ClientKeepsKeyBounded(cfg, init, c.cid, 0, ts);
    AttemptAgrees(cfg, w, c, next, t);
    assert Others(h, [Tick(d)]) == [Tick(d)];
    RunOne(cfg, w, Tick(d));
  }

  /** Such a client exists: number 0 acknowledged, the pause, and number 1 refused. */
  lemma HonestClientRefused(cfg: Config, init: World, h: Sid, cid: Cid)
    requires cfg.Accepted() && cfg.Apart() && Initial(init)
    ensures var (w, next) := ClientRun(cfg, init, cid, 0, [AfterPause(h, 0.0)]);
      && next == 1
      && Try(cfg, w, Record(cid, 1), AfterPause(h, cfg.activeTtl as real)).1.response
         == ErrorFrame(SequenceOutOfOrder)
  {
    var c, t := Peer(cid, iset{h}), AfterPause(h, 0.0);
    AttemptAdvances(cfg, init, c, 0, t);
    var w := Advance(cfg, init, cid, 0, t).0;
    assert ClientRun(cfg, init, cid, 0, [t]) == ClientRun(cfg, w, cid, 1, [t][1..]) == (w, 1);
    PauseRefuses(cfg, init, c, [t], h, cfg.activeTtl as real);
  }

  // ----- delivery -----

  // Whenever the client has advanced, its attempts find the key alive.
  predicate KeyLives(cfg: Config, w: World, cid: Cid, next: nat, ts: seq<Attempt>)
    decreases ts
  {
    ts == [] ||
    (&& Findable(cfg, w, cid, next, ts[0])
     && var (w', next') := Advance(cfg, w, cid, next, ts[0]);
        KeyLives(cfg, w', cid, next', ts[1..]))
  }

  function Faults(ts: seq<Attempt>): nat {
    if ts == [] then 0 else (if FaultFree(ts[0]) then 0 else 1) + Faults(ts[1..])
  }

  lemma {:induction false} FaultFreeAttemptsDeliver(cfg: Config, w: World, c: Peer, next: nat, ts: seq<Attempt>)
    requires cfg.Apart() && Agree(cfg, w, c, next) && AllProper(ts, c)
    requires KeyLives(cfg, w, c.cid, next, ts)
    ensures next + |ts| <= ClientRun(cfg, w, c.cid, next, ts).1 + Faults(ts)
    decreases ts
  {
    if ts != [] {
      AttemptAgrees(cfg, w, c, next, ts[0]);
      AttemptAdvances(cfg, w, c, next, ts[0]);
      var (w', next') := Advance(cfg, w, c.cid, next, ts[0]);
      FaultFreeAttemptsDeliver(cfg, w', c, next', ts[1..]);
    }
  }

  /** Lossless retry: messages plus faults attempts suffice to have all messages acknowledged. */
  lemma RetryDelivers(cfg: Config, init: World, c: Peer, ts: seq<Attempt>, messages: nat)
    requires cfg.Apart() && Initial(init) && AllProper(ts, c) && KeyLives(cfg, init, c.cid, 0, ts)
    requires messages + Faults(ts) <= |ts|
    ensures messages <= ClientRun(cfg, init, c.cid, 0, ts).1
  {
    FaultFreeAttemptsDeliver(cfg, init, c, 0, ts);
  }

  // ----- delivery, from a condition on time -----

  function CommitTime(cfg: Config, w: World, r: Record, t: Attempt): real {
    AtCommit(cfg, Step(cfg, AtPrepare(cfg, w, t), Prepare(t.h, r)), t.h, t.env).now
  }

  function LastCommit(cfg: Config, w: World, r: Record, t: Attempt, last: Option<real>): Option<real> {
    if Commits(cfg, w, r, t) then Some(CommitTime(cfg, w, r, t)) else last
  }

  // An advanced client's prepares run less than the final TTL after the last effective commit.
  predicate InTime(cfg: Config, w: World, cid: Cid, next: nat, ts: seq<Attempt>, last: Option<real>)
    decreases ts
  {
    ts == [] ||
    (&& (0 < next && last.Some? ==> AtPrepare(cfg, w, ts[0]).now < last.value + cfg.finalTtl as real)
     && var (w', next') := Advance(cfg, w, cid, next, ts[0]);
        InTime(cfg, w', cid, next', ts[1..], LastCommit(cfg, w, Record(cid, next), ts[0], last)))
  }

  // The key outlives the final TTL counted from the time t.
  predicate GoodSince(cfg: Config, w: World, cid: Cid, t: real) {
    t <= w.now && KeyUntil(cfg, w, cid, t + cfg.finalTtl as real)
  }

  lemma CommitIsGood(cfg: Config, w: World, h: Sid)
    requires cfg.Accepted() && h in w.busy && w.busy[h].Sent?
    ensures GoodSince(cfg, Step(cfg, w, ApplyCommit(h)), w.busy[h].r.cid, w.now)
    ensures var w' := Step(cfg, w, ApplyCommit(h)); h in w'.busy && w'.busy[h] == Sent(w.busy[h].r, true)
  {}

  lemma CommitStageIsGood(cfg: Config, w: World, h: Sid, m: Message, f: Fates, env: Env)
    requires cfg.Accepted() && cfg.Apart() && Effective(f.commit)
    requires h in w.busy && w.busy[h] == Sent(m.r, false)
    ensures GoodSince(cfg, CommitStage(cfg, w, h, m, f, env).0, m.r.cid, Interfere(cfg, w, h, env(3)).now)
  {
    var w1 := Interfere(cfg, w, h, env(3));
    InterfereKeeps(cfg, w, h, env(3));
    CommitIsGood(cfg, w1, h);
    var v := Step(cfg, w1, ApplyCommit(h));
    RunKeepsKeyUntil(cfg, v, Others(h, env(4)), m.r.cid, w1.now);
    var w2 := Interfere(cfg, v, h, env(4));
    StepKeepsKeyUntil(cfg, w2, if f.commit.Raised? then Abort(h) else CommitOk(h), m.r.cid, w1.now);
    if f.commit.Returned? {
      var w3 := Step(cfg, w2, CommitOk(h));
      var acts := FinishIsRun(cfg, w3, h, m, f, env);
      RunKeepsKeyUntil(cfg, w3, acts, m.r.cid, w1.now);
    }
  }

  lemma SendStageIsGood(cfg: Config, w: World, h: Sid, m: Message, f: Fates, env: Env)
    requires cfg.Accepted() && cfg.Apart() && f.send.Acked? && Effective(f.commit)
    requires h in w.busy && w.busy[h] == Prepared(m.r)
    ensures GoodSince(cfg, SendStage(cfg, w, h, m, f, env).0, m.r.cid, AtCommit(cfg, w, h, env).now)
  {
    var v1 := Step(cfg, w, BeginSend(h));
    InterfereKeeps(cfg, v1, h, env(1));
    var v2 := Step(cfg, Interfere(cfg, v1, h, env(1)), Land(h));
    InterfereKeeps(cfg, v2, h, env(2));
    CommitStageIsGood(cfg, Step(cfg, Interfere(cfg, v2, h, env(2)), SendOk(h)), h, m, f, env);
  }

  lemma CommitKeepsKeyGood(cfg: Config, w: World, c: Peer, next: nat, t: Attempt)
    requires cfg.Accepted() && cfg.Apart() && Agree(cfg, w, c, next) && Proper(t, c)
    requires Commits(cfg, w, Record(c.cid, next), t)
    ensures GoodSince(cfg, Try(cfg, w, Record(c.cid, next), t).0, c.cid, CommitTime(cfg, w, Record(c.cid, next), t))
  {
    var m, w0 := Message(Record(c.cid, next), t.ev), AtPrepare(cfg, w, t);
    AgreedAnswer(cfg, w, c, next, t);
    PrepareAt(cfg, w0, t.h, c, next);
    SendStageIsGood(cfg, Step(cfg, w0, Prepare(t.h, m.r)), t.h, m, t.f, t.env);
  }

  lemma TryKeepsKeyGood(cfg: Config, w: World, r: Record, t: Attempt, since: real)
    requires cfg.Accepted() && cfg.Apart() && GoodSince(cfg, w, r.cid, since)
    ensures GoodSince(cfg, AtPrepare(cfg, w, t), r.cid, since) && GoodSince(cfg, Try(cfg, w, r, t).0, r.cid, since)
  {
    var acts := HandleIsRun(cfg, w, t.h, Some(Message(r, t.ev)), t.f, t.env);
    RunKeepsKeyUntil(cfg, w, acts, r.cid, since);
    RunKeepsKeyUntil(cfg, w, Others(t.h, t.env(0)), r.cid, since);
  }

  // No commit so far and nothing stored but 0, or the key is good since the last commit.
  predicate Good(cfg: Config, w: World, cid: Cid, last: Option<real>) {
    match last
    case None => Expected(cfg, w, cid) == 0
    case Some(t) => GoodSince(cfg, w, cid, t)
  }

  lemma AttemptKeepsGood(cfg: Config, w: World, c: Peer, next: nat, t: Attempt, last: Option<real>)
    requires cfg.Accepted() && cfg.Apart() && Agree(cfg, w, c, next) && Proper(t, c) && Good(cfg, w, c.cid, last)
    ensures Good(cfg, Advance(cfg, w, c.cid, next, t).0, c.cid, LastCommit(cfg, w, Record(c.cid, next), t, last))
    ensures last.Some? ==> GoodSince(cfg, AtPrepare(cfg, w, t), c.cid, last.value)
  {
    var r := Record(c.cid, next);
    if last.Some? {
      TryKeepsKeyGood(cfg, w, r, t, last.value);
    }
    if Commits(cfg, w, r, t) {
      CommitKeepsKeyGood(cfg, w, c, next, t);
    } else if last.None? {
      AgreedAnswer(cfg, w, c, next, t);
      AttemptAgrees(cfg, w, c, next, t);
      AttemptAdvances(cfg, w, c, next, t);
    }
  }

  predicate NeverRefused(cfg: Config, w: World, cid: Cid, next: nat, ts: seq<Attempt>)
    decreases ts
  {
    ts == [] ||
    (&& Try(cfg, w, Record(cid, next), ts[0]).1.response != ErrorFrame(SequenceOutOfOrder)
     && var (w', next') := Advance(cfg, w, cid, next, ts[0]);
        NeverRefused(cfg, w', cid, next', ts[1..]))
  }

  lemma {:induction false} InTimeKeepsKey(
    cfg: Config, w: World, c: Peer, next: nat, ts: seq<Attempt>, last: Option<real>)
    requires cfg.Accepted() && cfg.Apart() && Agree(cfg, w, c, next) && AllProper(ts, c)
    requires Good(cfg, w, c.cid, last) && InTime(cfg, w, c.cid, next, ts, last)
    ensures KeyLives(cfg, w, c.cid, next, ts) && NeverRefused(cfg, w, c.cid, next, ts)
    decreases ts
  {
    if ts != [] {
      AttemptKeepsGood(cfg, w, c, next, ts[0], last);
      assert Findable(cfg, w, c.cid, next, ts[0]);
      AttemptAgrees(cfg, w, c, next, ts[0]);
      var (w', next') := Advance(cfg, w, c.cid, next, ts[0]);
      InTimeKeepsKey(cfg, w', c, next', ts[1..], LastCommit(cfg, w, Record(c.cid, next), ts[0], last));
    }
  }

  /**
   A client whose prepares run less than the final TTL after the last effective commit is never
   refused with E1006, and messages plus faults attempts have all its messages acknowledged.
   */
  lemma InTimeDelivers(cfg: Config, init: World, c: Peer, ts: seq<Attempt>, messages: nat)
    requires cfg.Accepted() && cfg.Apart() && Initial(init) && AllProper(ts, c)
    requires InTime(cfg, init, c.cid, 0, ts, None)
    ensures NeverRefused(cfg, init, c.cid, 0, ts)
    ensures messages + Faults(ts) <= |ts| ==> messages <= ClientRun(cfg, init, c.cid, 0, ts).1
  {
    InTimeKeepsKey(cfg, init, c, 0, ts, None);
    if messages + Faults(ts) <= |ts| {
      RetryDelivers(cfg, init, c, ts, messages);
    }
  }
}
