/**
 What reaches the log: a message adds its record once or not at all, and a stream of messages
 through a session is acknowledged and logged message by message.
 */
module Delivery {
  import opened Options
  import opened Redis
  import opened Settings
  import opened Protocol
  import Durability
  import opened Orchestrator
  import opened Handling
  import Linear
  import opened KeyLife
  import opened Client
  import opened Conversation

  // ----- one message -----

  // Others bring no record of the conversation into the log, and start no handler for it.
  predicate NoCopy(a: Action, cid: Cid) {
    !((a.Prepare? || a.LateLand?) && a.r.cid == cid)
  }

  ghost predicate NoCopies(env: Env, cid: Cid) {
    forall i, a | a in env(i) :: NoCopy(a, cid)
  }

  lemma NoCopyStep(cfg: Config, w: World, h: Sid, cid: Cid, a: Action)
    requires Lone(w, h, cid) && ByOthers(a, h) && NoCopy(a, cid)
    ensures Lone(Step(cfg, w, a), h, cid) && Log(Step(cfg, w, a).topic, cid) == Log(w.topic, cid)
  {
    if Enabled(w, a) && (a.Land? || a.LateLand?) {
      LogSnoc(w.topic, if a.Land? then w.busy[a.h].r else a.r, cid);
    }
  }

  lemma {:induction false} NoCopyRun(cfg: Config, w: World, h: Sid, cid: Cid, acts: seq<Action>)
    requires Lone(w, h, cid) && AllByOthers(acts, h) && forall a | a in acts :: NoCopy(a, cid)
    ensures Lone(Run(cfg, w, acts), h, cid) && Log(Run(cfg, w, acts).topic, cid) == Log(w.topic, cid)
    decreases acts
  {
    if acts != [] {
      assert ByOthers(acts[0], h) && acts[0] in acts;
      NoCopyStep(cfg, w, h, cid, acts[0]);
      NoCopyRun(cfg, Step(cfg, w, acts[0]), h, cid, acts[1..]);
    }
  }

  // The handler of h is in phase p, alone with the conversation, whose log is given.
  ghost predicate Logged(w: World, h: Sid, p: Phase, log: seq<nat>) {
    Lone(w, h, p.r.cid) && h in w.busy && w.busy[h] == p && Log(w.topic, p.r.cid) == log
  }

  lemma InterfereLogged(cfg: Config, w: World, h: Sid, p: Phase, log: seq<nat>, env: Env, i: nat)
    requires NoCopies(env, p.r.cid) && Logged(w, h, p, log)
    ensures Logged(Interfere(cfg, w, h, env(i)), h, p, log)
  {
    OthersAreOthers(h, env(i));
    NoCopyRun(cfg, w, h, p.r.cid, Others(h, env(i)));
    InterfereKeeps(cfg, w, h, env(i));
  }

  // Of the own steps, only the landing of the send changes the log.
  lemma OwnStepLogged(cfg: Config, w: World, h: Sid, r: Record, log: seq<nat>)
    ensures Logged(w, h, Prepared(r), log) ==> Logged(Step(cfg, w, BeginSend(h)), h, Sending(r, false), log)
    ensures Logged(w, h, Sending(r, false), log) ==>
              Logged(Step(cfg, w, Land(h)), h, Sending(r, true), log + [r.num])
    ensures Logged(w, h, Sending(r, true), log) ==> Logged(Step(cfg, w, SendOk(h)), h, Sent(r, false), log)
  {
    LogSnoc(w.topic, r, r.cid);
  }

  lemma CommitStepLogged(cfg: Config, w: World, h: Sid, r: Record, log: seq<nat>)
    ensures Logged(w, h, Sent(r, false), log) ==> Logged(Step(cfg, w, ApplyCommit(h)), h, Sent(r, true), log)
    ensures Logged(w, h, Sent(r, true), log) ==> Logged(Step(cfg, w, CommitOk(h)), h, Committed(r), log)
  {}

  lemma StopKeepsLog(cfg: Config, w: World, h: Sid)
    ensures Step(cfg, w, Abort(h)).topic == w.topic
  {}

  lemma FinishKeepsLog(cfg: Config, w: World, h: Sid, m: Message, f: Fates, env: Env, log: seq<nat>)
    requires NoCopies(env, m.r.cid) && Logged(w, h, Committed(m.r), log)
    ensures Log(FinishStage(cfg, w, h, m, f, env).0.topic, m.r.cid) == log
  {
    InterfereLogged(cfg, w, h, Committed(m.r), log, env, 5);
  }

  lemma CommitKeepsLog(cfg: Config, w: World, h: Sid, m: Message, f: Fates, env: Env, log: seq<nat>)
    requires NoCopies(env, m.r.cid) && Logged(w, h, Sent(m.r, false), log)
    ensures Log(CommitStage(cfg, w, h, m, f, env).0.topic, m.r.cid) == log
  {
    InterfereLogged(cfg, w, h, Sent(m.r, false), log, env, 3);
    var w1, applied := Interfere(cfg, w, h, env(3)), Effective(f.commit);
    CommitStepLogged(cfg, w1, h, m.r, log);
    var v := if applied then Step(cfg, w1, ApplyCommit(h)) else w1;
    InterfereLogged(cfg, v, h, Sent(m.r, applied), log, env, 4);
    var w2 := Interfere(cfg, v, h, env(4));
    if f.commit.Returned? {
      CommitStepLogged(cfg, w2, h, m.r, log);
      FinishKeepsLog(cfg, Step(cfg, w2, CommitOk(h)), h, m, f, env, log);
    } else {
      StopKeepsLog(cfg, w2, h);
    }
  }

  lemma SendAppends(cfg: Config, w: World, h: Sid, m: Message, f: Fates, env: Env, log: seq<nat>)
    requires NoCopies(env, m.r.cid) && Logged(w, h, Prepared(m.r), log)
    ensures Log(SendStage(cfg, w, h, m, f, env).0.topic, m.r.cid) == log + if Landed(f.send) then [m.r.num] else []
  {
    if f.send.Unconverted? {
      assert log + [] == log;
      return;
    }
    OwnStepLogged(cfg, w, h, m.r, log);
    var v1 := Step(cfg, w, BeginSend(h));
    InterfereLogged(cfg, v1, h, Sending(m.r, false), log, env, 1);
    var w1, landed := Interfere(cfg, v1, h, env(1)), Landed(f.send);
    OwnStepLogged(cfg, w1, h, m.r, log);
    var v2, log' := if landed then Step(cfg, w1, Land(h)) else w1, log + if landed then [m.r.num] else [];
    assert log + [] == log;
    InterfereLogged(cfg, v2, h, Sending(m.r, landed), log', env, 2);
    var w2 := Interfere(cfg, v2, h, env(2));
    if f.send.Acked? {
      OwnStepLogged(cfg, w2, h, m.r, log');
      CommitKeepsLog(cfg, Step(cfg, w2, SendOk(h)), h, m, f, env, log');
    } else {
      StopKeepsLog(cfg, w2, h);
    }
  }

  /**
   If nobody else writes to the conversation's log, handling a message adds its record exactly
   once if the message is accepted and its send lands, and adds nothing otherwise.
   */
  lemma MessageAppends(cfg: Config, w: World, h: Sid, m: Message, f: Fates, env: Env)
    requires h !in w.busy && Lone(w, h, m.r.cid) && NoCopies(env, m.r.cid)
    ensures Log(Handle(cfg, w, h, Some(m), f, env).0.topic, m.r.cid) == Log(w.topic, m.r.cid) +
      if f.prepare.Returned? && Fits(cfg, Interfere(cfg, w, h, env(0)), m.r) && Landed(f.send) then [m.r.num] else []
  {
    var w0, log := Interfere(cfg, w, h, env(0)), Log(w.topic, m.r.cid);
    OthersAreOthers(h, env(0));
    NoCopyRun(cfg, w, h, m.r.cid, Others(h, env(0)));
    InterfereKeeps(cfg, w, h, env(0));
    assert log + [] == log;
    if f.prepare.Returned? && Fits(cfg, w0, m.r) {
      SendAppends(cfg, Step(cfg, w0, Prepare(h, m.r)), h, m, f, env, log);
    }
  }

  // ----- a stream of messages -----

  // From the n-th text on, the numbers from next on, none of them the last but the last.
  ghost predicate Numbered(inbox: seq<Inbound>, cid: Cid, n: nat, next: nat) {
    forall i | n <= i < |inbox| ::
      && inbox[i].Json? && inbox[i].msg.Some? && inbox[i].msg.value.r == Record(cid, next + i - n)
      && (inbox[i].msg.value.ev.Complete? ==> i == |inbox| - 1)
  }

  // The same as the attempts of a client.
  function Tries(h: Sid, inbox: seq<Inbound>, fates: nat -> Fates, env: nat -> Env, n: nat): seq<Attempt>
    decreases |inbox| - n
  {
    if n >= |inbox| then []
    else
      var ev := if inbox[n].Json? && inbox[n].msg.Some? then inbox[n].msg.value.ev else Ongoing;
      [Attempt(h, ev, fates(n), env(n), false)] + Tries(h, inbox, fates, env, n + 1)
  }

  // The session is idle, the client's next number is expected, nothing fails, nobody
  // interferes, and the key is alive whenever a message looks for it.
  ghost predicate Smooth(cfg: Config, w: World, h: Sid, cid: Cid, inbox: seq<Inbound>, fates: nat -> Fates,
                         env: nat -> Env, n: nat, next: nat)
  {
    && Agree(cfg, w, Peer(cid, iset{h}), next) && Linear.Expected(cfg, w, cid) == next
    && Numbered(inbox, cid, n, next) && KeyLives(cfg, w, cid, next, Tries(h, inbox, fates, env, n))
    && forall i | n <= i < |inbox| ::
         QuietEnv(env(i), Peer(cid, iset{h})) && NoCopies(env(i), cid)
         && fates(i).prepare.Returned? && fates(i).send.Acked? && fates(i).commit.Returned?
  }

  // Exactly these numbers are acknowledged, in order, and added to the log.
  ghost predicate Delivered(w: World, w': World, frames: seq<Frame>, cid: Cid, next: nat, complete: bool) {
    && (forall i | 0 <= i < |frames| ::
          frames[i] == if i == |frames| - 1 && complete then EolAck(Record(cid, next + i))
                       else TranscriptAck(Record(cid, next + i)))
    && Log(w'.topic, cid) == Log(w.topic, cid) + seq(|frames|, i => next + i)
  }

  predicate EndsComplete(inbox: seq<Inbound>) {
    inbox != [] && var t := inbox[|inbox| - 1]; t.Json? && t.msg.Some? && t.msg.value.ev.Complete?
  }

  // One message of a smooth stream.
  lemma SmoothMessage(cfg: Config, w: World, h: Sid, cid: Cid, inbox: seq<Inbound>, fates: nat -> Fates,
                      env: nat -> Env, n: nat, next: nat)
    requires cfg.Apart() && n < |inbox| && Smooth(cfg, w, h, cid, inbox, fates, env, n, next)
    ensures var (w', frame) := ReplyTo(cfg, w, h, cid, inbox[n], fates(n), env(n));
      && frame == (if n == |inbox| - 1 && EndsComplete(inbox) then EolAck(Record(cid, next))
                   else TranscriptAck(Record(cid, next)))
      && Log(w'.topic, cid) == Log(w.topic, cid) + [next]
      && Smooth(cfg, w', h, cid, inbox, fates, env, n + 1, next + 1)
  {
    var c, m, t := Peer(cid, iset{h}), inbox[n].msg.value, Tries(h, inbox, fates, env, n)[0];
    assert t == Attempt(h, m.ev, fates(n), env(n), false) && m == Message(Record(cid, next), m.ev);
    AttemptAgrees(cfg, w, c, next, t);
    AttemptAdvances(cfg, w, c, next, t);
    AgreedAnswer(cfg, w, c, next, t);
    HandleLeavesNothing(cfg, w, h, m, fates(n), env(n));
    MessageAppends(cfg, w, h, m, fates(n), env(n));
    assert Tries(h, inbox, fates, env, n)[1..] == Tries(h, inbox, fates, env, n + 1);
  }

  lemma OneMoreDelivered(w: World, w1: World, w2: World, frame: Frame, frames: seq<Frame>, cid: Cid, next: nat,
                         complete: bool)
    requires Delivered(w1, w2, frames, cid, next + 1, complete) && Log(w1.topic, cid) == Log(w.topic, cid) + [next]
    requires frame == if frames == [] && complete then EolAck(Record(cid, next)) else TranscriptAck(Record(cid, next))
    ensures Delivered(w, w2, [frame] + frames, cid, next, complete)
  {
    var k := |frames|;
    assert [next] + seq(k, i => next + 1 + i) == seq(k + 1, i => next + i);
    assert Log(w.topic, cid) + [next] + seq(k, i => next + 1 + i)
      == Log(w.topic, cid) + ([next] + seq(k, i => next + 1 + i));
  }

  lemma NothingMoreDelivered(w: World, cid: Cid, next: nat, complete: bool)
    ensures Delivered(w, w, [], cid, next, complete)
  {
    assert seq(0, i => next + i) == [] && Log(w.topic, cid) + [] == Log(w.topic, cid);
  }

  // What is true of the rest of a stream is true of all of it.
  ghost predicate DeliveredFrom(
    cfg: Config, w: World, h: Sid, cid: Cid, inbox: seq<Inbound>, fates: nat -> Fates, env: nat -> Env, n: nat,
    next: nat)
  {
    var (w', frames) := RepliesTo(cfg, w, h, cid, inbox, fates, env, n);
    n <= |inbox| && |frames| == |inbox| - n && Delivered(w, w', frames, cid, next, EndsComplete(inbox))
  }

  lemma DeliveredOneBefore(cfg: Config, w: World, h: Sid, cid: Cid, inbox: seq<Inbound>, fates: nat -> Fates,
                           env: nat -> Env, n: nat, next: nat)
    requires n < |inbox|
    requires var (w1, frame) := ReplyTo(cfg, w, h, cid, inbox[n], fates(n), env(n));
      && Log(w1.topic, cid) == Log(w.topic, cid) + [next]
      && frame == (if n == |inbox| - 1 && EndsComplete(inbox) then EolAck(Record(cid, next))
                   else TranscriptAck(Record(cid, next)))
      && DeliveredFrom(cfg, w1, h, cid, inbox, fates, env, n + 1, next + 1)
    ensures DeliveredFrom(cfg, w, h, cid, inbox, fates, env, n, next)
  {
    var (w1, frame) := ReplyTo(cfg, w, h, cid, inbox[n], fates(n), env(n));
    var (w2, frames) := RepliesTo(cfg, w1, h, cid, inbox, fates, env, n + 1);
    OneMoreDelivered(w, w1, w2, frame, frames, cid, next, EndsComplete(inbox));
    assert frames == [] ==> [frame] + frames == [frame];
  }

  /**
   A session through which a client sends the numbers from the expected one on, without faults,
   interference or expiry, acknowledges every one of them, in order, and adds exactly these
   records to the log.
   */
  lemma {:induction false} StreamIsDelivered(
    cfg: Config, w: World, h: Sid, cid: Cid, inbox: seq<Inbound>, fates: nat -> Fates, env: nat -> Env,
    n: nat, next: nat)
    requires cfg.Apart() && n <= |inbox| && Smooth(cfg, w, h, cid, inbox, fates, env, n, next)
    ensures DeliveredFrom(cfg, w, h, cid, inbox, fates, env, n, next)
    decreases |inbox| - n
  {
    if n < |inbox| {
      SmoothMessage(cfg, w, h, cid, inbox, fates, env, n, next);
      StreamIsDelivered(
        cfg, ReplyTo(cfg, w, h, cid, inbox[n], fates(n), env(n)).0, h, cid, inbox, fates, env, n + 1, next + 1);
      DeliveredOneBefore(cfg, w, h, cid, inbox, fates, env, n, next);
    } else {
      NothingMoreDelivered(w, cid, next, EndsComplete(inbox));
    }
  }
}
