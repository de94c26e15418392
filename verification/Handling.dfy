/**
 What one call of the orchestrator guarantees, whatever happens around it: it leaves no
 message in progress, and it acknowledges only what the log already holds.
 */
module Handling {
  import opened Options
  import opened Redis
  import opened Settings
  import opened Protocol
  import Durability
  import Linear
  import opened Orchestrator

  ghost predicate AllByOthers(acts: seq<Action>, h: Sid) {
    forall i | 0 <= i < |acts| :: ByOthers(acts[i], h)
  }

  lemma {:induction false} OthersAreOthers(h: Sid, acts: seq<Action>)
    ensures AllByOthers(Others(h, acts), h)
    ensures forall a | a in Others(h, acts) :: a in acts
  {
    if acts != [] {
      OthersAreOthers(h, acts[1..]);
    }
  }

  /** The environment of a handler is unrestricted: others may do any list of actions. */
  lemma {:induction false} OthersDoAnything(cfg: Config, w: World, h: Sid, acts: seq<Action>)
    requires AllByOthers(acts, h)
    ensures Interfere(cfg, w, h, acts) == Run(cfg, w, acts)
    ensures Others(h, acts) == acts
  {
    if acts != [] {
      assert ByOthers(acts[0], h);
      OthersDoAnything(cfg, w, h, acts[1..]);
      assert acts == [acts[0]] + acts[1..];
    }
  }

  // The session's own progress is the same before and after.
  predicate SameProgress(w: World, w': World, h: Sid) {
    if h in w.busy then h in w'.busy && w'.busy[h] == w.busy[h] else h !in w'.busy
  }

  lemma {:induction false} RunKeepsProgress(cfg: Config, w: World, h: Sid, acts: seq<Action>)
    requires AllByOthers(acts, h)
    ensures SameProgress(w, Run(cfg, w, acts), h)
    decreases acts
  {
    if acts != [] {
      assert ByOthers(acts[0], h);
      RunKeepsProgress(cfg, Step(cfg, w, acts[0]), h, acts[1..]);
    }
  }

  lemma InterfereKeeps(cfg: Config, w: World, h: Sid, acts: seq<Action>)
    ensures SameProgress(w, Interfere(cfg, w, h, acts), h)
  {
    OthersAreOthers(h, acts);
    RunKeepsProgress(cfg, w, h, Others(h, acts));
  }

  // ----- a call is a run -----

  lemma RunOne(cfg: Config, w: World, a: Action)
    ensures Run(cfg, w, [a]) == Step(cfg, w, a)
  {
    assert Run(cfg, w, [a]) == Run(cfg, Step(cfg, w, a), [a][1..]);
  }

  // Appends what the others do and then, if it happens at all, an action of the handler.
  lemma Extend(cfg: Config, w: World, t: seq<Action>, h: Sid, acts: seq<Action>, happens: bool, a: Action)
    returns (t': seq<Action>)
    ensures var w1 := Interfere(cfg, Run(cfg, w, t), h, acts);
      Run(cfg, w, t') == if happens then Step(cfg, w1, a) else w1
  {
    RunConcat(cfg, w, t, Others(h, acts));
    t' := t + Others(h, acts);
    if happens {
      RunConcat(cfg, w, t', [a]);
      RunOne(cfg, Run(cfg, w, t'), a);
      t' := t' + [a];
    }
  }

  lemma InterfereNone(cfg: Config, w: World, h: Sid)
    ensures Interfere(cfg, w, h, []) == w
  {}

  lemma FinishIsRun(cfg: Config, w: World, h: Sid, m: Message, f: Fates, env: Env) returns (t: seq<Action>)
    ensures FinishStage(cfg, w, h, m, f, env).0 == Run(cfg, w, t)
  {
    t := [];
    if m.ev.Complete? {
      t := Extend(cfg, w, t, h, env(5), Effective(f.cleanup), Cleanup(h, m.r.cid));
    }
    InterfereNone(cfg, Run(cfg, w, t), h);
    t := Extend(cfg, w, t, h, [], true, Ack(h));
  }

  lemma CommitIsRun(cfg: Config, w: World, h: Sid, m: Message, f: Fates, env: Env) returns (t: seq<Action>)
    ensures CommitStage(cfg, w, h, m, f, env).0 == Run(cfg, w, t)
  {
    t := Extend(cfg, w, [], h, env(3), Effective(f.commit), ApplyCommit(h));
    t := Extend(cfg, w, t, h, env(4), true, if f.commit.Raised? then Abort(h) else CommitOk(h));
    if f.commit.Returned? {
      var t' := FinishIsRun(cfg, Run(cfg, w, t), h, m, f, env);
      RunConcat(cfg, w, t, t');
      t := t + t';
    }
  }

  lemma SendIsRun(cfg: Config, w: World, h: Sid, m: Message, f: Fates, env: Env) returns (t: seq<Action>)
    ensures SendStage(cfg, w, h, m, f, env).0 == Run(cfg, w, t)
  {
    InterfereNone(cfg, w, h);
    if f.send.Unconverted? {
      t := Extend(cfg, w, [], h, [], true, Abort(h));
      return;
    }
    t := Extend(cfg, w, [], h, [], true, BeginSend(h));
    t := Extend(cfg, w, t, h, env(1), Landed(f.send), Land(h));
    t := Extend(cfg, w, t, h, env(2), true, if f.send.Acked? then SendOk(h) else Abort(h));
    if f.send.Acked? {
      var t' := CommitIsRun(cfg, Run(cfg, w, t), h, m, f, env);
      RunConcat(cfg, w, t, t');
      t := t + t';
    }
  }

  /** One call of the orchestrator, with everything that happens around it, is a protocol run. */
  lemma HandleIsRun(cfg: Config, w: World, h: Sid, msg: Option<Message>, f: Fates, env: Env)
    returns (t: seq<Action>)
    ensures Handle(cfg, w, h, msg, f, env).0 == Run(cfg, w, t)
  {
    t := [];
    if msg.Some? {
      var m := msg.value;
      var w0 := Interfere(cfg, w, h, env(0));
      if f.prepare.Raised? {
        t := Extend(cfg, w, t, h, env(0), f.prepare.applied, StrayPrepare(h, m.r));
      } else {
        t := Extend(cfg, w, t, h, env(0), true, Prepare(h, m.r));
        if SeqReply(cfg, w0, m.r).PreCheckOk? {
          var t' := SendIsRun(cfg, Run(cfg, w, t), h, m, f, env);
          RunConcat(cfg, w, t, t');
          t := t + t';
        }
      }
    }
  }

  // ----- what a call leaves behind -----

  // What a stage of the handler owes its caller.
  predicate Settled(w: World, res: Result, h: Sid, m: Message) {
    && h !in w.busy
    && (IsAck(res.response) ==> m.r in w.acks && res.response == SuccessAck(m))
    && res.disconnect == !res.response.TranscriptAck?
  }

  lemma FinishSettles(cfg: Config, w: World, h: Sid, m: Message, f: Fates, env: Env)
    requires h in w.busy && w.busy[h] == Committed(m.r)
    ensures var (w', res) := FinishStage(cfg, w, h, m, f, env); Settled(w', res, h, m)
  {
    InterfereKeeps(cfg, w, h, env(5));
  }

  // Where the handler stands when its commit call ends, and when its send ends.
  lemma CommitEnds(cfg: Config, w: World, h: Sid, r: Record, f: Fates, env: Env)
    requires h in w.busy && w.busy[h] == Sent(r, false)
    ensures var w1 := Interfere(cfg, w, h, env(3));
      var w2 := Interfere(cfg, if Effective(f.commit) then Step(cfg, w1, ApplyCommit(h)) else w1, h, env(4));
      h in w2.busy && w2.busy[h] == Sent(r, Effective(f.commit))
  {
    var w1 := Interfere(cfg, w, h, env(3));
    InterfereKeeps(cfg, w, h, env(3));
    InterfereKeeps(cfg, if Effective(f.commit) then Step(cfg, w1, ApplyCommit(h)) else w1, h, env(4));
  }

  lemma SendEnds(cfg: Config, w: World, h: Sid, r: Record, f: Fates, env: Env)
    requires h in w.busy && w.busy[h] == Prepared(r)
    ensures var w1 := Interfere(cfg, Step(cfg, w, BeginSend(h)), h, env(1));
      var w2 := Interfere(cfg, if Landed(f.send) then Step(cfg, w1, Land(h)) else w1, h, env(2));
      h in w2.busy && w2.busy[h] == Sending(r, Landed(f.send))
  {
    var v1 := Step(cfg, w, BeginSend(h));
    var w1 := Interfere(cfg, v1, h, env(1));
    InterfereKeeps(cfg, v1, h, env(1));
    InterfereKeeps(cfg, if Landed(f.send) then Step(cfg, w1, Land(h)) else w1, h, env(2));
  }

  lemma CommitSettles(cfg: Config, w: World, h: Sid, m: Message, f: Fates, env: Env)
    requires h in w.busy && w.busy[h] == Sent(m.r, false)
    ensures var (w', res) := CommitStage(cfg, w, h, m, f, env); Settled(w', res, h, m)
  {
    CommitEnds(cfg, w, h, m.r, f, env);
    var w1 := Interfere(cfg, w, h, env(3));
    var w2 := Interfere(cfg, if Effective(f.commit) then Step(cfg, w1, ApplyCommit(h)) else w1, h, env(4));
    if f.commit.Returned? {
      FinishSettles(cfg, Step(cfg, w2, CommitOk(h)), h, m, f, env);
    }
  }

  lemma SendSettles(cfg: Config, w: World, h: Sid, m: Message, f: Fates, env: Env)
    requires h in w.busy && w.busy[h] == Prepared(m.r)
    ensures var (w', res) := SendStage(cfg, w, h, m, f, env); Settled(w', res, h, m)
  {
    SendEnds(cfg, w, h, m.r, f, env);
    var w1 := Interfere(cfg, Step(cfg, w, BeginSend(h)), h, env(1));
    var w2 := Interfere(cfg, if Landed(f.send) then Step(cfg, w1, Land(h)) else w1, h, env(2));
    if f.send.Acked? {
      CommitSettles(cfg, Step(cfg, w2, SendOk(h)), h, m, f, env);
    }
  }

  /**
   One call of the orchestrator in an arbitrary environment: an ACK echoes the request, takes
   its type from the request's event, and names a message that is in the log; anything but a
   transcript ACK disconnects; and nothing of the session's is left in progress.
   */
  lemma HandleSettles(cfg: Config, w: World, h: Sid, m: Message, f: Fates, env: Env)
    requires Durability.Backed(cfg, w) && h !in w.busy
    ensures var (w', res) := Handle(cfg, w, h, Some(m), f, env);
      && Settled(w', res, h, m) && Durability.Backed(cfg, w') && w.topic <= w'.topic
      && (IsAck(res.response) ==> m.r in w'.topic)
  {
    var t := HandleIsRun(cfg, w, h, Some(m), f, env);
    Durability.RunKeepsBacked(cfg, w, t);
    Linear.LogOnlyGrows(cfg, w, t);
    HandleLeavesNothing(cfg, w, h, m, f, env);
  }

  lemma HandleLeavesNothing(cfg: Config, w: World, h: Sid, m: Message, f: Fates, env: Env)
    requires h !in w.busy
    ensures var (w', res) := Handle(cfg, w, h, Some(m), f, env); Settled(w', res, h, m)
  {
    var w0 := Interfere(cfg, w, h, env(0));
    InterfereKeeps(cfg, w, h, env(0));
    if f.prepare.Returned? && SeqReply(cfg, w0, m.r).PreCheckOk? {
      SendSettles(cfg, Step(cfg, w0, Prepare(h, m.r)), h, m, f, env);
    }
  }

  // ----- its moments -----

  // The state in which the commit script of an accepted message runs, from its prepare on.
  function AtCommit(cfg: Config, w: World, h: Sid, env: Env): World {
    var w1 := Interfere(cfg, Step(cfg, w, BeginSend(h)), h, env(1));
    var w2 := Interfere(cfg, Step(cfg, w1, Land(h)), h, env(2));
    Interfere(cfg, Step(cfg, w2, SendOk(h)), h, env(3))
  }

  // The state in which its cleanup script runs, from that state on.
  function AtCleanup(cfg: Config, w: World, h: Sid, env: Env): World {
    Interfere(cfg, Step(cfg, Interfere(cfg, Step(cfg, w, ApplyCommit(h)), h, env(4)), CommitOk(h)), h, env(5))
  }

  // ----- what a call answers -----

  // The answer is an acknowledgement, with the type the event asks for; only a transcript ACK
  // leaves the connection open.
  predicate Acknowledges(res: Result, m: Message) {
    res == if m.ev.Complete? then Result(EolAck(m.r), true) else Result(TranscriptAck(m.r), false)
  }

  predicate Refuses(res: Result, reason: Reason) {
    res == Result(ErrorFrame(reason), true)
  }

  lemma CommitAnswers(cfg: Config, w: World, h: Sid, m: Message, f: Fates, env: Env)
    ensures var res := CommitStage(cfg, w, h, m, f, env).1;
      if f.commit.Returned? then Acknowledges(res, m) else Refuses(res, Internal)
  {}

  lemma SendAnswers(cfg: Config, w: World, h: Sid, m: Message, f: Fates, env: Env)
    ensures var res := SendStage(cfg, w, h, m, f, env).1;
      match f.send
      case Unconverted => Refuses(res, Internal)
      case TimedOut(_) => Refuses(res, DownstreamTimeout)
      case Failed(_) => Refuses(res, DownstreamUnavailable)
      case Acked => if f.commit.Returned? then Acknowledges(res, m) else Refuses(res, Internal)
  {
    if f.send.Acked? {
      var w1 := Interfere(cfg, Step(cfg, w, BeginSend(h)), h, env(1));
      var w2 := Interfere(cfg, if Landed(f.send) then Step(cfg, w1, Land(h)) else w1, h, env(2));
      CommitAnswers(cfg, Step(cfg, w2, SendOk(h)), h, m, f, env);
    }
  }

  /**
   Any sender, any environment: which answer a message gets, from what its prepare finds in
   Redis and from what happens to the calls after it. E1006 is answered if and only if the
   prepare returns and finds a smaller number, or no key for a number other than 0.
   */
  lemma AnswerIff(cfg: Config, w: World, h: Sid, m: Message, f: Fates, env: Env)
    ensures var w0 := Interfere(cfg, w, h, env(0));
      var res := Handle(cfg, w, h, Some(m), f, env).1;
      var accepted := f.prepare.Returned? && Fits(cfg, w0, m.r);
      var confirmed := accepted && f.send.Acked?;
      && (Refuses(res, SequenceOutOfOrder) <==> f.prepare.Returned? && Ahead(cfg, w0, m.r))
      && (Acknowledges(res, m) <==>
          (f.prepare.Returned? && Passed(cfg, w0, m.r)) || (confirmed && f.commit.Returned?))
      && (Refuses(res, DownstreamTimeout) <==> accepted && f.send.TimedOut?)
      && (Refuses(res, DownstreamUnavailable) <==> accepted && f.send.Failed?)
      && (Refuses(res, Internal) <==>
          || f.prepare.Raised? || (accepted && f.send.Unconverted?) || (confirmed && f.commit.Raised?)
          || Unreadable(cfg, w0, m.r))
      && (Acknowledges(res, m) || Refuses(res, SequenceOutOfOrder) || Refuses(res, DownstreamTimeout)
          || Refuses(res, DownstreamUnavailable) || Refuses(res, Internal))
  {
    var w0 := Interfere(cfg, w, h, env(0));
    SendAnswers(cfg, Step(cfg, w0, Prepare(h, m.r)), h, m, f, env);
  }

  /** A message that is refused as out of order, or replayed, leaves no trace but its answer. */
  lemma RefusedChangesNothing(cfg: Config, w: World, h: Sid, m: Message, f: Fates, env: Env)
    ensures var w0 := Interfere(cfg, w, h, env(0));
      var (w', res) := Handle(cfg, w, h, Some(m), f, env);
      && (Refuses(res, SequenceOutOfOrder) ==> w' == w0)
      && (f.prepare.Returned? && Passed(cfg, w0, m.r) && h !in w0.busy ==> w' == w0.(acks := w0.acks + {m.r}))
  {
    AnswerIff(cfg, w, h, m, f, env);
  }

  // The reasons of the transport are not the handler's.
  lemma HandlerReasons(cfg: Config, w: World, h: Sid, msg: Option<Message>, f: Fates, env: Env)
    ensures Handle(cfg, w, h, msg, f, env).1.response !in {ErrorFrame(InvalidJson), ErrorFrame(CidMismatch)}
  {
    if msg.Some? {
      AnswerIff(cfg, w, h, msg.value, f, env);
    }
  }
}
