/** The texts of a client, and what a session makes of them one after the other. */
module Conversation {
  import opened Options
  import opened Settings
  import opened Protocol
  import opened Orchestrator

  // A received text: undecodable, or a JSON value with its conversation id, if that is a
  // string, and with the message the schema validation makes of it, if it accepts it.
  datatype Text = Undecodable | Json(bodyCid: Option<string>, msg: Option<Message>)

  // The schema requires the conversation id to be a string, and keeps it.
  predicate Validated(t: Text) {
    t.Json? && t.msg.Some? ==> t.bodyCid == Some(t.msg.value.r.cid)
  }

  type Inbound = t: Text | Validated(t) witness Undecodable

  // The text is for another conversation.
  predicate Foreign(t: Inbound, cid: Cid) {
    t.Json? && t.bodyCid.Some? && t.bodyCid.value != cid
  }

  // The session's answer to one text, and the state after it.
  function ReplyTo(cfg: Config, w: World, h: Sid, cid: Cid, t: Inbound, f: Fates, env: Env): (World, Frame) {
    if t.Undecodable? then (w, ErrorFrame(InvalidJson))
    else if Foreign(t, cid) then (w, ErrorFrame(CidMismatch))
    else
      var (w', res) := Handle(cfg, w, h, t.msg, f, env);
      (w', res.response)
  }

  // The texts from the n-th on, until one of them ends the session.
  function RepliesTo(cfg: Config, w: World, h: Sid, cid: Cid, inbox: seq<Inbound>, fates: nat -> Fates,
                   env: nat -> Env, n: nat): (World, seq<Frame>)
    decreases |inbox| - n
  {
    if n >= |inbox| then (w, [])
    else
      var (w1, frame) := ReplyTo(cfg, w, h, cid, inbox[n], fates(n), env(n));
      if !frame.TranscriptAck? then (w1, [frame])
      else
        var (w2, frames) := RepliesTo(cfg, w1, h, cid, inbox, fates, env, n + 1);
        (w2, [frame] + frames)
  }

  // Frames that were sent before the others.
  function After(sent: seq<Frame>, rest: (World, seq<Frame>)): (r: (World, seq<Frame>))
    ensures sent == [] ==> r == rest
  {
    assert [] + rest.1 == rest.1 && rest == (rest.0, rest.1);
    (rest.0, sent + rest.1)
  }

  lemma AfterOneMore(sent: seq<Frame>, frame: Frame, rest: (World, seq<Frame>))
    ensures After(sent, (rest.0, [frame] + rest.1)) == After(sent + [frame], rest)
  {
    assert sent + ([frame] + rest.1) == (sent + [frame]) + rest.1;
  }

  lemma RepliesGoOn(cfg: Config, w: World, h: Sid, cid: Cid, inbox: seq<Inbound>, fates: nat -> Fates,
                    env: nat -> Env, n: nat)
    requires n < |inbox|
    ensures var (w1, frame) := ReplyTo(cfg, w, h, cid, inbox[n], fates(n), env(n));
      var rest := RepliesTo(cfg, w1, h, cid, inbox, fates, env, n + 1);
      RepliesTo(cfg, w, h, cid, inbox, fates, env, n)
      == if frame.TranscriptAck? then (rest.0, [frame] + rest.1) else (w1, [frame])
  {}

  // The replies of the whole session: those sent so far, and those to come unless it is closed.
  predicate OnTheWay(all: (World, seq<Frame>), cfg: Config, w: World, h: Sid, cid: Cid, inbox: seq<Inbound>,
                     fates: nat -> Fates, env: nat -> Env, sent: seq<Frame>, closed: bool)
  {
    all == if closed then (w, sent) else After(sent, RepliesTo(cfg, w, h, cid, inbox, fates, env, |sent|))
  }

  lemma OneMoreReply(all: (World, seq<Frame>), cfg: Config, w: World, h: Sid, cid: Cid, inbox: seq<Inbound>,
                     fates: nat -> Fates, env: nat -> Env, sent: seq<Frame>, w1: World, frame: Frame)
    requires |sent| < |inbox| && OnTheWay(all, cfg, w, h, cid, inbox, fates, env, sent, false)
    requires (w1, frame) == ReplyTo(cfg, w, h, cid, inbox[|sent|], fates(|sent|), env(|sent|))
    ensures OnTheWay(all, cfg, w1, h, cid, inbox, fates, env, sent + [frame], !frame.TranscriptAck?)
  {
    RepliesGoOn(cfg, w, h, cid, inbox, fates, env, |sent|);
    AfterOneMore(sent, frame, RepliesTo(cfg, w1, h, cid, inbox, fates, env, |sent| + 1));
  }

  lemma AllReplied(all: (World, seq<Frame>), cfg: Config, w: World, h: Sid, cid: Cid, inbox: seq<Inbound>,
                   fates: nat -> Fates, env: nat -> Env, sent: seq<Frame>, closed: bool)
    requires OnTheWay(all, cfg, w, h, cid, inbox, fates, env, sent, closed)
    requires closed || |sent| == |inbox|
    ensures all == (w, sent)
  {
    assert sent + [] == sent;
  }
}
