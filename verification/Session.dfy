/**
 A WebSocket session: the message loop, the lifecycle around it, and the background task that
 refreshes the lease.
 */
module Session {
  import opened Options
  import opened Settings
  import opened Protocol
  import opened Durability
  import opened Orchestrator
  import Handling
  import opened Conversation
  import Delivery
  import opened Refresh
  import opened Lease
  import opened Registry
  import opened Admission

  // The frame answers the text: an ACK echoes the text's record and has its event's type.
  predicate Answers(f: Frame, t: Inbound, cid: Cid) {
    IsAck(f) ==> t.Json? && t.msg.Some? && t.msg.value.r.cid == cid && f == SuccessAck(t.msg.value)
  }

  // TRANSCRIPT_ACK* with at most one ERROR or EOL_ACK, at the end, and only with a close.
  predicate FrameLanguage(frames: seq<Frame>, closed: bool) {
    && (forall i | 0 <= i < |frames| - 1 :: frames[i].TranscriptAck?)
    && (closed <==> frames != [] && !frames[|frames| - 1].TranscriptAck?)
  }

  // ----- the trace of a session -----

  /** From its claim on, a session handles messages while it holds, and releases at rest. */
  lemma OrderlySession(cfg: Config, w: World, loop: seq<Action>, h: Sid, cid: Cid)
    requires ConcernedFrom(loop, 0, h, cid) && Holds(w, h, cid) && h !in Run(cfg, w, loop).busy
    ensures OrderlyTrace(cfg, w, loop, h) && OrderlyTrace(cfg, w, loop + [Release(h, cid)], h)
    ensures Holds(Run(cfg, w, loop), h, cid)
  {
    var w', last := Run(cfg, w, loop), [Release(h, cid)];
    ConcernedIsOrderly(cfg, w, loop, h, cid);
    assert OrderlyTrace(cfg, Step(cfg, w', last[0]), last[1..], h);
    OrderlyConcat(cfg, w, loop, last, h);
  }

  // What a session leaves in the trace: it handles its own conversation's messages, and gives
  // up the lease at the very end or not at all.
  ghost predicate Lifecycle(t0: seq<Action>, t: seq<Action>, h: Sid, cid: Cid, released: bool) {
    if released then
      t0 < t && t[|t| - 1] == Release(h, cid) && ConcernedFrom(t[..|t| - 1], |t0|, h, cid)
    else
      t0 <= t && ConcernedFrom(t, |t0|, h, cid)
  }

  lemma LifecycleIsConfined(
    cfg: Config, w: World, t0: seq<Action>, t: seq<Action>, h: Sid, cid: Cid, released: bool)
    requires Lifecycle(t0, t, h, cid, released) && h !in Run(cfg, w, t0).busy
    ensures Confined(cfg, Run(cfg, w, t0), t[|t0|..], h, cid)
  {
    if released {
      var front, w0 := t[..|t| - 1], Run(cfg, w, t0);
      SegmentIsConfined(cfg, w, t0, front, h, cid);
      var last := [Release(h, cid)];
      assert Confined(cfg, Step(cfg, Run(cfg, w0, front[|t0|..]), last[0]), last[1..], h, cid);
      ConfinedConcat(cfg, w0, front[|t0|..], last, h, cid);
      assert t[|t0|..] == front[|t0|..] + last;
    } else {
      SegmentIsConfined(cfg, w, t0, t, h, cid);
    }
  }

  // A stretch of the trace in which the session keeps its order and its conversation.
  ghost predicate SessionOutcome(
    cfg: Config, w0: World, t0: seq<Action>, t: seq<Action>, h: Sid, cid: Cid, released: bool)
  {
    && Lifecycle(t0, t, h, cid, released)
    && OrderlyTrace(cfg, w0, t[|t0|..], h) && Confined(cfg, w0, t[|t0|..], h, cid)
  }

  // Every frame answers the text in its place, and every ACK names a message of the log.
  ghost predicate AllAnswered(frames: seq<Frame>, inbox: seq<Inbound>, cid: Cid, topic: seq<Record>) {
    && |frames| <= |inbox|
    && (forall i | 0 <= i < |frames| ::
          Answers(frames[i], inbox[i], cid) && (IsAck(frames[i]) ==> frames[i].r in topic))
  }

  lemma OneMoreAnswered(frames: seq<Frame>, frames': seq<Frame>, inbox: seq<Inbound>, cid: Cid,
                        topic: seq<Record>, topic': seq<Record>)
    requires AllAnswered(frames, inbox, cid, topic) && topic <= topic'
    requires |frames'| == |frames| + 1 <= |inbox| && frames' == frames + [frames'[|frames|]]
    requires var f := frames'[|frames|];
      Answers(f, inbox[|frames|], cid) && (IsAck(f) ==> f.r in topic')
    ensures AllAnswered(frames', inbox, cid, topic')
  {
    forall i | 0 <= i < |frames'|
      ensures Answers(frames'[i], inbox[i], cid) && (IsAck(frames'[i]) ==> frames'[i].r in topic')
    {
      if i < |frames| {
        assert frames'[i] == frames[i];
      }
    }
  }

  // After a claim that did not tell the session it owns: the key names it all the same exactly
  // when the script ran and granted, and the reply was lost.
  ghost predicate LeftByClaim(cfg: Config, w0: World, w: World, h: Sid, id: LeaseId, fate: CallFate,
                              others: seq<Action>)
  {
    Tracked(cfg, w0, h) ==>
      (Carries(cfg, w, h, id) <==>
       fate.Raised? && fate.applied && ClaimReply(cfg, Interfere(cfg, w0, h, others), h, id))
  }

  // The claim call returns, and the key is free or already the session's when the script runs.
  predicate Grantable(cfg: Config, w: World, h: Sid, id: LeaseId, fate: CallFate, others: seq<Action>) {
    fate.Returned? && !TakenByOther(cfg, Interfere(cfg, w, h, others), h, id)
  }

  function ClaimError(fate: CallFate): Frame {
    ErrorFrame(if fate.Raised? then DownstreamUnavailable else SenderConflict)
  }

  // The socket was in the registry from one moment of the trace to another.
  ghost predicate Visited(log0: seq<Visit>, log: seq<Visit>, cid: string, ws: Socket, from: int, to: int) {
    0 <= from <= to && log == log0 + [Entered(cid, ws, from), Left(cid, ws, to)]
  }

  // What an endpoint that does not own yet adds to the trace to own.
  function AcquireTrace(acquired: bool, h: Sid, id: LeaseId, fate: CallFate, others: seq<Action>): seq<Action> {
    if acquired then [] else ClaimTrace(h, id, fate, others)
  }

  // A session that was served from the given state and moment on: its replies, and its time in
  // the registry, which ends with the trace or right before the release.
  ghost predicate Served(
    cfg: Config, w: World, from: int, h: Sid, cid: Cid, ws: Socket, inbox: seq<Inbound>, fates: nat -> Fates,
    env: nat -> Env, released: bool, frames: seq<Frame>, log0: seq<Visit>, log: seq<Visit>, end: int)
  {
    && frames == RepliesTo(cfg, w, h, cid, inbox, fates, env, 0).1
    && Visited(log0, log, cid, ws, from, if released then end - 1 else end)
  }

  class WsSession {
    const cluster: Cluster
    const orchestrator: TwoPhaseOrchestrator
    const guard: WsGuard
    const h: Sid          // the ownership token
    const cid: Cid        // the conversation of the handshake
    const ws: Socket
    var frames: seq<Frame>
    var closed: bool

    ghost predicate Valid()
      reads this, cluster
    {
      orchestrator.cluster == cluster && guard.cluster == cluster && cluster.Valid() && FrameLanguage(frames, closed)
    }

    constructor (guard: WsGuard, orchestrator: TwoPhaseOrchestrator, h: Sid, cid: Cid, ws: Socket)
      requires orchestrator.cluster == guard.cluster && guard.cluster.Valid()
      ensures Valid() && this.cluster == guard.cluster && this.guard == guard
      ensures this.h == h && this.cid == cid && this.ws == ws && frames == [] && !closed
    {
      this.cluster, this.orchestrator, this.guard := guard.cluster, orchestrator, guard;
      this.h, this.cid, this.ws, frames, closed := h, cid, ws, [], false;
    }

    method Send(f: Frame, close: bool)
      requires Valid() && !closed && close == !f.TranscriptAck?
      modifies this`frames, this`closed
      ensures Valid() && frames == old(frames) + [f] && closed == close
    {
      frames := frames + [f];
      closed := close;
    }

    /**
     One received text: exactly one frame. A text that is no JSON and a text for another
     conversation are rejected and change nothing; every other text is handled, and answered
     what the orchestrator answers.
     */
    method Respond(t: Inbound, f: Fates, env: Env)
      requires Valid() && !closed && h !in cluster.w.busy && Backed(cluster.cfg, cluster.w)
      modifies this`frames, this`closed, cluster`w, cluster`trace
      ensures Valid() && h !in cluster.w.busy && Backed(cluster.cfg, cluster.w)
      ensures old(cluster.trace) <= cluster.trace
      ensures ConcernedFrom(cluster.trace, |old(cluster.trace)|, h, cid)
      ensures old(cluster.w.topic) <= cluster.w.topic
      ensures |frames| == |old(frames)| + 1 && frames == old(frames) + [frames[|old(frames)|]]
      ensures var frame := frames[|old(frames)|];
        Answers(frame, t, cid) && (IsAck(frame) ==> frame.r in cluster.w.topic)
      ensures var frame := frames[|old(frames)|];
        && (frame == ErrorFrame(InvalidJson) <==> t.Undecodable?)
        && (frame == ErrorFrame(CidMismatch) <==> t.Json? && t.bodyCid.Some? && t.bodyCid.value != cid)
        && if t.Undecodable? || Foreign(t, cid) then cluster.w == old(cluster.w) && cluster.trace == old(cluster.trace)
           else
             var (w', res) := Handle(cluster.cfg, old(cluster.w), h, t.msg, f, env);
             cluster.w == w' && frame == res.response
      ensures (cluster.w, frames[|old(frames)|]) == ReplyTo(cluster.cfg, old(cluster.w), h, cid, t, f, env)
    {
      if t.Undecodable? {
        Send(ErrorFrame(InvalidJson), true);
        return;
      }
      if t.bodyCid.Some? && t.bodyCid.value != cid {
        Send(ErrorFrame(CidMismatch), true);
        return;
      }
      Handling.HandlerReasons(cluster.cfg, cluster.w, h, t.msg, f, env);
      if t.msg.Some? {
        Handling.HandleSettles(cluster.cfg, cluster.w, h, t.msg.value, f, env);
      }
      var result := orchestrator.HandleMessage(h, t.msg, f, env);
      Send(result.response, result.disconnect);
    }

    /**
     The message loop over everything the client sends until it disconnects: one frame per
     text, in order, in the frame language, every ACK echoing its own request and naming a
     message of the log. Of all the session's own prepares, sends, commits and cleanups, in
     the states in which they happen, none concerns another conversation. If the client sends
     its numbers from the expected one on and nothing goes wrong, every one of them is
     acknowledged and logged, and the session stays open until a message completes it.
     */
    method RunMessageLoop(inbox: seq<Inbound>, fates: nat -> Fates, env: nat -> Env)
      requires Valid() && frames == [] && !closed
      requires h !in cluster.w.busy && Backed(cluster.cfg, cluster.w)
      modifies this`frames, this`closed, cluster`w, cluster`trace
      ensures Valid() && h !in cluster.w.busy && Backed(cluster.cfg, cluster.w)
      ensures old(cluster.trace) <= cluster.trace
      ensures ConcernedFrom(cluster.trace, |old(cluster.trace)|, h, cid)
      ensures Confined(cluster.cfg, old(cluster.w), cluster.trace[|old(cluster.trace)|..], h, cid)
      ensures AllAnswered(frames, inbox, cid, cluster.w.topic) && (!closed ==> |frames| == |inbox|)
      ensures (cluster.w, frames) == RepliesTo(cluster.cfg, old(cluster.w), h, cid, inbox, fates, env, 0)
      ensures forall next: nat |
        cluster.cfg.Apart() && Delivery.Smooth(cluster.cfg, old(cluster.w), h, cid, inbox, fates, env, 0, next) ::
        && |frames| == |inbox| && (closed <==> Delivery.EndsComplete(inbox))
        && Delivery.Delivered(old(cluster.w), cluster.w, frames, cid, next, Delivery.EndsComplete(inbox))
    {
      ghost var cfg, w0, t0 := cluster.cfg, cluster.w, cluster.trace;
      AnswerAll(inbox, fates, env);
      SegmentIsConfined(cfg, cluster.w0, t0, cluster.trace, h, cid);
      forall next: nat | cfg.Apart() && Delivery.Smooth(cfg, w0, h, cid, inbox, fates, env, 0, next)
        ensures Delivery.DeliveredFrom(cfg, w0, h, cid, inbox, fates, env, 0, next)
      {
        Delivery.StreamIsDelivered(cfg, w0, h, cid, inbox, fates, env, 0, next);
      }
    }

    // The loop itself.
    method AnswerAll(inbox: seq<Inbound>, fates: nat -> Fates, env: nat -> Env)
      requires Valid() && frames == [] && !closed
      requires h !in cluster.w.busy && Backed(cluster.cfg, cluster.w)
      modifies this`frames, this`closed, cluster`w, cluster`trace
      ensures Valid() && h !in cluster.w.busy && Backed(cluster.cfg, cluster.w)
      ensures old(cluster.trace) <= cluster.trace
      ensures ConcernedFrom(cluster.trace, |old(cluster.trace)|, h, cid)
      ensures AllAnswered(frames, inbox, cid, cluster.w.topic) && (!closed ==> |frames| == |inbox|)
      ensures (cluster.w, frames) == RepliesTo(cluster.cfg, old(cluster.w), h, cid, inbox, fates, env, 0)
    {
      ghost var w0, t0 := cluster.w, cluster.trace;
      ghost var all := RepliesTo(cluster.cfg, w0, h, cid, inbox, fates, env, 0);
      while |frames| < |inbox|
        invariant Valid() && !closed && h !in cluster.w.busy && Backed(cluster.cfg, cluster.w)
        invariant t0 <= cluster.trace && ConcernedFrom(cluster.trace, |t0|, h, cid)
        invariant AllAnswered(frames, inbox, cid, cluster.w.topic)
        invariant OnTheWay(all, cluster.cfg, cluster.w, h, cid, inbox, fates, env, frames, false)
        decreases |inbox| - |frames|
      {
        ghost var mark := cluster.trace;
        AnswerNext(inbox, fates, env, all);
        assert forall i | 0 <= i < |mark| :: cluster.trace[i] == mark[i];
        if closed {
          break;
        }
      }
      AllReplied(all, cluster.cfg, cluster.w, h, cid, inbox, fates, env, frames, closed);
    }

    // One round of it.
    method AnswerNext(inbox: seq<Inbound>, fates: nat -> Fates, env: nat -> Env, ghost all: (World, seq<Frame>))
      requires Valid() && !closed && h !in cluster.w.busy && Backed(cluster.cfg, cluster.w)
      requires |frames| < |inbox| && AllAnswered(frames, inbox, cid, cluster.w.topic)
      requires OnTheWay(all, cluster.cfg, cluster.w, h, cid, inbox, fates, env, frames, false)
      modifies this`frames, this`closed, cluster`w, cluster`trace
      ensures Valid() && h !in cluster.w.busy && Backed(cluster.cfg, cluster.w)
      ensures old(cluster.trace) <= cluster.trace
      ensures ConcernedFrom(cluster.trace, |old(cluster.trace)|, h, cid)
      ensures |frames| == |old(frames)| + 1 && AllAnswered(frames, inbox, cid, cluster.w.topic)
      ensures OnTheWay(all, cluster.cfg, cluster.w, h, cid, inbox, fates, env, frames, closed)
    {
      ghost var before, w := frames, cluster.w;
      var n := |frames|;
      Respond(inbox[n], fates(n), env(n));
      OneMoreAnswered(before, frames, inbox, cid, w.topic, cluster.w.topic);
      OneMoreReply(all, cluster.cfg, w, h, cid, inbox, fates, env, before, cluster.w, frames[n]);
    }

    // Claims ownership, if the handshake did not; on failure the session ends with an ERROR.
    method Acquire(acquired: bool, fate: CallFate, others: seq<Action>) returns (owned: bool)
      requires Valid() && frames == [] && !closed
      requires h !in cluster.w.busy && Backed(cluster.cfg, cluster.w)
      requires if acquired then Holds(cluster.w, h, cid) else h !in cluster.w.holds
      requires forall a | a in others :: Actor(a) != Some(h)
      modifies this`frames, this`closed, cluster`w, cluster`trace
      ensures Valid() && old(cluster.trace) <= cluster.trace
      ensures h !in cluster.w.busy && Backed(cluster.cfg, cluster.w) && (acquired ==> owned)
      ensures owned <==> acquired || Grantable(cluster.cfg, old(cluster.w), h, cid, fate, others)
      ensures owned ==> frames == [] && !closed && Holds(cluster.w, h, cid)
      ensures !owned ==> frames == [ClaimError(fate)] && closed && h !in cluster.w.holds
      ensures var claim := AcquireTrace(acquired, h, cid, fate, others);
        cluster.trace == old(cluster.trace) + claim && cluster.w == Run(cluster.cfg, old(cluster.w), claim)
      ensures !owned ==> LeftByClaim(cluster.cfg, old(cluster.w), cluster.w, h, cid, fate, others)
      ensures ConcernedFrom(cluster.trace, |old(cluster.trace)|, h, cid)
      ensures OrderlyTrace(cluster.cfg, old(cluster.w), cluster.trace[|old(cluster.trace)|..], h)
      ensures Run(cluster.cfg, old(cluster.w), cluster.trace[|old(cluster.trace)|..]) == cluster.w
    {
      if acquired {
        return true;
      }
      ghost var t0 := cluster.trace;
      ClaimIsConcerned(cluster.cfg, cluster.w, h, cid, fate, others, cid);
      var reply := ClaimOwnership(cluster, h, cid, fate, others);
      assert cluster.trace[|t0|..] == ClaimTrace(h, cid, fate, others);
      if reply.None? {
        Send(ErrorFrame(DownstreamUnavailable), true);
        return false;
      }
      if !reply.value {
        Send(ErrorFrame(SenderConflict), true);
        return false;
      }
      return true;
    }

    // Releases the lease; a failure of the call is only logged.
    method ReleaseOwnership(fate: CallFate)
      requires Valid() && h !in cluster.w.busy && Holds(cluster.w, h, cid)
      modifies cluster`w, cluster`trace
      ensures Valid() && cluster.trace == old(cluster.trace) + if Effective(fate) then [Release(h, cid)] else []
      ensures cluster.w.busy == old(cluster.w.busy) && cluster.w.topic == old(cluster.w.topic)
      ensures Effective(fate) ==> h !in cluster.w.holds && !Carries(cluster.cfg, cluster.w, h, cid)
    {
      if Effective(fate) {
        cluster.Do(Release(h, cid));
      }
    }

    // Registers, runs the loop, unregisters.
    method RunRegistered(inbox: seq<Inbound>, fates: nat -> Fates, env: nat -> Env)
      requires Valid() && frames == [] && !closed && guard.Valid() && 0 < guard.pending
      requires h !in cluster.w.busy && Backed(cluster.cfg, cluster.w)
      requires Unregistered(guard.registry.connections, cid, ws)
      modifies this`frames, this`closed, cluster`w, cluster`trace, guard`pending, guard`log, guard.registry
      ensures Valid() && old(cluster.trace) <= cluster.trace && h !in cluster.w.busy
      ensures ConcernedFrom(cluster.trace, |old(cluster.trace)|, h, cid)
      ensures guard.Valid() && guard.registry.connections == old(guard.registry.connections)
      ensures guard.pending == old(guard.pending) - 1
      ensures Visited(old(guard.log), guard.log, cid, ws, |old(cluster.trace)|, |cluster.trace|)
      ensures (cluster.w, frames) == RepliesTo(cluster.cfg, old(cluster.w), h, cid, inbox, fates, env, 0)
      ensures AllAnswered(frames, inbox, cid, cluster.w.topic) && (!closed ==> |frames| == |inbox|)
    {
      guard.Enter(cid, ws);
      RunMessageLoop(inbox, fates, env);
      RemoveUndoesAdd(old(guard.registry.connections), cid, ws);
      guard.Exit(cid, ws);
    }

    // Does that under the lease, and releases it at the end.
    method ServeOwned(inbox: seq<Inbound>, fates: nat -> Fates, env: nat -> Env, releaseFate: CallFate)
      requires Valid() && frames == [] && !closed && guard.Valid() && 0 < guard.pending
      requires h !in cluster.w.busy && Backed(cluster.cfg, cluster.w) && Holds(cluster.w, h, cid)
      requires Unregistered(guard.registry.connections, cid, ws)
      modifies this`frames, this`closed, cluster`w, cluster`trace, guard`pending, guard`log, guard.registry
      ensures Valid() && Lifecycle(old(cluster.trace), cluster.trace, h, cid, Effective(releaseFate))
      ensures guard.Valid() && guard.registry.connections == old(guard.registry.connections)
      ensures guard.pending == old(guard.pending) - 1
      ensures Served(cluster.cfg, old(cluster.w), |old(cluster.trace)|, h, cid, ws, inbox, fates, env,
                     Effective(releaseFate), frames, old(guard.log), guard.log, |cluster.trace|)
      ensures h !in cluster.w.busy
      ensures Effective(releaseFate) ==> h !in cluster.w.holds && !Carries(cluster.cfg, cluster.w, h, cid)
      ensures AllAnswered(frames, inbox, cid, cluster.w.topic) && (!closed ==> |frames| == |inbox|)
      ensures OrderlyTrace(cluster.cfg, old(cluster.w), cluster.trace[|old(cluster.trace)|..], h)
    {
      ghost var t0 := cluster.trace;
      RunRegistered(inbox, fates, env);
      LoopIsOrderly(cluster.cfg, cluster.w0, t0, cluster.trace, h, cid);
      LoopLifecycle(t0, cluster.trace, h, cid);
      ReleaseOwnership(releaseFate);
    }

    /**
     The endpoint: claim if necessary, register, run the loop, unregister, release. A session
     that is served answers every text, prepares messages only while it holds the lease, acts
     on its own conversation only, and releases as the very last thing it does, unless that
     call fails. A session whose claim fails sends one ERROR. Either way the registry is left
     as it was and the session is no longer counted; the socket of a served session is in the
     registry from the end of the claim to the release.
     */
    method Serve(acquired: bool, claimFate: CallFate, claimOthers: seq<Action>, inbox: seq<Inbound>,
                 fates: nat -> Fates, env: nat -> Env, releaseFate: CallFate) returns (served: bool)
      requires Valid() && frames == [] && !closed && guard.Valid() && 0 < guard.pending
      requires h !in cluster.w.busy && Backed(cluster.cfg, cluster.w)
      requires if acquired then Holds(cluster.w, h, cid) else h !in cluster.w.holds
      requires Unregistered(guard.registry.connections, cid, ws)
      requires forall a | a in claimOthers :: Actor(a) != Some(h)
      modifies this`frames, this`closed, cluster`w, cluster`trace, guard`pending, guard`log, guard.registry
      ensures Valid()
      ensures SessionOutcome(cluster.cfg, old(cluster.w), old(cluster.trace), cluster.trace, h, cid,
                             served && Effective(releaseFate))
      ensures guard.Valid() && guard.registry.connections == old(guard.registry.connections)
      ensures guard.pending == old(guard.pending) - 1 && (acquired ==> served)
      ensures h !in cluster.w.busy && (!served || Effective(releaseFate) ==> h !in cluster.w.holds)
      ensures served && Effective(releaseFate) ==> !Carries(cluster.cfg, cluster.w, h, cid)
      ensures !served ==> LeftByClaim(cluster.cfg, old(cluster.w), cluster.w, h, cid, claimFate, claimOthers)
      ensures served ==> AllAnswered(frames, inbox, cid, cluster.w.topic) && (!closed ==> |frames| == |inbox|)
      ensures served <==> acquired || Grantable(cluster.cfg, old(cluster.w), h, cid, claimFate, claimOthers)
      ensures !served ==> frames == [ClaimError(claimFate)] && closed && guard.log == old(guard.log)
      ensures served ==>
        var claim := AcquireTrace(acquired, h, cid, claimFate, claimOthers);
        Served(cluster.cfg, Run(cluster.cfg, old(cluster.w), claim), |old(cluster.trace) + claim|, h, cid, ws,
               inbox, fates, env, Effective(releaseFate), frames, old(guard.log), guard.log, |cluster.trace|)
    {
      ghost var w0, t0 := cluster.w, cluster.trace;
      served := Acquire(acquired, claimFate, claimOthers);
      if !served {
        guard.GiveUp();
        LifecycleIsConfined(cluster.cfg, cluster.w0, t0, cluster.trace, h, cid, false);
        return;
      }
      ghost var t1 := cluster.trace;
      SegmentRuns(cluster.cfg, cluster.w0, t0, t1);
      ghost var claim := AcquireTrace(acquired, h, cid, claimFate, claimOthers);
      assert t1 == t0 + claim && cluster.w == Run(cluster.cfg, w0, claim);
      ServeOwned(inbox, fates, env, releaseFate);
      Together(cluster.cfg, cluster.w0, t0, t1, cluster.trace, h, cid, Effective(releaseFate));
    }
  }

  // What a session did before and while it served makes up its life.
  lemma Together(cfg: Config, w: World, t0: seq<Action>, t1: seq<Action>, t: seq<Action>, h: Sid, cid: Cid,
                 released: bool)
    requires t0 <= t1 && ConcernedFrom(t1, |t0|, h, cid) && Lifecycle(t1, t, h, cid, released)
    requires OrderlyTrace(cfg, Run(cfg, w, t0), t1[|t0|..], h) && OrderlyTrace(cfg, Run(cfg, w, t1), t[|t1|..], h)
    requires h !in Run(cfg, w, t0).busy
    ensures SessionOutcome(cfg, Run(cfg, w, t0), t0, t, h, cid, released)
  {
    SegmentRuns(cfg, w, t0, t1);
    OrderlySegments(cfg, Run(cfg, w, t0), t0, t1, t, h);
    LifecycleGrows(t0, t1, t, h, cid, released);
    LifecycleIsConfined(cfg, w, t0, t, h, cid, released);
  }

  predicate Unregistered(m: Table, cid: string, ws: Socket) {
    cid in m ==> m[cid] != [] && ws !in m[cid]
  }

  lemma LifecycleGrows(
    t0: seq<Action>, t1: seq<Action>, t: seq<Action>, h: Sid, cid: Cid, released: bool)
    requires t0 <= t1 && ConcernedFrom(t1, |t0|, h, cid) && Lifecycle(t1, t, h, cid, released)
    ensures Lifecycle(t0, t, h, cid, released)
  {
    assert forall i | 0 <= i < |t1| :: t[i] == t1[i];
  }

  // A session that has not released: its key is the session's while the last grant lasts.
  lemma UnreleasedLease(cfg: Config, w: World, t0: seq<Action>, t: seq<Action>, h: Sid, cid: Cid)
    requires Lifecycle(t0, t, h, cid, false) && Tracked(cfg, Run(cfg, w, t0), h)
    ensures var w0, w' := Run(cfg, w, t0), Run(cfg, w, t);
      Carries(cfg, w', h, cid) <==> Lasts(cfg, w'.now, LastGrant(cfg, w0, t[|t0|..], h, cid, None))
  {
    var acts := t[|t0|..];
    forall a | a in acts ensures a.Release? ==> a.h != h {
      var i :| 0 <= i < |acts| && acts[i] == a;
      assert Concerned(t[|t0| + i], h, cid);
    }
    SegmentRuns(cfg, w, t0, t);
    CarriesIffGranted(cfg, Run(cfg, w, t0), acts, h, cid);
  }

  // Serves a connection the handshake has admitted.
  method ServeAdmitted(
    guard: WsGuard, orchestrator: TwoPhaseOrchestrator, h: Sid, cid: Cid, ws: Socket,
    inbox: seq<Inbound>, fates: nat -> Fates, env: nat -> Env, releaseFate: CallFate)
    returns (frames: seq<Frame>)
    requires guard.Valid() && guard.cluster.Valid() && orchestrator.cluster == guard.cluster && 0 < guard.pending
    requires Backed(guard.cluster.cfg, guard.cluster.w) && h !in guard.cluster.w.busy
    requires Holds(guard.cluster.w, h, cid) && Unregistered(guard.registry.connections, cid, ws)
    modifies guard`pending, guard`log, guard.registry, guard.cluster`w, guard.cluster`trace
    ensures guard.Valid() && guard.pending == old(guard.pending) - 1
    ensures guard.registry.connections == old(guard.registry.connections)
    ensures guard.cluster.Valid() && h !in guard.cluster.w.busy
    ensures Served(
      guard.cluster.cfg, old(guard.cluster.w), |old(guard.cluster.trace)|, h, cid, ws, inbox, fates, env,
      Effective(releaseFate), frames, old(guard.log), guard.log, |guard.cluster.trace|)
    ensures Lifecycle(old(guard.cluster.trace), guard.cluster.trace, h, cid, Effective(releaseFate))
    ensures AllAnswered(frames, inbox, cid, guard.cluster.w.topic)
    ensures Effective(releaseFate) ==>
      h !in guard.cluster.w.holds && !Carries(guard.cluster.cfg, guard.cluster.w, h, cid)
    ensures OrderlyTrace(
      guard.cluster.cfg, old(guard.cluster.w), guard.cluster.trace[|old(guard.cluster.trace)|..], h)
  {
    var session := new WsSession(guard, orchestrator, h, cid, ws);
    var _ := session.Serve(true, Returned, [], inbox, fates, env, releaseFate);
    frames := session.frames;
  }

  // Where the lease key still names a session whose connection is over: its claim script ran
  // and granted, and nobody was told, or the id is too long, or the release did not happen and
  // the last grant has not run out.
  predicate LeftBehind(
    v: Verdict, cid: string, granted: bool, claimFate: CallFate, releaseFate: CallFate, lasts: bool)
  {
    && v in {Admitted, StoreUnavailable, SenderActive} && Effective(claimFate) && granted
    && (claimFate.Raised? || |cid| > MAX_ID_LEN || (!Effective(releaseFate) && lasts))
  }

  // A connection is over, and what the lease key says is LeftBehind.
  ghost predicate LeaseOutcome(
    cfg: Config, w0: World, w: World, added: seq<Action>, h: Sid, id: LeaseId, v: Verdict,
    claimFate: CallFate, claimOthers: seq<Action>, releaseFate: CallFate)
  {
    var granted := ClaimReply(cfg, Interfere(cfg, w0, h, claimOthers), h, id);
    var lasts := Lasts(cfg, w.now, LastGrant(cfg, w0, added, h, id, None));
    Tracked(cfg, w0, h) ==> (Carries(cfg, w, h, id) <==> LeftBehind(v, id, granted, claimFate, releaseFate, lasts))
  }

  lemma SessionEnds(cfg: Config, w: World, t0: seq<Action>, t: seq<Action>, h: Sid, cid: Cid,
                    fate: CallFate, others: seq<Action>, releaseFate: CallFate)
    requires var t1 := t0 + ClaimTrace(h, cid, fate, others);
      && Lifecycle(t1, t, h, cid, Effective(releaseFate)) && OrderlyTrace(cfg, Run(cfg, w, t1), t[|t1|..], h)
    requires var w0 := Run(cfg, w, t0);
      && h !in w0.busy && Backed(cfg, w0) && OrderlyTrace(cfg, w0, ClaimTrace(h, cid, fate, others), h)
      && fate.Returned? && ClaimReply(cfg, Interfere(cfg, w0, h, others), h, cid)
    requires Effective(releaseFate) ==> !Carries(cfg, Run(cfg, w, t), h, cid)
    ensures SessionOutcome(cfg, Run(cfg, w, t0), t0, t, h, cid, Effective(releaseFate))
    ensures LeaseOutcome(
      cfg, Run(cfg, w, t0), Run(cfg, w, t), t[|t0|..], h, cid, Admitted, fate, others, releaseFate)
  {
    AdmittedSession(cfg, w, t0, h, cid, fate, others);
    Together(cfg, w, t0, t0 + ClaimTrace(h, cid, fate, others), t, h, cid, Effective(releaseFate));
    if !Effective(releaseFate) && Tracked(cfg, Run(cfg, w, t0), h) {
      UnreleasedLease(cfg, w, t0, t, h, cid);
    }
  }

  /**
   A connection from its handshake to its end: what Admit grants is what Serve needs. Its lease
   is given back, except in exactly three cases: the claim took effect and its reply was lost;
   the id is over the length limit, which passes the handshake, lease claim included, and fails
   the endpoint's validation; the release call had no effect. The key then expires by itself.
   */
  method Connect(
    guard: WsGuard, orchestrator: TwoPhaseOrchestrator, h: Sid, cid: string, ws: Socket,
    authenticated: bool, draining: bool, claimFate: CallFate, claimOthers: seq<Action>,
    inbox: seq<Inbound>, fates: nat -> Fates, env: nat -> Env, releaseFate: CallFate)
    returns (v: Verdict, frames: seq<Frame>)
    requires guard.Valid() && guard.cluster.Valid() && orchestrator.cluster == guard.cluster
    requires Backed(guard.cluster.cfg, guard.cluster.w) && h !in guard.cluster.w.busy && h !in guard.cluster.w.holds
    requires Unregistered(guard.registry.connections, cid, ws)
    requires forall a | a in claimOthers :: Actor(a) != Some(h)
    modifies guard`pending, guard`peak, guard`log, guard.registry, guard.cluster`w, guard.cluster`trace
    ensures guard.Valid() && guard.pending == old(guard.pending)
    ensures guard.registry.connections == old(guard.registry.connections)
    ensures guard.cluster.Valid() && old(guard.cluster.trace) <= guard.cluster.trace && h !in guard.cluster.w.busy
    ensures if cid != "" && authenticated && !draining && !old(guard.LimitReached())
      then v == ClaimVerdict(
             claimFate,
             ClaimReply(guard.cluster.cfg, Interfere(guard.cluster.cfg, old(guard.cluster.w), h, claimOthers), h, cid))
      else v in {MissingConversationId, AuthenticationFailed, Draining, LimitExceeded}
    ensures if v.Admitted? && |cid| <= MAX_ID_LEN
      then
        var claim := ClaimTrace(h, cid, claimFate, claimOthers);
        Served(guard.cluster.cfg, Run(guard.cluster.cfg, old(guard.cluster.w), claim),
               |old(guard.cluster.trace) + claim|, h, cid, ws, inbox, fates, env, Effective(releaseFate), frames,
               old(guard.log), guard.log, |guard.cluster.trace|)
      else guard.log == old(guard.log)
    ensures !v.Admitted? ==> frames == [] && h !in guard.cluster.w.holds
    ensures v.Admitted? && |cid| > MAX_ID_LEN ==> frames == [] && Holds(guard.cluster.w, h, cid)
    ensures v.Admitted? && |cid| <= MAX_ID_LEN ==>
      && AllAnswered(frames, inbox, cid, guard.cluster.w.topic)
      && (Effective(releaseFate) ==> h !in guard.cluster.w.holds)
      && SessionOutcome(guard.cluster.cfg, old(guard.cluster.w), old(guard.cluster.trace), guard.cluster.trace,
                        h, cid, Effective(releaseFate))
    ensures cid != "" ==>
      LeaseOutcome(guard.cluster.cfg, old(guard.cluster.w), guard.cluster.w,
                   guard.cluster.trace[|old(guard.cluster.trace)|..], h, cid, v, claimFate, claimOthers, releaseFate)
  {
    v := Handshake(guard, h, cid, authenticated, draining, claimFate, claimOthers, releaseFate);
    frames := [];
    if v.Admitted? && |cid| <= MAX_ID_LEN {
      ghost var t0, w := old(guard.cluster.trace), guard.cluster.w0;
      AdmittedSession(guard.cluster.cfg, w, t0, h, cid, claimFate, claimOthers);
      frames := ServeAdmitted(guard, orchestrator, h, cid, ws, inbox, fates, env, releaseFate);
      SessionEnds(guard.cluster.cfg, w, t0, guard.cluster.trace, h, cid, claimFate, claimOthers, releaseFate);
    }
  }

  // The part of a connection before its session, which is all of it unless a session follows.
  method Handshake(
    guard: WsGuard, h: Sid, cid: string, authenticated: bool, draining: bool, claimFate: CallFate,
    claimOthers: seq<Action>, ghost releaseFate: CallFate)
    returns (v: Verdict)
    requires guard.Valid() && guard.cluster.Valid() && h !in guard.cluster.w.holds
    requires forall a | a in claimOthers :: Actor(a) != Some(h)
    modifies guard`pending, guard`peak, guard.cluster`w, guard.cluster`trace
    ensures guard.Valid() && guard.cluster.Valid() && old(guard.cluster.trace) <= guard.cluster.trace
    ensures if cid != "" && authenticated && !draining && !old(guard.LimitReached())
      then v == ClaimVerdict(
             claimFate,
             ClaimReply(guard.cluster.cfg, Interfere(guard.cluster.cfg, old(guard.cluster.w), h, claimOthers), h, cid))
      else v in {MissingConversationId, AuthenticationFailed, Draining, LimitExceeded}
    ensures h in guard.cluster.w.busy <==> h in old(guard.cluster.w.busy)
    ensures guard.pending == old(guard.pending) + if v.Admitted? && |cid| <= MAX_ID_LEN then 1 else 0
    ensures if v.Admitted? then cid != "" && Holds(guard.cluster.w, h, cid) else h !in guard.cluster.w.holds
    ensures v.Admitted? ==>
      Claimed(guard.cluster.cfg, old(guard.cluster.w), guard.cluster.w, old(guard.cluster.trace), guard.cluster.trace,
              h, cid, claimFate, claimOthers)
    ensures cid != "" && !(v.Admitted? && |cid| <= MAX_ID_LEN) ==>
      LeaseOutcome(guard.cluster.cfg, old(guard.cluster.w), guard.cluster.w,
                   guard.cluster.trace[|old(guard.cluster.trace)|..], h, cid, v, claimFate, claimOthers, releaseFate)
  {
    ghost var w0, t0 := guard.cluster.w, guard.cluster.trace;
    v := guard.Admit(h, cid, authenticated, draining, claimFate, claimOthers);
    if v.Admitted? && |cid| > MAX_ID_LEN {
      guard.GiveUp();
    }
    if cid != "" {
      NoSession(guard.cluster.cfg, w0, guard.cluster.w, t0, guard.cluster.trace, h, cid, v,
                claimFate, claimOthers, releaseFate);
    }
  }

  lemma NoSession(cfg: Config, w0: World, w: World, t0: seq<Action>, t: seq<Action>, h: Sid, id: LeaseId, v: Verdict,
                  fate: CallFate, others: seq<Action>, releaseFate: CallFate)
    requires if v in {Admitted, StoreUnavailable, SenderActive} then
        && Claimed(cfg, w0, w, t0, t, h, id, fate, others)
        && v == ClaimVerdict(fate, ClaimReply(cfg, Interfere(cfg, w0, h, others), h, id))
      else w == w0 && t == t0
    ensures h in w.busy <==> h in w0.busy
    ensures !(v.Admitted? && |id| <= MAX_ID_LEN) ==>
      LeaseOutcome(cfg, w0, w, t[|t0|..], h, id, v, fate, others, releaseFate)
  {
    ClaimIsConcerned(cfg, w0, h, id, fate, others, "c");
  }

  // A service on empty stores receives one handshake without faults but those of its claim.
  method FirstHandshake(cfg: Config, init: World, h: Sid, cid: LeaseId, claimFate: CallFate)
    returns (v: Verdict, w: World)
    requires cfg.Accepted() && cfg.Apart() && Initial(init) && (claimFate == Raised(true) || |cid| > MAX_ID_LEN)
    ensures v == if claimFate.Raised? then StoreUnavailable else Admitted
    ensures Carries(cfg, w, h, cid) <==> Effective(claimFate)
    ensures claimFate.Raised? ==> h !in w.holds
  {
    var cluster := new Cluster(cfg, init);
    var registry := new ConnectionRegistry();
    var guard := new WsGuard(cluster, registry, 0);
    var orchestrator := new TwoPhaseOrchestrator(cluster);
    var fates := (n: nat) => Fates(Returned, Acked, Returned, Returned);
    var env := (n: nat) => (i: nat) => [];
    var frames;
    v, frames := Connect(guard, orchestrator, h, cid, 0, true, false, claimFate, [], [], fates, env, Returned);
    w := cluster.w;
  }

  /** A rejected handshake whose claim reply was lost keeps the conversation from everybody else. */
  method LostReplyLeavesLease(cfg: Config, init: World, h: Sid, cid: LeaseId) returns (v: Verdict, w: World)
    requires cfg.Accepted() && cfg.Apart() && Initial(init)
    ensures v == StoreUnavailable && h !in w.holds && Carries(cfg, w, h, cid)
    ensures forall g | g != h :: !ClaimReply(cfg, w, g, cid)
  {
    v, w := FirstHandshake(cfg, init, h, cid, Raised(true));
  }

  /** So does an admitted one whose id is over the limit. */
  method LongIdLeavesLease(cfg: Config, init: World, h: Sid, cid: LeaseId) returns (v: Verdict, w: World)
    requires cfg.Accepted() && cfg.Apart() && Initial(init) && |cid| > MAX_ID_LEN
    ensures v == Admitted && Carries(cfg, w, h, cid)
    ensures forall g | g != h :: !ClaimReply(cfg, w, g, cid)
  {
    v, w := FirstHandshake(cfg, init, h, cid, Returned);
  }

  // What the claim of the handshake leaves to the session.
  lemma AdmittedSession(cfg: Config, w: World, t0: seq<Action>, h: Sid, cid: Cid, fate: CallFate, others: seq<Action>)
    requires h !in Run(cfg, w, t0).busy && Backed(cfg, Run(cfg, w, t0))
    ensures var t1 := t0 + ClaimTrace(h, cid, fate, others);
      && ConcernedFrom(t1, |t0|, h, cid) && t1[|t0|..] == ClaimTrace(h, cid, fate, others)
      && h !in Run(cfg, w, t1).busy && Backed(cfg, Run(cfg, w, t1))
  {
    var claim := ClaimTrace(h, cid, fate, others);
    var t1 := t0 + claim;
    ClaimIsConcerned(cfg, Run(cfg, w, t0), h, cid, fate, others, cid);
    RunConcat(cfg, w, t0, claim);
    forall i | |t0| <= i < |t1| ensures Concerned(t1[i], h, cid) {
      assert t1[i] == claim[i - |t0|];
    }
  }

  lemma SegmentRuns(cfg: Config, w: World, t: seq<Action>, t': seq<Action>)
    requires t <= t'
    ensures Run(cfg, Run(cfg, w, t), t'[|t|..]) == Run(cfg, w, t')
  {
    RunConcat(cfg, w, t, t'[|t|..]);
    assert t + t'[|t|..] == t';
  }

  lemma LoopIsOrderly(cfg: Config, w: World, t0: seq<Action>, t1: seq<Action>, h: Sid, cid: Cid)
    requires t0 <= t1 && ConcernedFrom(t1, |t0|, h, cid)
    requires Holds(Run(cfg, w, t0), h, cid) && h !in Run(cfg, w, t1).busy
    ensures OrderlyTrace(cfg, Run(cfg, w, t0), (t1 + [])[|t0|..], h)
    ensures OrderlyTrace(cfg, Run(cfg, w, t0), (t1 + [Release(h, cid)])[|t0|..], h)
    ensures Holds(Run(cfg, w, t1), h, cid)
  {
    var loop := t1[|t0|..];
    assert forall i | 0 <= i < |loop| :: loop[i] == t1[|t0| + i];
    SegmentRuns(cfg, w, t0, t1);
    OrderlySession(cfg, Run(cfg, w, t0), loop, h, cid);
    assert (t1 + [])[|t0|..] == loop;
    assert (t1 + [Release(h, cid)])[|t0|..] == loop + [Release(h, cid)];
  }

  lemma LoopLifecycle(t0: seq<Action>, t1: seq<Action>, h: Sid, cid: Cid)
    requires t0 <= t1 && ConcernedFrom(t1, |t0|, h, cid)
    ensures Lifecycle(t0, t1 + [], h, cid, false) && Lifecycle(t0, t1 + [Release(h, cid)], h, cid, true)
  {
    assert t1 + [] == t1;
    assert (t1 + [Release(h, cid)])[..|t1|] == t1;
  }

  lemma OrderlySegments(cfg: Config, w: World, t0: seq<Action>, t1: seq<Action>, t2: seq<Action>, h: Sid)
    requires t0 <= t1 <= t2
    requires OrderlyTrace(cfg, w, t1[|t0|..], h) && OrderlyTrace(cfg, Run(cfg, w, t1[|t0|..]), t2[|t1|..], h)
    ensures OrderlyTrace(cfg, w, t2[|t0|..], h)
  {
    OrderlyConcat(cfg, w, t1[|t0|..], t2[|t1|..], h);
    assert t1[|t0|..] + t2[|t1|..] == t2[|t0|..];
  }
}
