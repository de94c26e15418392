/**
 The delivery protocol as one state machine shared by every process of the service: the
 Redis key space, the Kafka topic, the messages being handled and the leases held. Every
 script execution, every broker append and every return to a handler is one atomic action,
 so a list of actions is an interleaving of any number of handlers, other processes, faults
 and the clock. An action that is not enabled changes nothing.
 */
module Protocol {
  import opened Options
  import opened Redis
  import opened Settings

  datatype Record = Record(cid: Cid, num: nat)

  // A session is named by its ownership token; it handles one message at a time.
  type Sid = string

  // Where the handling of a message stands. Sending.landed: the broker has appended the
  // record; Sent.applied: the commit script has run.
  datatype Phase =
    | Prepared(r: Record)
    | Sending(r: Record, landed: bool)
    | Sent(r: Record, applied: bool)
    | Committed(r: Record)

  // An OWNED reply: the conversation, and the time at which the claim script ran.
  datatype Hold = Hold(cid: LeaseId, since: real)

  datatype World = World(
    now: real,
    db: Db,
    topic: seq<Record>,
    floating: set<Record>,      // sends given up by their handler that may still land
    lateCommits: set<Record>,   // commits given up by their handler that may still run
    busy: map<Sid, Phase>,
    acks: set<Record>,
    holds: map<Sid, Hold>)

  // The actions of a session carry its name h.
  datatype Action =
    | Tick(d: real)
    | Prepare(h: Sid, r: Record)
    | StrayPrepare(h: Sid, r: Record)   // the script runs, its reply reaches no handler
    | BeginSend(h: Sid)
    | Land(h: Sid)
    | SendOk(h: Sid)
    | LateLand(r: Record)
    | ApplyCommit(h: Sid)
    | CommitOk(h: Sid)
    | LateCommit(r: Record)
    | Cleanup(h: Sid, cid: Cid)
    | Ack(h: Sid)
    | Abort(h: Sid)                     // failure or crash: the handler stops here
    | Claim(h: Sid, id: LeaseId, delivered: bool)
    | Release(h: Sid, id: LeaseId)

  predicate Enabled(w: World, a: Action) {
    match a
    case Tick(d) => 0.0 <= d
    case Prepare(h, _) => h !in w.busy
    case StrayPrepare(h, _) => h !in w.busy
    case BeginSend(h) => h in w.busy && w.busy[h].Prepared?
    case Land(h) => h in w.busy && w.busy[h].Sending? && !w.busy[h].landed
    case SendOk(h) => h in w.busy && w.busy[h].Sending? && w.busy[h].landed
    case LateLand(r) => r in w.floating
    case ApplyCommit(h) => h in w.busy && w.busy[h].Sent?
    case CommitOk(h) => h in w.busy && w.busy[h].Sent? && w.busy[h].applied
    case LateCommit(r) => r in w.lateCommits
    case Cleanup(_, _) => true
    case Ack(h) => h in w.busy && w.busy[h].Committed?
    case Abort(h) => h in w.busy
    case Claim(h, cid, _) => h in w.holds ==> w.holds[h].cid == cid
    case Release(h, cid) => h in w.holds ==> w.holds[h].cid == cid
  }

  function SeqReply(cfg: Config, w: World, r: Record): PrepareReply {
    PrepareReplyTo(Get(w.db, w.now, SeqKey(cfg, r.cid)), r.num)
  }

  predicate ClaimReply(cfg: Config, w: World, h: Sid, cid: LeaseId) {
    ClaimReplyTo(Get(w.db, w.now, LeaseKey(cfg, cid)), h)
  }

  function RunPrepare(cfg: Config, w: World, r: Record): World {
    w.(db := PrepareDb(w.db, w.now, SeqKey(cfg, r.cid), r.num, cfg.activeTtl))
  }

  function RunCommit(cfg: Config, w: World, r: Record): World {
    w.(db := CommitDb(w.db, w.now, SeqKey(cfg, r.cid), r.num, cfg.activeTtl))
  }

  function Stop(w: World, h: Sid): World
    requires h in w.busy
  {
    w.(busy := w.busy - {h},
       floating := w.floating + (if w.busy[h] == Sending(w.busy[h].r, false) then {w.busy[h].r} else {}),
       lateCommits := w.lateCommits + (if w.busy[h].Sent? then {w.busy[h].r} else {}))
  }

  function Step(cfg: Config, w: World, a: Action): World {
    if !Enabled(w, a) then w else
    match a
    case Tick(d) => w.(now := w.now + d)
    case Prepare(h, r) =>
      var reply := SeqReply(cfg, w, r);
      RunPrepare(cfg, w, r).(
        busy := if reply.PreCheckOk? then w.busy[h := Prepared(r)] else w.busy,
        acks := if reply.Idempotent? then w.acks + {r} else w.acks)
    case StrayPrepare(_, r) => RunPrepare(cfg, w, r)
    case BeginSend(h) => w.(busy := w.busy[h := Sending(w.busy[h].r, false)])
    case Land(h) => w.(busy := w.busy[h := Sending(w.busy[h].r, true)], topic := w.topic + [w.busy[h].r])
    case SendOk(h) => w.(busy := w.busy[h := Sent(w.busy[h].r, false)])
    case LateLand(r) => w.(topic := w.topic + [r])
    case ApplyCommit(h) => RunCommit(cfg, w, w.busy[h].r).(busy := w.busy[h := Sent(w.busy[h].r, true)])
    case CommitOk(h) => w.(busy := w.busy[h := Committed(w.busy[h].r)])
    case LateCommit(r) => RunCommit(cfg, w, r)
    case Cleanup(_, cid) => w.(db := CleanupDb(w.db, w.now, SeqKey(cfg, cid), cfg.finalTtl))
    case Ack(h) => w.(busy := w.busy - {h}, acks := w.acks + {w.busy[h].r})
    case Abort(h) => Stop(w, h)
    case Claim(h, cid, delivered) =>
      w.(db := ClaimDb(w.db, w.now, LeaseKey(cfg, cid), h, cfg.guardTtl),
         holds := if delivered && ClaimReply(cfg, w, h, cid) then w.holds[h := Hold(cid, w.now)] else w.holds)
    case Release(h, cid) =>
      w.(db := ReleaseDb(w.db, w.now, LeaseKey(cfg, cid), h), holds := w.holds - {h})
  }

  // The script an action runs, as the Redis clients call it.
  function ScriptCall(cfg: Config, w: World, a: Action): Option<Call>
    requires Enabled(w, a)
  {
    match a
    case Prepare(_, r) => Some(PrepareCall(SeqKey(cfg, r.cid), r.num, cfg.activeTtl))
    case StrayPrepare(_, r) => Some(PrepareCall(SeqKey(cfg, r.cid), r.num, cfg.activeTtl))
    case ApplyCommit(h) => Some(CommitCall(SeqKey(cfg, w.busy[h].r.cid), w.busy[h].r.num, cfg.activeTtl))
    case LateCommit(r) => Some(CommitCall(SeqKey(cfg, r.cid), r.num, cfg.activeTtl))
    case Cleanup(_, cid) => Some(CleanupCall(SeqKey(cfg, cid), cfg.finalTtl))
    case Claim(h, cid, _) => Some(ClaimCall(LeaseKey(cfg, cid), h, cfg.guardTtl))
    case Release(h, cid) => Some(ReleaseCall(LeaseKey(cfg, cid), h))
    case _ => None
  }

  /** The key space changes by whole scripts only: one per action that runs one, none otherwise. */
  lemma StepRunsOneScript(cfg: Config, w: World, a: Action)
    requires Enabled(w, a)
    ensures Step(cfg, w, a).db ==
      match ScriptCall(cfg, w, a) case Some(call) => CallDb(w.db, w.now, call) case None => w.db
    ensures a.Prepare? ==> CallReply(w.db, w.now, ScriptCall(cfg, w, a).value) == Checked(SeqReply(cfg, w, a.r))
    ensures a.Claim? ==> CallReply(w.db, w.now, ScriptCall(cfg, w, a).value) == Flag(ClaimReply(cfg, w, a.h, a.id))
  {}

  function Run(cfg: Config, w: World, acts: seq<Action>): World
    decreases acts
  {
    if acts == [] then w else Run(cfg, Step(cfg, w, acts[0]), acts[1..])
  }

  ghost predicate Initial(w: World) {
    && w.db == map[] && w.topic == [] && w.floating == {} && w.lateCommits == {}
    && w.busy == map[] && w.acks == {} && w.holds == map[]
  }

  lemma {:induction false} RunConcat(cfg: Config, w: World, xs: seq<Action>, ys: seq<Action>)
    ensures Run(cfg, w, xs + ys) == Run(cfg, Run(cfg, w, xs), ys)
    decreases xs
  {
    if xs == [] {
      assert xs + ys == ys;
    } else {
      assert (xs + ys)[1..] == xs[1..] + ys;
      RunConcat(cfg, Step(cfg, w, xs[0]), xs[1..], ys);
    }
  }

  /** The conversation an action of session h concerns; the clock concerns all of them. */
  function Subject(w: World, a: Action): Option<string> {
    match a
    case Tick(_) => None
    case Prepare(_, r) => Some(r.cid)
    case StrayPrepare(_, r) => Some(r.cid)
    case LateLand(r) => Some(r.cid)
    case LateCommit(r) => Some(r.cid)
    case Cleanup(_, cid) => Some(cid)
    case Claim(_, cid, _) => Some(cid)
    case Release(_, cid) => Some(cid)
    case _ => if a.h in w.busy then Some(w.busy[a.h].r.cid) else None
  }

  /** The conversation's part of the topic, as sequence numbers. */
  function Log(topic: seq<Record>, cid: Cid): seq<nat> {
    if topic == [] then []
    else
      var last := topic[|topic| - 1];
      Log(topic[..|topic| - 1], cid) + if last.cid == cid then [last.num] else []
  }

  lemma LogSnoc(topic: seq<Record>, r: Record, cid: Cid)
    ensures Log(topic + [r], cid) == Log(topic, cid) + if r.cid == cid then [r.num] else []
  {
    assert (topic + [r])[..|topic|] == topic;
  }

  lemma {:induction false} LogMembers(topic: seq<Record>, cid: Cid, n: nat)
    ensures n in Log(topic, cid) <==> Record(cid, n) in topic
  {
    if topic != [] {
      var front, last := topic[..|topic| - 1], topic[|topic| - 1];
      assert topic == front + [last];
      LogMembers(front, cid, n);
    }
  }
}
