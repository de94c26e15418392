/**
 The two-phase orchestrator: prepare, Kafka send, commit, cleanup, ACK. Every call it awaits
 may fail before or after taking effect, and between any two of its steps every other
 session, process and the clock may act. Its execution is a run of the protocol machine.
 */
module Orchestrator {
  import opened Options
  import opened Redis
  import opened Settings
  import opened Protocol

  datatype EventType = Ongoing | Complete

  // A message that passed schema validation.
  datatype Message = Message(r: Record, ev: EventType)

  datatype Reason =
    | InvalidJson
    | CidMismatch
    | Validation
    | SequenceOutOfOrder
    | DownstreamTimeout
    | DownstreamUnavailable
    | Internal
    | SenderConflict

  datatype Frame = TranscriptAck(r: Record) | EolAck(r: Record) | ErrorFrame(reason: Reason)

  datatype Result = Result(response: Frame, disconnect: bool)

  predicate IsAck(f: Frame) {
    f.TranscriptAck? || f.EolAck?
  }

  function SuccessAck(m: Message): Frame {
    if m.ev.Complete? then EolAck(m.r) else TranscriptAck(m.r)
  }

  function Success(m: Message): Result {
    Result(SuccessAck(m), m.ev.Complete?)
  }

  function Failure(reason: Reason): Result {
    Result(ErrorFrame(reason), true)
  }

  // ----- what the environment decides -----

  // A call that raises may have taken effect before.
  datatype CallFate = Returned | Raised(applied: bool)

  datatype SendFate = Unconverted | Acked | TimedOut(landed: bool) | Failed(landed: bool)

  datatype Fates = Fates(prepare: CallFate, send: SendFate, commit: CallFate, cleanup: CallFate)

  // What others do before the i-th step of the handler.
  type Env = nat -> seq<Action>

  predicate Effective(f: CallFate) {
    f.Returned? || f.applied
  }

  predicate Landed(f: SendFate) {
    f.Acked? || ((f.TimedOut? || f.Failed?) && f.landed)
  }

  function Actor(a: Action): Option<Sid> {
    match a
    case Tick(_) => None
    case LateLand(_) => None
    case LateCommit(_) => None
    case _ => Some(a.h)
  }

  // The handler's own session does nothing else meanwhile, except refreshing its lease.
  predicate ByOthers(a: Action, h: Sid) {
    Actor(a) != Some(h) || a.Claim?
  }

  // What a claim call leaves behind: with a lost reply the session does not know it owns.
  function ClaimAction(h: Sid, id: LeaseId, fate: CallFate): Action {
    Claim(h, id, fate.Returned?)
  }

  function Others(h: Sid, acts: seq<Action>): seq<Action> {
    if acts == [] then []
    else (if ByOthers(acts[0], h) then [acts[0]] else []) + Others(h, acts[1..])
  }

  function Interfere(cfg: Config, w: World, h: Sid, acts: seq<Action>): World {
    Run(cfg, w, Others(h, acts))
  }

  // ----- the handler, as a function of the state, the message and the environment -----

  function Handle(cfg: Config, w: World, h: Sid, msg: Option<Message>, f: Fates, env: Env): (World, Result) {
    if msg.None? then (w, Failure(Validation))
    else PrepareStage(cfg, w, h, msg.value, f, env)
  }

  function PrepareStage(cfg: Config, w: World, h: Sid, m: Message, f: Fates, env: Env): (World, Result) {
    var w0 := Interfere(cfg, w, h, env(0));
    if f.prepare.Raised? then
      (if f.prepare.applied then Step(cfg, w0, StrayPrepare(h, m.r)) else w0, Failure(Internal))
    else
      var w1 := Step(cfg, w0, Prepare(h, m.r));
      match SeqReply(cfg, w0, m.r)
      case Idempotent(_) => (w1, Success(m))
      case OutOfOrder(_) => (w1, Failure(SequenceOutOfOrder))
      case ScriptError => (w1, Failure(Internal))
      case PreCheckOk(_) => SendStage(cfg, w1, h, m, f, env)
  }

  function SendStage(cfg: Config, w: World, h: Sid, m: Message, f: Fates, env: Env): (World, Result) {
    if f.send.Unconverted? then (Step(cfg, w, Abort(h)), Failure(Internal))
    else
      var w1 := Interfere(cfg, Step(cfg, w, BeginSend(h)), h, env(1));
      var w2 := Interfere(cfg, if Landed(f.send) then Step(cfg, w1, Land(h)) else w1, h, env(2));
      match f.send
      case TimedOut(_) => (Step(cfg, w2, Abort(h)), Failure(DownstreamTimeout))
      case Failed(_) => (Step(cfg, w2, Abort(h)), Failure(DownstreamUnavailable))
      case _ => CommitStage(cfg, Step(cfg, w2, SendOk(h)), h, m, f, env)
  }

  function CommitStage(cfg: Config, w: World, h: Sid, m: Message, f: Fates, env: Env): (World, Result) {
    var w1 := Interfere(cfg, w, h, env(3));
    var w2 := Interfere(cfg, if Effective(f.commit) then Step(cfg, w1, ApplyCommit(h)) else w1, h, env(4));
    if f.commit.Raised? then (Step(cfg, w2, Abort(h)), Failure(Internal))
    else FinishStage(cfg, Step(cfg, w2, CommitOk(h)), h, m, f, env)
  }

  function FinishStage(cfg: Config, w: World, h: Sid, m: Message, f: Fates, env: Env): (World, Result) {
    var w1 :=
      if m.ev.Complete? then
        var w0 := Interfere(cfg, w, h, env(5));
        if Effective(f.cleanup) then Step(cfg, w0, Cleanup(h, m.r.cid)) else w0
      else w;
    (Step(cfg, w1, Ack(h)), Success(m))
  }

  // ----- what a call adds to the trace -----

  function ProducerTrace(h: Sid, fate: SendFate, env: Env): seq<Action> {
    [BeginSend(h)] + Others(h, env(1)) + (if Landed(fate) then [Land(h)] else []) + Others(h, env(2))
  }

  function CommitCallTrace(h: Sid, fate: CallFate, env: Env): seq<Action> {
    Others(h, env(3)) + (if Effective(fate) then [ApplyCommit(h)] else []) + Others(h, env(4))
  }

  function CleanupCallTrace(h: Sid, cid: Cid, fate: CallFate, env: Env): seq<Action> {
    Others(h, env(5)) + if Effective(fate) then [Cleanup(h, cid)] else []
  }

  function FinishTrace(h: Sid, m: Message, f: Fates, env: Env): seq<Action> {
    (if m.ev.Complete? then CleanupCallTrace(h, m.r.cid, f.cleanup, env) else []) + [Ack(h)]
  }

  function AfterCommit(h: Sid, m: Message, f: Fates, env: Env): seq<Action> {
    if f.commit.Raised? then [Abort(h)] else [CommitOk(h)] + FinishTrace(h, m, f, env)
  }

  function CommitTrace(h: Sid, m: Message, f: Fates, env: Env): seq<Action> {
    CommitCallTrace(h, f.commit, env) + AfterCommit(h, m, f, env)
  }

  function AfterSend(h: Sid, m: Message, f: Fates, env: Env): seq<Action> {
    if f.send.Acked? then [SendOk(h)] + CommitTrace(h, m, f, env) else [Abort(h)]
  }

  function SendTrace(h: Sid, m: Message, f: Fates, env: Env): seq<Action> {
    if f.send.Unconverted? then [Abort(h)] else ProducerTrace(h, f.send, env) + AfterSend(h, m, f, env)
  }

  function PrepareTrace(h: Sid, r: Record, fate: CallFate, others: seq<Action>): seq<Action> {
    Others(h, others) +
    if fate.Returned? then [Prepare(h, r)] else if fate.applied then [StrayPrepare(h, r)] else []
  }

  function HandleTrace(h: Sid, m: Message, f: Fates, env: Env, accepted: bool): seq<Action> {
    PrepareTrace(h, m.r, f.prepare, env(0)) + if accepted then SendTrace(h, m, f, env) else []
  }

  lemma Append(t: seq<Action>, xs: seq<Action>, ys: seq<Action>)
    ensures (t + xs) + ys == t + (xs + ys) && xs + [] == xs
  {}

  // The record's number is the one Redis expects: the key holds it, or is gone and it is 0.
  predicate Fits(cfg: Config, w: World, r: Record) {
    var key := SeqKey(cfg, r.cid);
    if Live(w.db, w.now, key) then w.db[key].value == Number(r.num) else r.num == 0
  }

  // The key holds a larger number.
  predicate Passed(cfg: Config, w: World, r: Record) {
    var key := SeqKey(cfg, r.cid);
    Live(w.db, w.now, key) && w.db[key].value.Number? && r.num < w.db[key].value.n
  }

  // The key holds a smaller number, or is gone and the number is not 0.
  predicate Ahead(cfg: Config, w: World, r: Record) {
    var key := SeqKey(cfg, r.cid);
    if Live(w.db, w.now, key) then w.db[key].value.Number? && w.db[key].value.n < r.num else 0 < r.num
  }

  // The key holds no number.
  predicate Unreadable(cfg: Config, w: World, r: Record) {
    var key := SeqKey(cfg, r.cid);
    Live(w.db, w.now, key) && w.db[key].value.Token?
  }

  // ----- the own actions in the trace -----

  // The place of an own action in the handling of a message.
  function Rank(a: Action): int {
    match a
    case Prepare(_, _) => 0
    case StrayPrepare(_, _) => 0
    case BeginSend(_) => 1
    case Land(_) => 2
    case SendOk(_) => 3
    case ApplyCommit(_) => 4
    case CommitOk(_) => 5
    case Cleanup(_, _) => 6
    case Ack(_) => 7
    case Abort(_) => 8
    case _ => -1
  }

  // Each own action comes at most once, and they come in the order of the stages.
  ghost predicate InOrder(acts: seq<Action>, h: Sid) {
    forall i, j | 0 <= i < j < |acts| && !ByOthers(acts[i], h) && !ByOthers(acts[j], h) ::
      Rank(acts[i]) < Rank(acts[j])
  }

  // An own action of the handler concerns its message's conversation; none gives up the lease.
  predicate Concerned(a: Action, h: Sid, cid: Cid) {
    ByOthers(a, h) ||
    (match a
     case Prepare(_, r) => r.cid == cid
     case StrayPrepare(_, r) => r.cid == cid
     case Cleanup(_, c) => c == cid
     case Release(_, _) => false
     case _ => true)
  }

  ghost predicate ConcernedFrom(acts: seq<Action>, n: nat, h: Sid, cid: Cid) {
    forall i | n <= i < |acts| :: Concerned(acts[i], h, cid)
  }

  // All own actions are of the stages from lo to hi, in order and for the conversation.
  ghost predicate Staged(acts: seq<Action>, h: Sid, cid: Cid, lo: int, hi: int) {
    && InOrder(acts, h) && ConcernedFrom(acts, 0, h, cid)
    && (forall i | 0 <= i < |acts| && !ByOthers(acts[i], h) :: lo <= Rank(acts[i]) <= hi)
  }

  lemma StagedConcat(xs: seq<Action>, ys: seq<Action>, h: Sid, cid: Cid, lo: int, mid: int, hi: int)
    requires Staged(xs, h, cid, lo, mid) && Staged(ys, h, cid, mid + 1, hi) && lo - 1 <= mid <= hi
    ensures Staged(xs + ys, h, cid, lo, hi)
  {
    var zs := xs + ys;
    forall i | 0 <= i < |zs| ensures zs[i] == if i < |xs| then xs[i] else ys[i - |xs|] {}
  }

  lemma {:induction false} OthersAreStaged(h: Sid, acts: seq<Action>, cid: Cid, lo: int, hi: int)
    ensures Staged(Others(h, acts), h, cid, lo, hi)
    ensures forall a | a in Others(h, acts) :: ByOthers(a, h)
  {
    if acts != [] {
      OthersAreStaged(h, acts[1..], cid, lo, hi);
    }
  }

  lemma OneIsStaged(happens: bool, a: Action, h: Sid, cid: Cid, lo: int, hi: int)
    requires Concerned(a, h, cid) && lo <= Rank(a) <= hi
    ensures Staged(if happens then [a] else [], h, cid, lo, hi)
  {}

  // What others do and then, if it happens, an own action.
  lemma StagedCall(h: Sid, acts: seq<Action>, happens: bool, a: Action, cid: Cid, lo: int, hi: int)
    requires Concerned(a, h, cid) && !ByOthers(a, h) && lo <= Rank(a) <= hi
    ensures var t := Others(h, acts) + if happens then [a] else [];
      Staged(t, h, cid, lo, hi) && (a in t <==> happens)
  {
    OthersAreStaged(h, acts, cid, lo, lo - 1);
    OneIsStaged(happens, a, h, cid, lo, hi);
    StagedConcat(Others(h, acts), if happens then [a] else [], h, cid, lo, lo - 1, hi);
  }

  // Two parts of the trace: an own action is found in the part that has its stage.
  lemma Join(xs: seq<Action>, ys: seq<Action>, h: Sid, cid: Cid, lo: int, mid: int, hi: int)
    requires Staged(xs, h, cid, lo, mid) && Staged(ys, h, cid, mid + 1, hi) && lo - 1 <= mid <= hi
    ensures Staged(xs + ys, h, cid, lo, hi)
    ensures forall a | !ByOthers(a, h) :: a in xs + ys <==> if Rank(a) <= mid then a in xs else a in ys
  {
    StagedConcat(xs, ys, h, cid, lo, mid, hi);
  }

  lemma FinishDeeds(h: Sid, m: Message, f: Fates, env: Env)
    ensures var t := FinishTrace(h, m, f, env);
      && Staged(t, h, m.r.cid, 6, 7) && Ack(h) in t
      && (Cleanup(h, m.r.cid) in t <==> m.ev.Complete? && Effective(f.cleanup))
  {
    var cleanup := if m.ev.Complete? then CleanupCallTrace(h, m.r.cid, f.cleanup, env) else [];
    StagedCall(h, env(5), Effective(f.cleanup), Cleanup(h, m.r.cid), m.r.cid, 6, 6);
    OneIsStaged(true, Ack(h), h, m.r.cid, 7, 7);
    StagedConcat(cleanup, [Ack(h)], h, m.r.cid, 6, 6, 7);
  }

  lemma CommitCallDeeds(h: Sid, fate: CallFate, env: Env, cid: Cid)
    ensures var t := CommitCallTrace(h, fate, env);
      Staged(t, h, cid, 4, 4) && (ApplyCommit(h) in t <==> Effective(fate))
  {
    StagedCall(h, env(3), Effective(fate), ApplyCommit(h), cid, 4, 4);
    OthersAreStaged(h, env(4), cid, 5, 4);
    StagedConcat(Others(h, env(3)) + if Effective(fate) then [ApplyCommit(h)] else [], Others(h, env(4)), h, cid, 4, 4, 4);
  }

  lemma AfterCommitDeeds(h: Sid, m: Message, f: Fates, env: Env)
    ensures var t := AfterCommit(h, m, f, env);
      && Staged(t, h, m.r.cid, 5, 8) && (Ack(h) in t <==> f.commit.Returned?)
      && (Cleanup(h, m.r.cid) in t <==> f.commit.Returned? && m.ev.Complete? && Effective(f.cleanup))
  {
    if f.commit.Returned? {
      FinishDeeds(h, m, f, env);
      OneIsStaged(true, CommitOk(h), h, m.r.cid, 5, 5);
      StagedConcat([CommitOk(h)], FinishTrace(h, m, f, env), h, m.r.cid, 5, 5, 7);
    }
  }

  lemma CommitDeeds(h: Sid, m: Message, f: Fates, env: Env)
    ensures var t := CommitTrace(h, m, f, env);
      && Staged(t, h, m.r.cid, 4, 8)
      && (ApplyCommit(h) in t <==> Effective(f.commit)) && (Ack(h) in t <==> f.commit.Returned?)
      && (Cleanup(h, m.r.cid) in t <==> f.commit.Returned? && m.ev.Complete? && Effective(f.cleanup))
  {
    var call, rest := CommitCallTrace(h, f.commit, env), AfterCommit(h, m, f, env);
    CommitCallDeeds(h, f.commit, env, m.r.cid);
    AfterCommitDeeds(h, m, f, env);
    Join(call, rest, h, m.r.cid, 4, 4, 8);
  }

  lemma ProducerDeeds(h: Sid, fate: SendFate, env: Env, cid: Cid)
    ensures var t := ProducerTrace(h, fate, env);
      Staged(t, h, cid, 1, 2) && (Land(h) in t <==> Landed(fate))
  {
    var begin, land := [BeginSend(h)], if Landed(fate) then [Land(h)] else [];
    OneIsStaged(true, BeginSend(h), h, cid, 1, 1);
    OthersAreStaged(h, env(1), cid, 2, 1);
    StagedConcat(begin, Others(h, env(1)), h, cid, 1, 1, 1);
    OneIsStaged(Landed(fate), Land(h), h, cid, 2, 2);
    StagedConcat(begin + Others(h, env(1)), land, h, cid, 1, 1, 2);
    OthersAreStaged(h, env(2), cid, 3, 2);
    StagedConcat(begin + Others(h, env(1)) + land, Others(h, env(2)), h, cid, 1, 2, 2);
  }

  lemma AfterSendDeeds(h: Sid, m: Message, f: Fates, env: Env)
    ensures var t := AfterSend(h, m, f, env);
      && Staged(t, h, m.r.cid, 3, 8)
      && (ApplyCommit(h) in t <==> f.send.Acked? && Effective(f.commit))
      && (Ack(h) in t <==> f.send.Acked? && f.commit.Returned?)
      && (Cleanup(h, m.r.cid) in t <==>
          f.send.Acked? && f.commit.Returned? && m.ev.Complete? && Effective(f.cleanup))
  {
    if f.send.Acked? {
      CommitDeeds(h, m, f, env);
      OneIsStaged(true, SendOk(h), h, m.r.cid, 3, 3);
      StagedConcat([SendOk(h)], CommitTrace(h, m, f, env), h, m.r.cid, 3, 3, 8);
    }
  }

  lemma SentDeeds(sent: seq<Action>, rest: seq<Action>, h: Sid, cid: Cid)
    requires Staged(sent, h, cid, 1, 2) && Staged(rest, h, cid, 3, 8)
    ensures var t := sent + rest;
      && Staged(t, h, cid, 1, 8)
      && (Land(h) in t <==> Land(h) in sent) && (ApplyCommit(h) in t <==> ApplyCommit(h) in rest)
      && (Ack(h) in t <==> Ack(h) in rest) && (Cleanup(h, cid) in t <==> Cleanup(h, cid) in rest)
  {
    Join(sent, rest, h, cid, 1, 2, 8);
  }

  lemma SendDeeds(h: Sid, m: Message, f: Fates, env: Env)
    ensures var t := SendTrace(h, m, f, env);
      && Staged(t, h, m.r.cid, 1, 8)
      && (Land(h) in t <==> Landed(f.send))
      && (ApplyCommit(h) in t <==> f.send.Acked? && Effective(f.commit))
      && (Ack(h) in t <==> f.send.Acked? && f.commit.Returned?)
      && (Cleanup(h, m.r.cid) in t <==>
          f.send.Acked? && f.commit.Returned? && m.ev.Complete? && Effective(f.cleanup))
  {
    if f.send.Unconverted? {
      OneIsStaged(true, Abort(h), h, m.r.cid, 1, 8);
    } else {
      ProducerDeeds(h, f.send, env, m.r.cid);
      AfterSendDeeds(h, m, f, env);
      SentDeeds(ProducerTrace(h, f.send, env), AfterSend(h, m, f, env), h, m.r.cid);
    }
  }

  // What happens of the handling of a message: its scripts and appends that take effect. A
  // commit follows a confirmed send only, and a cleanup an acknowledged completion.
  ghost predicate Deeds(added: seq<Action>, h: Sid, m: Message, f: Fates, fits: bool, res: Result) {
    var accepted := f.prepare.Returned? && fits;
    && InOrder(added, h) && ConcernedFrom(added, 0, h, m.r.cid)
    && (Prepare(h, m.r) in added <==> f.prepare.Returned?)
    && (StrayPrepare(h, m.r) in added <==> f.prepare == Raised(true))
    && (Land(h) in added <==> accepted && Landed(f.send))
    && (ApplyCommit(h) in added <==> accepted && f.send.Acked? && Effective(f.commit))
    && (Ack(h) in added <==> accepted && f.send.Acked? && f.commit.Returned?)
    && (Cleanup(h, m.r.cid) in added <==>
        m.ev.Complete? && IsAck(res.response) && Ack(h) in added && Effective(f.cleanup))
  }

  lemma PrepareDeeds(h: Sid, r: Record, fate: CallFate, others: seq<Action>)
    ensures var t := PrepareTrace(h, r, fate, others);
      && Staged(t, h, r.cid, 0, 0)
      && (Prepare(h, r) in t <==> fate.Returned?) && (StrayPrepare(h, r) in t <==> fate == Raised(true))
  {
    var a := if fate.Returned? then Prepare(h, r) else StrayPrepare(h, r);
    StagedCall(h, others, Effective(fate), a, r.cid, 0, 0);
    OthersAreStaged(h, others, r.cid, 0, 0);
    assert PrepareTrace(h, r, fate, others) == Others(h, others) + if Effective(fate) then [a] else [];
  }

  lemma PreparedDeeds(first: seq<Action>, rest: seq<Action>, h: Sid, r: Record)
    requires Staged(first, h, r.cid, 0, 0) && Staged(rest, h, r.cid, 1, 8)
    ensures var t := first + rest;
      && InOrder(t, h) && ConcernedFrom(t, 0, h, r.cid)
      && (Prepare(h, r) in t <==> Prepare(h, r) in first) && (StrayPrepare(h, r) in t <==> StrayPrepare(h, r) in first)
      && (Land(h) in t <==> Land(h) in rest) && (ApplyCommit(h) in t <==> ApplyCommit(h) in rest)
      && (Ack(h) in t <==> Ack(h) in rest) && (Cleanup(h, r.cid) in t <==> Cleanup(h, r.cid) in rest)
  {
    Join(first, rest, h, r.cid, 0, 0, 8);
  }

  lemma TraceIsDeeds(h: Sid, m: Message, f: Fates, env: Env, fits: bool, res: Result)
    requires f.prepare.Returned? && fits && f.send.Acked? && f.commit.Returned? ==> IsAck(res.response)
    ensures Deeds(HandleTrace(h, m, f, env, f.prepare.Returned? && fits), h, m, f, fits, res)
  {
    var accepted := f.prepare.Returned? && fits;
    PrepareDeeds(h, m.r, f.prepare, env(0));
    if accepted {
      SendDeeds(h, m, f, env);
    }
    PreparedDeeds(
      PrepareTrace(h, m.r, f.prepare, env(0)), if accepted then SendTrace(h, m, f, env) else [], h, m.r);
  }

  // ----- the same, as the program -----

  // Every effect of the session's own actions, claims aside, is on the conversation: each of
  // them, in the state in which it happens, prepares, sends, commits or cleans up for it, or
  // does nothing.
  ghost predicate Confined(cfg: Config, w: World, acts: seq<Action>, h: Sid, cid: Cid)
    decreases acts
  {
    acts == [] ||
    (&& (ByOthers(acts[0], h) || Subject(w, acts[0]) == None || Subject(w, acts[0]) == Some(cid))
     && Confined(cfg, Step(cfg, w, acts[0]), acts[1..], h, cid))
  }

  lemma {:induction false} ConcernedIsConfined(cfg: Config, w: World, acts: seq<Action>, h: Sid, cid: Cid)
    requires ConcernedFrom(acts, 0, h, cid) && (h in w.busy ==> w.busy[h].r.cid == cid)
    ensures Confined(cfg, w, acts, h, cid)
    decreases acts
  {
    if acts != [] {
      assert Concerned(acts[0], h, cid);
      ConcernedIsConfined(cfg, Step(cfg, w, acts[0]), acts[1..], h, cid);
    }
  }

  lemma {:induction false} ConfinedConcat(
    cfg: Config, w: World, xs: seq<Action>, ys: seq<Action>, h: Sid, cid: Cid)
    requires Confined(cfg, w, xs, h, cid) && Confined(cfg, Run(cfg, w, xs), ys, h, cid)
    ensures Confined(cfg, w, xs + ys, h, cid)
    decreases xs
  {
    if xs == [] {
      assert xs + ys == ys;
    } else {
      assert (xs + ys)[1..] == xs[1..] + ys;
      ConfinedConcat(cfg, Step(cfg, w, xs[0]), xs[1..], ys, h, cid);
    }
  }

  /** The part of a recorded trace that was added after t is confined. */
  lemma SegmentIsConfined(cfg: Config, w: World, t: seq<Action>, t': seq<Action>, h: Sid, cid: Cid)
    requires t <= t' && ConcernedFrom(t', |t|, h, cid) && h !in Run(cfg, w, t).busy
    ensures Confined(cfg, Run(cfg, w, t), t'[|t|..], h, cid)
  {
    var acts := t'[|t|..];
    assert forall i | 0 <= i < |acts| :: acts[i] == t'[|t| + i];
    ConcernedIsConfined(cfg, Run(cfg, w, t), acts, h, cid);
  }

  /** The shared stores, reached through the atomic operations of the protocol. */
  class Cluster {
    const cfg: Config
    var w: World
    ghost var w0: World
    ghost var trace: seq<Action>

    // The state is what the recorded actions make of the initial one.
    ghost predicate Valid()
      reads this
    {
      w == Run(cfg, w0, trace)
    }

    constructor (cfg: Config, w: World)
      ensures Valid() && this.cfg == cfg && this.w == w && w0 == w && trace == []
    {
      this.cfg, this.w, w0, trace := cfg, w, w, [];
    }

    method Do(a: Action)
      requires Valid()
      modifies this`w, this`trace
      ensures Valid() && w == Step(cfg, old(w), a) && trace == old(trace) + [a]
    {
      RunConcat(cfg, w0, trace, [a]);
      assert Run(cfg, w, [a]) == Run(cfg, Step(cfg, w, a), [a][1..]);
      w := Step(cfg, w, a);
      trace := trace + [a];
    }

    method LetRun(acts: seq<Action>)
      requires Valid()
      modifies this`w, this`trace
      ensures Valid() && w == Run(cfg, old(w), acts) && trace == old(trace) + acts
    {
      RunConcat(cfg, w0, trace, acts);
      w := Run(cfg, w, acts);
      trace := trace + acts;
    }

    method Let(h: Sid, acts: seq<Action>)
      requires Valid()
      modifies this`w, this`trace
      ensures Valid() && w == Interfere(cfg, old(w), h, acts) && trace == old(trace) + Others(h, acts)
    {
      LetRun(Others(h, acts));
    }
  }

  class TwoPhaseOrchestrator {
    const cluster: Cluster

    constructor (cluster: Cluster)
      ensures this.cluster == cluster
    {
      this.cluster := cluster;
    }

    // The sequence state machine and the producer, as the orchestrator sees them: a reply,
    // or None for an exception.
    method SmPrepare(h: Sid, r: Record, fate: CallFate, others: seq<Action>) returns (o: Option<PrepareReply>)
      requires cluster.Valid()
      modifies cluster`w, cluster`trace
      ensures cluster.Valid() && cluster.trace == old(cluster.trace) + PrepareTrace(h, r, fate, others)
      ensures var w0 := Interfere(cluster.cfg, old(cluster.w), h, others);
        if fate.Returned? then
          cluster.w == Step(cluster.cfg, w0, Prepare(h, r)) && o == Some(SeqReply(cluster.cfg, w0, r))
        else
          cluster.w == (if fate.applied then Step(cluster.cfg, w0, StrayPrepare(h, r)) else w0) && o == None
    {
      Append(cluster.trace, Others(h, others), [if fate.Returned? then Prepare(h, r) else StrayPrepare(h, r)]);
      cluster.Let(h, others);
      if fate.Returned? {
        o := Some(SeqReply(cluster.cfg, cluster.w, r));
        cluster.Do(Prepare(h, r));
      } else {
        if fate.applied {
          cluster.Do(StrayPrepare(h, r));
        }
        o := None;
      }
    }

    method ProducerSend(h: Sid, r: Record, fate: SendFate, env: Env)
      requires cluster.Valid()
      modifies cluster`w, cluster`trace
      ensures cluster.Valid() && cluster.trace == old(cluster.trace) + ProducerTrace(h, fate, env)
      ensures var w1 := Interfere(cluster.cfg, Step(cluster.cfg, old(cluster.w), BeginSend(h)), h, env(1));
        cluster.w == Interfere(cluster.cfg, if Landed(fate) then Step(cluster.cfg, w1, Land(h)) else w1, h, env(2))
    {
      ghost var t, begin := cluster.trace, [BeginSend(h)] + Others(h, env(1));
      Append(t, [BeginSend(h)], Others(h, env(1)));
      Append(t, begin, [Land(h)]);
      Append(t, begin + if Landed(fate) then [Land(h)] else [], Others(h, env(2)));
      cluster.Do(BeginSend(h));
      cluster.Let(h, env(1));
      if Landed(fate) {
        cluster.Do(Land(h));
      }
      cluster.Let(h, env(2));
    }

    method SmCommit(h: Sid, r: Record, fate: CallFate, env: Env) returns (ok: bool)
      requires cluster.Valid()
      modifies cluster`w, cluster`trace
      ensures cluster.Valid() && cluster.trace == old(cluster.trace) + CommitCallTrace(h, fate, env)
      ensures ok == fate.Returned?
      ensures var w1 := Interfere(cluster.cfg, old(cluster.w), h, env(3));
        cluster.w ==
        Interfere(cluster.cfg, if Effective(fate) then Step(cluster.cfg, w1, ApplyCommit(h)) else w1, h, env(4))
    {
      ghost var t := cluster.trace;
      Append(t, Others(h, env(3)), [ApplyCommit(h)]);
      Append(t, Others(h, env(3)) + if Effective(fate) then [ApplyCommit(h)] else [], Others(h, env(4)));
      cluster.Let(h, env(3));
      if Effective(fate) {
        cluster.Do(ApplyCommit(h));
      }
      cluster.Let(h, env(4));
      ok := fate.Returned?;
    }

    method SmCleanup(h: Sid, cid: Cid, fate: CallFate, env: Env) returns (ok: bool)
      requires cluster.Valid()
      modifies cluster`w, cluster`trace
      ensures cluster.Valid() && cluster.trace == old(cluster.trace) + CleanupCallTrace(h, cid, fate, env)
      ensures ok == fate.Returned?
      ensures var w0 := Interfere(cluster.cfg, old(cluster.w), h, env(5));
        cluster.w == if Effective(fate) then Step(cluster.cfg, w0, Cleanup(h, cid)) else w0
    {
      Append(cluster.trace, Others(h, env(5)), [Cleanup(h, cid)]);
      cluster.Let(h, env(5));
      if Effective(fate) {
        cluster.Do(Cleanup(h, cid));
      }
      ok := fate.Returned?;
    }

    /**
     Handles one message. Whatever the environment does, the execution is a run of the
     protocol machine in which this session prepares, sends, commits and cleans up for the
     message's conversation only, in this order: it commits only what Kafka has confirmed, and
     cleans up if and only if it acknowledges a completion it has just committed.
     */
    method HandleMessage(h: Sid, msg: Option<Message>, f: Fates, env: Env) returns (res: Result)
      requires cluster.Valid() && h !in cluster.w.busy
      modifies cluster`w, cluster`trace
      ensures cluster.Valid() && old(cluster.trace) <= cluster.trace
      ensures (cluster.w, res) == Handle(cluster.cfg, old(cluster.w), h, msg, f, env)
      ensures msg.None? ==> cluster.trace == old(cluster.trace) && res == Result(ErrorFrame(Validation), true)
      ensures msg.Some? ==>
        var m, added := msg.value, cluster.trace[|old(cluster.trace)|..];
        && ConcernedFrom(cluster.trace, |old(cluster.trace)|, h, m.r.cid)
        && Confined(cluster.cfg, old(cluster.w), added, h, m.r.cid)
        && Deeds(added, h, m, f, Fits(cluster.cfg, Interfere(cluster.cfg, old(cluster.w), h, env(0)), m.r), res)
    {
      ghost var w, t := cluster.w, cluster.trace;
      res := Process(h, msg, f, env);
      if msg.Some? {
        ghost var fits := Fits(cluster.cfg, Interfere(cluster.cfg, w, h, env(0)), msg.value.r);
        TraceIsDeeds(h, msg.value, f, env, fits, res);
        assert cluster.trace[|t|..] == HandleTrace(h, msg.value, f, env, f.prepare.Returned? && fits);
        assert forall i | 0 <= i < |cluster.trace[|t|..]| :: cluster.trace[|t|..][i] == cluster.trace[|t| + i];
        SegmentIsConfined(cluster.cfg, cluster.w0, t, cluster.trace, h, msg.value.r.cid);
      }
    }

    // The stages in their order, with every failure exit.
    method Process(h: Sid, msg: Option<Message>, f: Fates, env: Env) returns (res: Result)
      requires cluster.Valid()
      modifies cluster`w, cluster`trace
      ensures cluster.Valid()
      ensures (cluster.w, res) == Handle(cluster.cfg, old(cluster.w), h, msg, f, env)
      ensures msg.None? ==> cluster.trace == old(cluster.trace)
      ensures msg.Some? ==>
        var accepted :=
          f.prepare.Returned? && Fits(cluster.cfg, Interfere(cluster.cfg, old(cluster.w), h, env(0)), msg.value.r);
        && cluster.trace == old(cluster.trace) + HandleTrace(h, msg.value, f, env, accepted)
        && (accepted && f.send.Acked? && f.commit.Returned? ==> IsAck(res.response))
    {
      if msg.None? {
        return Failure(Validation);
      }
      var m := msg.value;
      Append(cluster.trace, PrepareTrace(h, m.r, f.prepare, env(0)), SendTrace(h, m, f, env));
      var prepare := SmPrepare(h, m.r, f.prepare, env(0));
      if prepare.None? {
        return Failure(Internal);
      }
      if prepare.value.Idempotent? {
        return Success(m);
      }
      if prepare.value.OutOfOrder? {
        return Failure(SequenceOutOfOrder);
      }
      if prepare.value.ScriptError? {
        return Failure(Internal);
      }
      res := Persist(h, m, f, env);
    }

    method Persist(h: Sid, m: Message, f: Fates, env: Env) returns (res: Result)
      requires cluster.Valid()
      modifies cluster`w, cluster`trace
      ensures cluster.Valid() && cluster.trace == old(cluster.trace) + SendTrace(h, m, f, env)
      ensures (cluster.w, res) == SendStage(cluster.cfg, old(cluster.w), h, m, f, env)
      ensures f.send.Acked? && f.commit.Returned? ==> IsAck(res.response)
    {
      if f.send.Unconverted? {
        cluster.Do(Abort(h));
        return Failure(Internal);
      }
      ghost var t, sent := cluster.trace, ProducerTrace(h, f.send, env);
      ProducerSend(h, m.r, f.send, env);
      Append(t, sent, [Abort(h)]);
      if f.send.TimedOut? {
        cluster.Do(Abort(h));
        return Failure(DownstreamTimeout);
      }
      if f.send.Failed? {
        cluster.Do(Abort(h));
        return Failure(DownstreamUnavailable);
      }
      Append(t + sent, [SendOk(h)], CommitTrace(h, m, f, env));
      Append(t, sent, [SendOk(h)] + CommitTrace(h, m, f, env));
      cluster.Do(SendOk(h));
      res := CommitAndFinish(h, m, f, env);
    }

    method CommitAndFinish(h: Sid, m: Message, f: Fates, env: Env) returns (res: Result)
      requires cluster.Valid()
      modifies cluster`w, cluster`trace
      ensures cluster.Valid() && cluster.trace == old(cluster.trace) + CommitTrace(h, m, f, env)
      ensures (cluster.w, res) == CommitStage(cluster.cfg, old(cluster.w), h, m, f, env)
      ensures f.commit.Returned? ==> IsAck(res.response)
    {
      ghost var t, call := cluster.trace, CommitCallTrace(h, f.commit, env);
      var committed := SmCommit(h, m.r, f.commit, env);
      Append(t, call, [Abort(h)]);
      if !committed {
        cluster.Do(Abort(h));
        return Failure(Internal);
      }
      Append(t + call, [CommitOk(h)], FinishTrace(h, m, f, env));
      Append(t, call, [CommitOk(h)] + FinishTrace(h, m, f, env));
      cluster.Do(CommitOk(h));
      res := Finish(h, m, f, env);
    }

    method Finish(h: Sid, m: Message, f: Fates, env: Env) returns (res: Result)
      requires cluster.Valid()
      modifies cluster`w, cluster`trace
      ensures cluster.Valid() && cluster.trace == old(cluster.trace) + FinishTrace(h, m, f, env)
      ensures (cluster.w, res) == FinishStage(cluster.cfg, old(cluster.w), h, m, f, env)
      ensures IsAck(res.response)
    {
      ghost var t := cluster.trace;
      if m.ev.Complete? {
        Append(t, CleanupCallTrace(h, m.r.cid, f.cleanup, env), [Ack(h)]);
        var _ := SmCleanup(h, m.r.cid, f.cleanup, env);   // a failure is only logged
      } else {
        Append(t, [], [Ack(h)]);
      }
      cluster.Do(Ack(h));
      return Success(m);
    }
  }
}
