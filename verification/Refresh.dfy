/**
 Keeping the lease: what the background refresh does for a session, moment by moment, and how
 refreshed sessions together leave one handler per conversation.
 */
module Refresh {
  import opened Options
  import opened Settings
  import opened Protocol
  import opened Lease
  import opened Orchestrator

  // ----- order -----

  // The session's own actions keep the order that Orderly asks for.
  predicate OrderlyTrace(cfg: Config, w: World, acts: seq<Action>, h: Sid)
    decreases acts
  {
    acts == [] ||
    ((Actor(acts[0]) == Some(h) ==> Orderly(w, acts[0])) && OrderlyTrace(cfg, Step(cfg, w, acts[0]), acts[1..], h))
  }

  predicate Holds(w: World, h: Sid, id: LeaseId) {
    h in w.holds && w.holds[h].cid == id
  }

  lemma {:induction false} OrderlyConcat(cfg: Config, w: World, xs: seq<Action>, ys: seq<Action>, h: Sid)
    requires OrderlyTrace(cfg, w, xs, h) && OrderlyTrace(cfg, Run(cfg, w, xs), ys, h)
    ensures OrderlyTrace(cfg, w, xs + ys, h)
    decreases xs
  {
    if xs == [] {
      assert xs + ys == ys;
    } else {
      assert (xs + ys)[1..] == xs[1..] + ys;
      OrderlyConcat(cfg, Step(cfg, w, xs[0]), xs[1..], ys, h);
    }
  }

  lemma {:induction false} ConcernedIsOrderly(cfg: Config, w: World, acts: seq<Action>, h: Sid, cid: Cid)
    requires ConcernedFrom(acts, 0, h, cid) && Holds(w, h, cid)
    ensures OrderlyTrace(cfg, w, acts, h) && Holds(Run(cfg, w, acts), h, cid)
    decreases acts
  {
    if acts != [] {
      assert Concerned(acts[0], h, cid);
      ConcernedIsOrderly(cfg, Step(cfg, w, acts[0]), acts[1..], h, cid);
    }
  }

  lemma {:induction false} OthersNeverHold(cfg: Config, w: World, acts: seq<Action>, h: Sid)
    requires forall a | a in acts :: Actor(a) != Some(h)
    ensures h in w.holds <==> h in Run(cfg, w, acts).holds
    ensures OrderlyTrace(cfg, w, acts, h)
    decreases acts
  {
    if acts != [] {
      assert Actor(acts[0]) != Some(h);
      var w1 := Step(cfg, w, acts[0]);
      assert h in w1.holds <==> h in w.holds;
      OthersNeverHold(cfg, w1, acts[1..], h);
    }
  }

  // ----- time -----

  function RefreshInterval(cfg: Config): real {
    if cfg.refreshInterval < 0.1 then 0.1 else cfg.refreshInterval
  }

  // How late a round may be.
  function Slack(cfg: Config): real {
    cfg.guardTtl as real - RefreshInterval(cfg)
  }

  /**
   The settings rule leaves room for lateness, also where the interval is raised to 0.1. The
   loop never sleeps less than that, nor less than configured, and no longer than these two ask for.
   */
  lemma SlackIsPositive(cfg: Config)
    requires cfg.Accepted()
    ensures 0.0 < Slack(cfg)
    ensures var d := RefreshInterval(cfg);
      0.1 <= d && cfg.refreshInterval <= d && (d == 0.1 || d == cfg.refreshInterval)
  {
    assert 1.0 <= cfg.guardTtl as real;
  }

  function Elapsed(acts: seq<Action>): (d: real)
    ensures 0.0 <= d
  {
    if acts == [] then 0.0
    else (if acts[0].Tick? && 0.0 <= acts[0].d then acts[0].d else 0.0) + Elapsed(acts[1..])
  }

  // A round sleeps for the interval and runs the refresh script some time later. Meanwhile
  // anything happens, the session's own messages included.
  datatype Round = Round(late: real, meanwhile: seq<Action>, fate: CallFate)

  predicate WellTimed(cfg: Config, round: Round) {
    0.0 <= round.late && Elapsed(round.meanwhile) == RefreshInterval(cfg) + round.late
  }

  // The session claims under its own conversation's id only.
  predicate OwnClaims(acts: seq<Action>, h: Sid, id: LeaseId) {
    forall i | 0 <= i < |acts| :: acts[i].Claim? && acts[i].h == h ==> acts[i].id == id
  }

  predicate NoRelease(acts: seq<Action>, h: Sid) {
    forall i | 0 <= i < |acts| :: !(acts[i].Release? && acts[i].h == h)
  }

  predicate OnTime(cfg: Config, round: Round) {
    round.late < Slack(cfg)
  }

  predicate Smooth(cfg: Config, round: Round) {
    WellTimed(cfg, round) && OnTime(cfg, round) && round.fate.Returned?
  }

  // The actions of one round whose refresh call returns.
  function RoundTrace(h: Sid, id: LeaseId, round: Round): seq<Action> {
    round.meanwhile + [Claim(h, id, true)]
  }

  // The actions of several such rounds.
  function RoundsTrace(h: Sid, id: LeaseId, rounds: seq<Round>): seq<Action> {
    if rounds == [] then []
    else RoundTrace(h, id, rounds[0]) + RoundsTrace(h, id, rounds[1..])
  }

  // ----- ownership at every moment -----

  ghost predicate OwnedThroughout(cfg: Config, w: World, acts: seq<Action>, h: Sid)
    decreases acts
  {
    Unlapsed(cfg, w, h) && (acts == [] || OwnedThroughout(cfg, Step(cfg, w, acts[0]), acts[1..], h))
  }

  lemma {:induction false} OwnedConcat(cfg: Config, w: World, xs: seq<Action>, ys: seq<Action>, h: Sid)
    requires OwnedThroughout(cfg, w, xs, h) && OwnedThroughout(cfg, Run(cfg, w, xs), ys, h)
    ensures OwnedThroughout(cfg, w, xs + ys, h)
    decreases xs
  {
    if xs == [] {
      assert xs + ys == ys;
    } else {
      assert (xs + ys)[1..] == xs[1..] + ys;
      OwnedConcat(cfg, Step(cfg, w, xs[0]), xs[1..], ys, h);
    }
  }

  // While less than a TTL passes since a moment after the last OWNED reply, the session owns.
  lemma {:induction false} OwnedForATtl(cfg: Config, w: World, acts: seq<Action>, h: Sid, id: LeaseId, since: real)
    requires NoRelease(acts, h) && Holds(w, h, id) && since <= w.holds[h].since <= w.now
    requires w.now + Elapsed(acts) < since + cfg.guardTtl as real
    ensures OwnedThroughout(cfg, w, acts, h)
    ensures var w' := Run(cfg, w, acts);
      Holds(w', h, id) && w'.now == w.now + Elapsed(acts) && since <= w'.holds[h].since <= w'.now
    decreases acts
  {
    if acts != [] {
      assert !(acts[0].Release? && acts[0].h == h);
      OwnedForATtl(cfg, Step(cfg, w, acts[0]), acts[1..], h, id, since);
    }
  }

  lemma {:induction false} HoldSurvives(cfg: Config, w: World, acts: seq<Action>, h: Sid, id: LeaseId)
    requires NoRelease(acts, h) && Holds(w, h, id) && w.holds[h].since <= w.now
    ensures var w' := Run(cfg, w, acts);
      Holds(w', h, id) && w'.holds[h].since <= w'.now
    decreases acts
  {
    if acts != [] {
      assert !(acts[0].Release? && acts[0].h == h);
      HoldSurvives(cfg, Step(cfg, w, acts[0]), acts[1..], h, id);
    }
  }

  // The state right after an OWNED reply.
  predicate JustClaimed(w: World, h: Sid, id: LeaseId) {
    Holds(w, h, id) && w.holds[h].since == w.now
  }

  /** A round that is on time ends with an OWNED reply, and the session owns all through it. */
  lemma RoundIsOwned(cfg: Config, w: World, h: Sid, id: LeaseId, round: Round)
    requires cfg.Accepted() && cfg.Apart() && LeaseInv(cfg, w) && JustClaimed(w, h, id)
    requires NoRelease(round.meanwhile, h) && WellTimed(cfg, round) && OnTime(cfg, round)
    ensures OwnedThroughout(cfg, w, round.meanwhile, h)
    ensures var w1 := Run(cfg, w, round.meanwhile);
      LeaseInv(cfg, w1) && Holds(w1, h, id) && Unlapsed(cfg, w1, h) && ClaimReply(cfg, w1, h, id)
  {
    OwnedForATtl(cfg, w, round.meanwhile, h, id, w.now);
    RunKeepsLeaseInv(cfg, w, round.meanwhile);
  }

  lemma ClaimStep(cfg: Config, w: World, h: Sid, id: LeaseId)
    requires cfg.Accepted() && Holds(w, h, id) && ClaimReply(cfg, w, h, id) && Unlapsed(cfg, w, h)
    ensures var a := Claim(h, id, true);
      JustClaimed(Step(cfg, w, a), h, id) && OwnedThroughout(cfg, w, [a], h)
  {
    var a := Claim(h, id, true);
    assert [a][1..] == [];
    assert OwnedThroughout(cfg, Step(cfg, w, a), [a][1..], h);
  }

  lemma RoundFacts(cfg: Config, w: World, h: Sid, id: LeaseId, round: Round)
    requires cfg.Accepted() && cfg.Apart() && LeaseInv(cfg, w) && JustClaimed(w, h, id)
    requires NoRelease(round.meanwhile, h) && WellTimed(cfg, round)
    ensures var w1 := Run(cfg, w, round.meanwhile);
      var w2 := Step(cfg, w1, Claim(h, id, true));
      && LeaseInv(cfg, w1) && LeaseInv(cfg, w2) && LeaseInv(cfg, Step(cfg, w1, Claim(h, id, false)))
      && Holds(w1, h, id) && (ClaimReply(cfg, w1, h, id) ==> JustClaimed(w2, h, id))
      && w2 == Run(cfg, w, RoundTrace(h, id, round))
      && (OnTime(cfg, round) ==>
            ClaimReply(cfg, w1, h, id) && OwnedThroughout(cfg, w, RoundTrace(h, id, round), h))
  {
    var w1, a := Run(cfg, w, round.meanwhile), Claim(h, id, true);
    RunKeepsLeaseInv(cfg, w, round.meanwhile);
    StepKeepsLeaseInv(cfg, w1, a);
    StepKeepsLeaseInv(cfg, w1, Claim(h, id, false));
    HoldSurvives(cfg, w, round.meanwhile, h, id);
    RunConcat(cfg, w, round.meanwhile, [a]);
    assert Run(cfg, w1, [a]) == Run(cfg, Step(cfg, w1, a), [a][1..]);
    if OnTime(cfg, round) {
      RoundIsOwned(cfg, w, h, id, round);
      ClaimStep(cfg, w1, h, id);
      OwnedConcat(cfg, w, round.meanwhile, [a], h);
    }
  }

  datatype RefreshEnd = StillOwner | StoreFailed | LostLease

  // In the n-th round, after n rounds whose calls returned, the claim finds the key in other hands.
  ghost predicate Denied(cfg: Config, w: World, h: Sid, id: LeaseId, rounds: seq<Round>, n: nat)
    requires n < |rounds|
  {
    TakenByOther(cfg, Run(cfg, w, RoundsTrace(h, id, rounds[..n]) + rounds[n].meanwhile), h, id)
  }

  // The first n rounds return and are not denied.
  ghost predicate Refreshes(cfg: Config, w: World, h: Sid, id: LeaseId, rounds: seq<Round>, n: nat)
    requires n <= |rounds|
  {
    forall i | 0 <= i < n :: rounds[i].fate.Returned? && !Denied(cfg, w, h, id, rounds, i)
  }

  // Where the loop ends, and how.
  ghost predicate EndsAt(
    cfg: Config, w: World, h: Sid, id: LeaseId, rounds: seq<Round>, n: nat, end: RefreshEnd)
  {
    && n <= |rounds| && Refreshes(cfg, w, h, id, rounds, n)
    && match end
       case StillOwner => n == |rounds|
       case StoreFailed => n < |rounds| && rounds[n].fate.Raised?
       case LostLease => n < |rounds| && rounds[n].fate.Returned? && Denied(cfg, w, h, id, rounds, n)
  }

  /** There is one end only. */
  lemma OneEnd(cfg: Config, w: World, h: Sid, id: LeaseId, rounds: seq<Round>,
               n: nat, end: RefreshEnd, n': nat, end': RefreshEnd)
    requires EndsAt(cfg, w, h, id, rounds, n, end) && EndsAt(cfg, w, h, id, rounds, n', end')
    ensures n == n' && end == end'
  {}

  // One round; None when the call raises.
  method RefreshOnce(cluster: Cluster, h: Sid, id: LeaseId, round: Round) returns (owned: Option<bool>)
    requires cluster.Valid() && cluster.cfg.Accepted() && cluster.cfg.Apart() && LeaseInv(cluster.cfg, cluster.w)
    requires JustClaimed(cluster.w, h, id) && NoRelease(round.meanwhile, h) && WellTimed(cluster.cfg, round)
    modifies cluster`w, cluster`trace
    ensures cluster.Valid() && LeaseInv(cluster.cfg, cluster.w)
    ensures owned == if round.fate.Raised? then None
      else Some(!TakenByOther(cluster.cfg, Run(cluster.cfg, old(cluster.w), round.meanwhile), h, id))
    ensures owned.Some? ==>
      && cluster.trace == old(cluster.trace) + RoundTrace(h, id, round)
      && cluster.w == Run(cluster.cfg, old(cluster.w), RoundTrace(h, id, round))
      && (owned.value ==> JustClaimed(cluster.w, h, id))
      && (OnTime(cluster.cfg, round) ==>
            owned.value && OwnedThroughout(cluster.cfg, old(cluster.w), RoundTrace(h, id, round), h))
  {
    RoundFacts(cluster.cfg, cluster.w, h, id, round);
    cluster.LetRun(round.meanwhile);
    var reply := ClaimReply(cluster.cfg, cluster.w, h, id);
    if Effective(round.fate) {
      cluster.Do(ClaimAction(h, id, round.fate));
    }
    if round.fate.Raised? {
      return None;
    }
    return Some(reply);
  }

  /**
   The refresh loop, started right after an OWNED reply. If every round is on time and every
   call returns, the session owns the conversation at every single moment of all the rounds,
   whatever all others do. The loop ends at its first call that raises or finds the key in
   other hands, with one ERROR, and at no other; its own actions never touch a message in
   progress. The endpoint stops the loop before it releases.
   */
  method OwnershipRefreshLoop(cluster: Cluster, h: Sid, id: LeaseId, rounds: seq<Round>)
    returns (end: RefreshEnd, frame: Option<Frame>)
    requires cluster.Valid() && cluster.cfg.Accepted() && cluster.cfg.Apart() && LeaseInv(cluster.cfg, cluster.w)
    requires JustClaimed(cluster.w, h, id)
    requires forall r | r in rounds :: NoRelease(r.meanwhile, h) && WellTimed(cluster.cfg, r)
    modifies cluster`w, cluster`trace
    ensures cluster.Valid() && LeaseInv(cluster.cfg, cluster.w)
    ensures exists n :: EndsAt(cluster.cfg, old(cluster.w), h, id, rounds, n, end)
    ensures end == LostLease ==> exists r :: r in rounds && !OnTime(cluster.cfg, r)
    ensures end == StillOwner ==>
      && JustClaimed(cluster.w, h, id) && cluster.trace == old(cluster.trace) + RoundsTrace(h, id, rounds)
      && RoundsDone(cluster.cfg, old(cluster.w), cluster.w, h, id, rounds)
    ensures frame == match end
      case StillOwner => None
      case StoreFailed => Some(ErrorFrame(DownstreamUnavailable))
      case LostLease => Some(ErrorFrame(SenderConflict))
  {
    ghost var cfg, w0, t0 := cluster.cfg, cluster.w, cluster.trace;
    NoRounds(cfg, w0, t0, h, id, rounds);
    for i := 0 to |rounds|
      invariant cluster.Valid() && LeaseInv(cfg, cluster.w) && JustClaimed(cluster.w, h, id)
      invariant DoneUpTo(cfg, w0, cluster.w, t0, cluster.trace, h, id, rounds, i)
      invariant Refreshes(cfg, w0, h, id, rounds, i)
    {
      ghost var w, t := cluster.w, cluster.trace;
      assert rounds[i] in rounds;
      RunConcat(cfg, w0, RoundsTrace(h, id, rounds[..i]), rounds[i].meanwhile);
      var owned := RefreshOnce(cluster, h, id, rounds[i]);
      if owned.None? {
        assert EndsAt(cfg, w0, h, id, rounds, i, StoreFailed);
        return StoreFailed, Some(ErrorFrame(DownstreamUnavailable));
      }
      if !owned.value {
        assert EndsAt(cfg, w0, h, id, rounds, i, LostLease);
        return LostLease, Some(ErrorFrame(SenderConflict));
      }
      OneMoreRound(cfg, w0, w, t0, t, h, id, rounds, i);
    }
    assert rounds[..|rounds|] == rounds;
    assert EndsAt(cfg, w0, h, id, rounds, |rounds|, StillOwner);
    return StillOwner, None;
  }

  lemma {:induction false} RoundsConcat(h: Sid, id: LeaseId, xs: seq<Round>, ys: seq<Round>)
    ensures RoundsTrace(h, id, xs + ys) == RoundsTrace(h, id, xs) + RoundsTrace(h, id, ys)
  {
    if xs == [] {
      assert xs + ys == ys;
    } else {
      assert (xs + ys)[1..] == xs[1..] + ys;
      RoundsConcat(h, id, xs[1..], ys);
    }
  }

  // The state after the rounds, and the ownership all through them.
  ghost predicate RoundsDone(cfg: Config, w: World, w': World, h: Sid, id: LeaseId, rounds: seq<Round>) {
    var t := RoundsTrace(h, id, rounds);
    w' == Run(cfg, w, t) && ((forall r | r in rounds :: OnTime(cfg, r)) ==> OwnedThroughout(cfg, w, t, h))
  }

  // The loop has gone through the first n rounds.
  ghost predicate DoneUpTo(cfg: Config, w: World, w': World, t: seq<Action>, t': seq<Action>,
                           h: Sid, id: LeaseId, rounds: seq<Round>, n: nat)
    requires n <= |rounds|
  {
    t' == t + RoundsTrace(h, id, rounds[..n]) && RoundsDone(cfg, w, w', h, id, rounds[..n])
  }

  lemma NoRounds(cfg: Config, w: World, t: seq<Action>, h: Sid, id: LeaseId, rounds: seq<Round>)
    requires Unlapsed(cfg, w, h)
    ensures DoneUpTo(cfg, w, w, t, t, h, id, rounds, 0)
  {
    assert rounds[..0] == [] && t + [] == t;
  }

  lemma OneMoreRound(cfg: Config, w: World, w1: World, t: seq<Action>, t1: seq<Action>,
                     h: Sid, id: LeaseId, rounds: seq<Round>, n: nat)
    requires n < |rounds| && DoneUpTo(cfg, w, w1, t, t1, h, id, rounds, n)
    requires OnTime(cfg, rounds[n]) ==> OwnedThroughout(cfg, w1, RoundTrace(h, id, rounds[n]), h)
    ensures var more := RoundTrace(h, id, rounds[n]);
      DoneUpTo(cfg, w, Run(cfg, w1, more), t, t1 + more, h, id, rounds, n + 1)
  {
    var before, more := RoundsTrace(h, id, rounds[..n]), RoundTrace(h, id, rounds[n]);
    assert rounds[..n + 1] == rounds[..n] + [rounds[n]];
    RoundsConcat(h, id, rounds[..n], [rounds[n]]);
    assert RoundsTrace(h, id, [rounds[n]]) == more;
    assert (t + before) + more == t + (before + more);
    RunConcat(cfg, w, before, more);
    if forall r | r in rounds[..n + 1] :: OnTime(cfg, r) {
      forall r | r in rounds[..n] ensures OnTime(cfg, r) {
        assert r in rounds[..n + 1];
      }
      assert rounds[n] in rounds[..n + 1];
      OwnedConcat(cfg, w, before, more, h);
    }
  }

  // ----- all sessions together -----

  ghost predicate TimelyRun(cfg: Config, w: World, acts: seq<Action>, h: Sid)
    decreases acts
  {
    acts == [] || (TimelyFor(cfg, w, acts[0], h) && TimelyRun(cfg, Step(cfg, w, acts[0]), acts[1..], h))
  }

  lemma {:induction false} TimelyConcat(cfg: Config, w: World, xs: seq<Action>, ys: seq<Action>, h: Sid)
    requires TimelyRun(cfg, w, xs, h) && TimelyRun(cfg, Run(cfg, w, xs), ys, h)
    ensures TimelyRun(cfg, w, xs + ys, h)
    decreases xs
  {
    if xs == [] {
      assert xs + ys == ys;
    } else {
      assert (xs + ys)[1..] == xs[1..] + ys;
      TimelyConcat(cfg, Step(cfg, w, xs[0]), xs[1..], ys, h);
    }
  }

  // If the session holds the lease, then under this id, and its last OWNED reply is no older.
  predicate HoldsSince(w: World, h: Sid, id: LeaseId, since: real) {
    h in w.holds ==> w.holds[h].cid == id && since <= w.holds[h].since
  }

  // Less than a TTL after its last claim, whatever the session does is timely.
  lemma {:induction false} TimelyForATtl(cfg: Config, w: World, acts: seq<Action>, h: Sid, id: LeaseId, since: real)
    requires OwnClaims(acts, h, id) && HoldsSince(w, h, id, since) && since <= w.now
    requires w.now + Elapsed(acts) < since + cfg.guardTtl as real
    ensures TimelyRun(cfg, w, acts, h)
    ensures HoldsSince(Run(cfg, w, acts), h, id, since) && Run(cfg, w, acts).now == w.now + Elapsed(acts)
    decreases acts
  {
    if acts != [] {
      assert acts[0].Claim? && acts[0].h == h ==> acts[0].id == id;
      TimelyForATtl(cfg, Step(cfg, w, acts[0]), acts[1..], h, id, since);
    }
  }

  lemma {:induction false} RoundsAreTimely(cfg: Config, w: World, h: Sid, id: LeaseId, rounds: seq<Round>)
    requires cfg.Accepted() && cfg.Apart() && LeaseInv(cfg, w) && HoldsSince(w, h, id, w.now)
    requires forall i | 0 <= i < |rounds| :: Smooth(cfg, rounds[i]) && OwnClaims(rounds[i].meanwhile, h, id)
    ensures var t := RoundsTrace(h, id, rounds);
      && TimelyRun(cfg, w, t, h)
      && var w' := Run(cfg, w, t); HoldsSince(w', h, id, w'.now) && LeaseInv(cfg, w')
    decreases rounds
  {
    if rounds != [] {
      var m, a, rest := rounds[0].meanwhile, Claim(h, id, true), RoundsTrace(h, id, rounds[1..]);
      var w1 := Run(cfg, w, m);
      var w2 := Step(cfg, w1, a);
      assert Smooth(cfg, rounds[0]) && OwnClaims(m, h, id);
      TimelyForATtl(cfg, w, m, h, id, w.now);
      RunKeepsLeaseInv(cfg, w, m);
      StepKeepsLeaseInv(cfg, w1, a);
      assert [a][1..] == [];
      assert Run(cfg, w1, [a]) == Run(cfg, w2, [a][1..]);
      assert TimelyRun(cfg, w2, [a][1..], h);
      RoundsAreTimely(cfg, w2, h, id, rounds[1..]);
      TimelyConcat(cfg, w, m, [a], h);
      RunConcat(cfg, w, m, [a]);
      TimelyConcat(cfg, w, m + [a], rest, h);
      RunConcat(cfg, w, m + [a], rest);
    }
  }

  // The session handles no message and will handle none.
  predicate Retired(w: World, acts: seq<Action>, h: Sid) {
    h !in w.busy
    && forall i | 0 <= i < |acts| :: !((acts[i].Prepare? || acts[i].StrayPrepare?) && acts[i].h == h)
  }

  lemma {:induction false} RetiredIsTimely(cfg: Config, w: World, acts: seq<Action>, h: Sid)
    requires Retired(w, acts, h)
    ensures TimelyRun(cfg, w, acts, h)
    decreases acts
  {
    if acts != [] {
      assert !((acts[0].Prepare? || acts[0].StrayPrepare?) && acts[0].h == h);
      RetiredIsTimely(cfg, Step(cfg, w, acts[0]), acts[1..], h);
    }
  }

  // The session takes no part, or its claims lose their replies.
  predicate NeverTold(acts: seq<Action>, h: Sid) {
    forall i | 0 <= i < |acts| :: acts[i].Claim? && acts[i].h == h ==> !acts[i].delivered
  }

  lemma {:induction false} NeverToldIsTimely(cfg: Config, w: World, acts: seq<Action>, h: Sid)
    requires h !in w.holds && NeverTold(acts, h)
    ensures TimelyRun(cfg, w, acts, h) && h !in Run(cfg, w, acts).holds
    decreases acts
  {
    if acts != [] {
      assert acts[0].Claim? && acts[0].h == h ==> !acts[0].delivered;
      NeverToldIsTimely(cfg, Step(cfg, w, acts[0]), acts[1..], h);
    }
  }

  // A session's life within a run: what happens before its claim, the rounds of its refresh
  // loop, what follows the last refresh until its last message ends, and the rest.
  datatype Life = Life(id: LeaseId, before: seq<Action>, rounds: seq<Round>, tail: seq<Action>, rest: seq<Action>)

  function LifeTrace(h: Sid, l: Life): seq<Action> {
    l.before + [Claim(h, l.id, true)] + RoundsTrace(h, l.id, l.rounds) + l.tail
  }

  // All rounds are on time and their calls return, and the last message ends within a TTL of
  // the last refresh.
  predicate Refreshed(cfg: Config, w: World, acts: seq<Action>, h: Sid, l: Life) {
    && acts == LifeTrace(h, l) + l.rest
    && NeverTold(l.before, h)
    && (forall i | 0 <= i < |l.rounds| :: Smooth(cfg, l.rounds[i]) && OwnClaims(l.rounds[i].meanwhile, h, l.id))
    && OwnClaims(l.tail, h, l.id) && Elapsed(l.tail) < cfg.guardTtl as real
    && Retired(Run(cfg, w, LifeTrace(h, l)), l.rest, h)
  }

  // The session is never told that it owns, or it refreshes its lease while it handles messages.
  ghost predicate KeptAlive(cfg: Config, w: World, acts: seq<Action>, h: Sid) {
    || NeverTold(acts, h)
    || exists l :: Refreshed(cfg, w, acts, h, l)
  }

  lemma RefreshedIsTimely(cfg: Config, w: World, acts: seq<Action>, h: Sid, l: Life)
    requires cfg.Accepted() && cfg.Apart() && LeaseInv(cfg, w) && h !in w.holds
    requires Refreshed(cfg, w, acts, h, l)
    ensures TimelyRun(cfg, w, acts, h)
  {
    var a, rounds := Claim(h, l.id, true), RoundsTrace(h, l.id, l.rounds);
    var w1 := Run(cfg, w, l.before);
    var w2 := Step(cfg, w1, a);
    NeverToldIsTimely(cfg, w, l.before, h);
    RunKeepsLeaseInv(cfg, w, l.before);
    StepKeepsLeaseInv(cfg, w1, a);
    assert [a][1..] == [];
    assert Run(cfg, w1, [a]) == Run(cfg, w2, [a][1..]);
    assert TimelyRun(cfg, w2, [a][1..], h);
    TimelyConcat(cfg, w, l.before, [a], h);
    RunConcat(cfg, w, l.before, [a]);
    RoundsAreTimely(cfg, w2, h, l.id, l.rounds);
    TimelyConcat(cfg, w, l.before + [a], rounds, h);
    RunConcat(cfg, w, l.before + [a], rounds);
    var w3 := Run(cfg, w2, rounds);
    TimelyForATtl(cfg, w3, l.tail, h, l.id, w3.now);
    TimelyConcat(cfg, w, l.before + [a] + rounds, l.tail, h);
    RunConcat(cfg, w, l.before + [a] + rounds, l.tail);
    RetiredIsTimely(cfg, Run(cfg, w, LifeTrace(h, l)), l.rest, h);
    TimelyConcat(cfg, w, LifeTrace(h, l), l.rest, h);
  }

  lemma {:induction false} OrderlyAndTimelyIsDisciplined(cfg: Config, w: World, acts: seq<Action>)
    requires forall h :: OrderlyTrace(cfg, w, acts, h) && TimelyRun(cfg, w, acts, h)
    ensures DisciplinedRun(cfg, w, acts)
    decreases acts
  {
    if acts != [] {
      var w1 := Step(cfg, w, acts[0]);
      forall h ensures OrderlyTrace(cfg, w1, acts[1..], h) && TimelyRun(cfg, w1, acts[1..], h) {
        assert OrderlyTrace(cfg, w, acts, h) && TimelyRun(cfg, w, acts, h);
      }
      forall h ensures TimelyFor(cfg, w, acts[0], h) {
        assert TimelyRun(cfg, w, acts, h);
      }
      var actor := Actor(acts[0]);
      assert actor.Some? ==> OrderlyTrace(cfg, w, acts, actor.value);
      OrderlyAndTimelyIsDisciplined(cfg, w1, acts[1..]);
    }
  }

  /**
   Sessions that keep the endpoint's order and whose refresh rounds are on time and return
   leave at most one handler per conversation, at every moment of the run.
   */
  lemma RefreshedSessionsAreExclusive(cfg: Config, init: World, acts: seq<Action>, cid: Cid)
    requires cfg.Accepted() && cfg.Apart() && Initial(init)
    requires forall h :: OrderlyTrace(cfg, init, acts, h) && KeptAlive(cfg, init, acts, h)
    ensures DisciplinedRun(cfg, init, acts)
    ensures forall n | 0 <= n <= |acts| :: OneHandler(Run(cfg, init, acts[..n]), cid)
  {
    forall h ensures OrderlyTrace(cfg, init, acts, h) && TimelyRun(cfg, init, acts, h) {
      assert OrderlyTrace(cfg, init, acts, h) && KeptAlive(cfg, init, acts, h);
      if NeverTold(acts, h) {
        NeverToldIsTimely(cfg, init, acts, h);
      } else {
        var l :| Refreshed(cfg, init, acts, h, l);
        RefreshedIsTimely(cfg, init, acts, h, l);
      }
    }
    OrderlyAndTimelyIsDisciplined(cfg, init, acts);
    LeaseGivesOneHandler(cfg, init, acts, cid);
  }
}
