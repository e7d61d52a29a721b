/**
 What the fleet's invariants mean: for every reachable state of every run, over any number of
 profiles, with crashes, failing writes and other writers anywhere in between.
 */
module FleetResults {
  import opened Profile
  import opened Step
  import opened RateLimiter
  import opened Plans
  import opened Legality
  import opened RunShape
  import opened Fleet
  import History

  ghost predicate Reachable(trace: seq<Fleet>, events: seq<Event>, n: nat) {
    Run(trace, events) && n < |trace|
  }

  lemma MemberIsRight(trace: seq<Fleet>, events: seq<Event>, n: nat, name: string)
    requires Reachable(trace, events, n) && name in trace[n].members
    ensures MemberRight(trace[n].members[name], Key(name), trace[n].max, trace[n].now)
  {
    hide Run, MemberRight, TokensRight, TokensDistinct;
    EveryRunKeepsInv(trace, events, n);
  }

  /** The store holds an entry of a profile only while a worker of it is at work and its
      stored state is Enacting a Move; no two profiles share an entry. */
  lemma HintOnlyWhileMoving(trace: seq<Fleet>, events: seq<Event>, n: nat, name: string)
    requires Reachable(trace, events, n) && name in trace[n].members && Key(name) in trace[n].hints
    ensures var m := trace[n].members[name];
            m.worker.Do? && m.profile.rs.state.Enacting? && m.profile.rs.action.Move?
    ensures forall o :: Key(o) == Key(name) ==> o == name
  {
    forall o ensures Key(o) == Key(name) ==> o == name { KeysDiffer(o, name); }
    MemberIsRight(trace, events, n, name);
    EveryRunKeepsInv(trace, events, n);
    hide Run, TokensRight, TokensDistinct, MembersRight, Replay, Key;
  }

  /** No reachable state is both escalated and mid-cycle, so the escalation pause never hides a
      stuck cycle: whatever interrupted it, the next Reconcile of the enabled profile leaves it
      alone while it is young and otherwise brings it home with one transition. */
  lemma StuckCyclesAlwaysRecover(trace: seq<Fleet>, events: seq<Event>, n: nat, name: string, env: Env, granted: bool, id: nat)
    requires Reachable(trace, events, n) && name in trace[n].members
    ensures var f := trace[n];
            var p := f.members[name].profile;
            && !(p.rs.escalated && p.rs.state.MidCycle())
            && (p.spec.enabled && p.rs.state.MidCycle() ==>
                  var plan := ReconcilePlan(f.cfg, Key(name), p, env, granted);
                  if env.now - p.rs.lastTransitionAt < f.cfg.Stale() then plan == Done
                  else && plan.Do? && plan.rest == Done && plan.effect.Write?
                       && RecoveredBy(p, f.max, plan.effect.req, env.now, id))
  {
    MemberIsRight(trace, events, n, name);
    var f := trace[n];
    var p := f.members[name].profile;
    if p.spec.enabled && p.rs.state.MidCycle() {
      WatchdogRecovers(f.cfg, Key(name), p, env, granted, f.max, env.now, id);
    }
    hide Run, Replay, Accepts, ReconcilePlan, RecoveredBy;
  }

  /** Off rest it is the time since the profile's last committed transition or migration, as its
      log has it, that decides: before the configured threshold, 15 minutes by default, whatever
      Reconcile sees it leaves the profile alone, and from then on it acts on an enabled one. */
  lemma CyclesAreTimedByLog(trace: seq<Fleet>, events: seq<Event>, n: nat, name: string, env: Env, granted: bool)
    requires Reachable(trace, events, n) && name in trace[n].members
    ensures var f, m := trace[n], trace[n].members[name];
            m.profile.rs.state != Unset && m.profile.rs.state != Watching ==>
              (ReconcilePlan(f.cfg, Key(name), m.profile, env, granted) != Done <==>
                 && m.profile.spec.enabled && !m.profile.rs.escalated
                 && env.now - History.StampedAt(m.start, m.log)
                    >= if f.cfg.staleThreshold <= 0 then 15 * 60 else f.cfg.staleThreshold)
  {
    hide Run, Replay, Accepts, ReconcilePlan;
    MemberIsRight(trace, events, n, name);
    var f, m := trace[n], trace[n].members[name];
    History.StatusIsFunctionOfLog(m.start, f.max, m.log);
    ActsIff(f.cfg, Key(name), m.profile, env, granted);
  }

  /** The writer refuses a worker's transition if and only if that is the watchdog's for a profile
      that started on a legacy state and is not in a cycle. Pods and the workload are touched only
      while the stored state is Enacting the action that touches them, never under dry run but for
      the bypass. */
  lemma StoredStateCoversEffects(trace: seq<Fleet>, events: seq<Event>, n: nat, name: string, id: nat)
    requires Reachable(trace, events, n) && name in trace[n].members && trace[n].members[name].worker.Do?
    ensures var f := trace[n];
            var m := f.members[name];
            var rs, effect := m.profile.rs, m.worker.effect;
            && (effect.Write? ==> (Apply(m.profile, f.max, Transition(effect.req, f.now, id)).Some? <==> !Doomed(m)))
            && (Doomed(m) ==> m.start.rs.state.Legacy? && !rs.state.MidCycle())
            && (effect.TouchesCluster() ==>
                  && rs.state.Enacting?
                  && (effect.DeletePod? || !m.dry)
                  && rs.action == (match effect
                                   case DeletePod(_) => Retry
                                   case Evict(_) => Move
                                   case SetReplicas(_) => AdjustReplicas
                                   case _ => AdjustResources))
            && (effect.TakeToken? ==> rs.state.Decided? && rs.action.Move? && !m.dry)
  {
    MemberIsRight(trace, events, n, name);
    var f := trace[n];
    var m := f.members[name];
    if m.worker.effect.Write? { RefusedIffDoomed(m, Key(name), f.max, f.now, id); }
    hide Run, Replay, Apply;
  }

  /** Whatever crashes, fails or writes in between, a profile's status is what its own log of
      commits says, whatever it started from, and its cycles are accounted for. */
  lemma EveryProfileKeepsItsAccounts(trace: seq<Fleet>, events: seq<Event>, n: nat, name: string)
    requires Reachable(trace, events, n) && name in trace[n].members
    ensures var m := trace[n].members[name];
            && History.Agrees(m.start, trace[n].max, m.log, m.profile)
            && History.InFlight(m.start) + History.Begun(m.log) == History.Ended(m.log) + History.InFlight(m.profile)
  {
    hide Run, Replay, Accepts, History.Agrees, History.Begun, History.Ended;
    MemberIsRight(trace, events, n, name);
    var m := trace[n].members[name];
    History.StatusIsFunctionOfLog(m.start, trace[n].max, m.log);
    History.CycleAccounting(m.start, trace[n].max, m.log);
  }

  // ----- the cluster-wide bound on moves -----

  ghost predicate AllDifferent(s: seq<nat>) {
    forall i, j :: 0 <= i < j < |s| ==> s[i] != s[j]
  }

  lemma {:induction false} DistinctBelow(s: seq<nat>, bound: nat)
    requires AllDifferent(s)
    requires forall i :: 0 <= i < |s| ==> s[i] < bound
    ensures |s| <= bound
    decreases bound
  {
    if s != [] {
      assert s[0] < bound;
      if bound - 1 in s {
        var i :| 0 <= i < |s| && s[i] == bound - 1;
        DistinctBelow(Without(s, i), bound - 1);
      } else {
        assert forall i :: 0 <= i < |s| ==> s[i] in s;
        DistinctBelow(s, bound - 1);
      }
    }
  }

  function Without(s: seq<nat>, i: nat): (t: seq<nat>)
    requires i < |s|
    ensures |t| == |s| - 1
    ensures forall k :: 0 <= k < |t| ==> t[k] == if k < i then s[k] else s[k + 1]
    ensures AllDifferent(s) ==> AllDifferent(t) && forall k :: 0 <= k < |t| ==> t[k] != s[i]
  {
    s[..i] + s[i + 1..]
  }

  /** Each real Move that is stored as Enacting spends a token of its own, granted and due
      before, and spent by no other. */
  lemma EveryRealMoveSpends(trace: seq<Fleet>, events: seq<Event>, n: nat, name: string, id: nat)
    requires Reachable(trace, events, n) && n < |events|
    requires events[n] == Perform(name, id) || events[n] == LoseWrite(name, id, true)
    requires StartsRealMove(trace[n].members[name])
    ensures var f, g := trace[n], trace[n + 1];
            && g.members[name].profile.rs.state.Enacting? && g.members[name].profile.rs.action.Move?
            && exists token :: g.moves == f.moves + [token] && token !in f.moves && Usable(f, token)
  {
    var f := trace[n];
    MemberIsRight(trace, events, n, name);
    EveryRunKeepsInv(trace, events, n);
    assert Enabled(f, events[n]) && trace[n + 1] == Next(f, events[n]);
    var m := f.members[name];
    RefusedIffDoomed(m, Key(name), f.max, f.now, id);
    assert m.token.Some? && trace[n + 1].moves == f.moves + [m.token.value];
    assert !m.profile.rs.state.Enacting?;
    assert Holds(m) == m.token;
    hide Run, MemberRight, Replay, Accepts, InStep, Usable, Enabled;
  }

  /** Over all profiles, the real moves since the process started are at most the limit plus
      what the limit allows for the time passed. */
  lemma MovesAreBounded(trace: seq<Fleet>, events: seq<Event>, n: nat)
    requires Reachable(trace, events, n)
    ensures var f := trace[n];
            f.bucket.limit > 0 && |f.moves| <= f.bucket.limit + f.bucket.limit * (f.now - f.startedAt) / 60
  {
    var f := trace[n];
    EveryRunKeepsInv(trace, events, n);
    hide Run, MembersRight, HintsRight;
    var limit := f.bucket.limit;
    var bound := limit + limit * (f.now - f.startedAt) / 60;
    assert 0 <= limit * (f.now - f.startedAt);
    forall i | 0 <= i < |f.moves|
      ensures f.moves[i] < bound
    {
      assert Usable(f, f.moves[i]);
      PrefixBound(limit, f.startedAt, f.grants, f.moves[i], f.now);
    }
    DistinctBelow(f.moves, bound);
  }
}
