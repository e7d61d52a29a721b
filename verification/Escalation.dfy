/** How many failing cycles a profile runs before the loop pauses itself. */
module Escalation {
  import opened Profile
  import opened StateMachine
  import opened Step
  import opened StateWriter
  import opened Triggers
  import opened Plans
  import opened Legality
  import opened RunShape
  import opened History

  /** The clock and the fresh id drawn by the k-th transition of a cycle. */
  type Stamps = nat -> (int, nat)

  /** The profile after all transitions of a plan, none failing; None if one is refused. */
  function After(p: Profile, max: nat, plan: Plan, stamps: Stamps, k: nat): Option<Profile>
    decreases plan
  {
    match plan
    case Done => Some(p)
    case Do(effect, rest) =>
      if !effect.Write? then After(p, max, rest, stamps, k)
      else
        var next := Apply(p, max, Transition(effect.req, stamps(k).0, stamps(k).1));
        if next.None? then None else After(next.value, max, rest, stamps, k + 1)
  }

  /** The profile rests with the one outcome settled, and one record of it in front of the
      history: the one of the cycle that was under way. */
  ghost predicate EndsWith(p: Profile, max: nat, q: Profile, outcome: Outcome) {
    && q.spec == p.spec
    && q.rs.state.Watching?
    && q.rs.consecutiveFailures == (if CountsAsFailure(outcome) then p.rs.consecutiveFailures + 1 else 0)
    && q.rs.escalated == (p.rs.escalated || outcome == Escalated || q.rs.consecutiveFailures >= Limit(p.spec))
    && exists d :: FiledFor(p, max, q, outcome, d)
  }

  ghost predicate FiledFor(p: Profile, max: nat, q: Profile, outcome: Outcome, d: Decision) {
    && q.rs.recentDecisions == Prepend(d, p.rs.recentDecisions, max)
    && d.outcome == (if q.rs.consecutiveFailures >= Limit(p.spec) then Escalated else outcome)
    && d.decisionId == q.rs.decisionId && d.startedAt == q.rs.startedAt
    && d.action == q.rs.action && d.reason == q.rs.reason && d.lastTransitionAt == q.rs.lastTransitionAt
  }

  lemma EndingFiles(p: Profile, max: nat, req: Request, now: int, id: nat)
    requires p.rs.state.MidCycle() && req.to.Watching? && req.outcome.Some?
    ensures Apply(p, max, Transition(req, now, id)).Some?
    ensures EndsWith(p, max, Apply(p, max, Transition(req, now, id)).value, req.outcome.value)
  {
    TableByRank(p.rs.state, req.to);
    var q := Apply(p, max, Transition(req, now, id)).value;
    assert FiledFor(p, max, q, req.outcome.value, TerminalRecord(p.spec, p.rs, req, now));
  }

  lemma OtherStepsFileNothing(p: Profile, max: nat, req: Request, now: int, id: nat)
    requires IsValidTransition(p.rs.state, req.to) && !req.to.Watching?
    ensures Apply(p, max, Transition(req, now, id)).Some?
    ensures var q := Apply(p, max, Transition(req, now, id)).value;
            && q.rs.state == req.to && q.rs.action == ActionAfter(p.rs.action, req)
            && q.spec == p.spec && q.rs.recentDecisions == p.rs.recentDecisions
            && q.rs.consecutiveFailures == p.rs.consecutiveFailures && q.rs.escalated == p.rs.escalated
  {
  }

  /** No transition of a legal plan is refused, and the profile ends at rest with the one
      outcome settled and filed. */
  lemma {:induction false} LegalPlanCompletes(p: Profile, max: nat, st: Stage, key: string, dry: bool, plan: Plan, stamps: Stamps, k: nat)
    requires plan.Do? && Accepts(st, key, dry, plan) && st.state == p.rs.state && st.action == p.rs.action
    ensures var q := After(p, max, plan, stamps, k);
            q.Some? && |Outcomes(plan)| == 1 && EndsWith(p, max, q.value, Outcomes(plan)[0])
    decreases plan
  {
    hide Apply, EndsWith, FiledFor;
    var next := StageAfter(st, plan.effect);
    OnlyRestEnds(next, key, dry, plan.rest);
    if !plan.effect.Write? {
      LegalPlanCompletes(p, max, next, key, dry, plan.rest, stamps, k);
    } else if plan.effect.req.to.Watching? {
      TableByRank(p.rs.state, plan.effect.req.to);
      EndingFiles(p, max, plan.effect.req, stamps(k).0, stamps(k).1);
    } else {
      OtherStepsFileNothing(p, max, plan.effect.req, stamps(k).0, stamps(k).1);
      var q := Apply(p, max, Transition(plan.effect.req, stamps(k).0, stamps(k).1)).value;
      LegalPlanCompletes(q, max, next, key, dry, plan.rest, stamps, k + 1);
      EndsAlike(p, q, max, After(p, max, plan, stamps, k).value, Outcomes(plan)[0]);
    }
  }

  lemma EndsAlike(p: Profile, mid: Profile, max: nat, q: Profile, outcome: Outcome)
    requires mid.spec == p.spec && mid.rs.recentDecisions == p.rs.recentDecisions
    requires mid.rs.consecutiveFailures == p.rs.consecutiveFailures && mid.rs.escalated == p.rs.escalated
    requires EndsWith(mid, max, q, outcome)
    ensures EndsWith(p, max, q, outcome)
  {
    var d :| FiledFor(mid, max, q, outcome, d);
    assert FiledFor(p, max, q, outcome, d);
  }

  /** The next `count` transition calls are undisturbed. */
  predicate Smooth(rounds: seq<seq<Round>>, k: nat, count: nat) {
    forall i :: k <= i < k + count ==> Undisturbed(RoundsAt(rounds, i))
  }

  function StampsOf(rounds: seq<seq<Round>>): Stamps {
    (i: nat) => var call := RoundsAt(rounds, i); if call == [] then (0, 0) else (call[0].now, call[0].id)
  }

  /** Where no call is disturbed, running the plan against the object is the plan's own steps. */
  lemma {:induction false} ExecIsAfter(p: Profile, max: nat, plan: Plan, rounds: seq<seq<Round>>, k: nat)
    requires Smooth(rounds, k, |Visited(plan)|) && After(p, max, plan, StampsOf(rounds), k).Some?
    ensures Some(Exec(p, max, plan, rounds, k).profile) == After(p, max, plan, StampsOf(rounds), k)
    decreases plan
  {
    hide Apply, Attempts, Replay;
    if plan.Do? {
      if !plan.effect.Write? {
        ExecIsAfter(p, max, plan.rest, rounds, k);
      } else {
        var call := RoundsAt(rounds, k);
        assert Undisturbed(call);
        assert StampsOf(rounds)(k) == (call[0].now, call[0].id);
        UndisturbedCommits(p, max, plan.effect.req, RoundsAt(rounds, k));
        ExecIsAfter(AfterCall(p, max, plan.effect.req, RoundsAt(rounds, k)), max, plan.rest, rounds, k + 1);
      }
    }
  }

  /** A Reconcile that starts a cycle from the stored profile and meets no writer error stores
      exactly one more record and leaves the profile in Watching. */
  lemma CompletedCycleIsFiled(cfg: Config, key: string, p: Profile, env: Env, granted: bool, max: nat, k: nat)
    requires StartsCycle(p, env)
    requires Smooth(env.rounds, k, |Visited(ReconcilePlan(cfg, key, p, env, granted))|)
    ensures var plan := ReconcilePlan(cfg, key, p, env, granted);
            |Outcomes(plan)| == 1 && EndsWith(p, max, Exec(p, max, plan, env.rounds, k).profile, Outcomes(plan)[0])
  {
    hide EndsWith, Exec, After, Accepts, Outcomes, Smooth, VerdictOf;
    var plan := ReconcilePlan(cfg, key, p, env, granted);
    RunShape.RunShape(cfg, key, p, env, granted);
    EveryPlanIsLegal(cfg, key, p, env, granted);
    var st := Stage(p.rs.state, p.rs.action, false, false);
    LegalPlanCompletes(p, max, st, key, p.spec.dryRun, plan, StampsOf(env.rounds), k);
    ExecIsAfter(p, max, plan, env.rounds, k);
  }

  datatype Cycle = Cycle(env: Env, granted: bool, stamps: Stamps)

  function PlanOf(cfg: Config, key: string, p: Profile, c: Cycle): Plan {
    ReconcilePlan(cfg, key, p, c.env, c.granted)
  }

  /** A run of Reconciles each of which starts a cycle that ends Failed or Deferred. */
  predicate FailingRun(cfg: Config, key: string, max: nat, p: Profile, cycles: seq<Cycle>)
    decreases |cycles|
  {
    cycles == [] ||
    var plan := PlanOf(cfg, key, p, cycles[0]);
    && plan.Do?
    && |Outcomes(plan)| == 1 && CountsAsFailure(Outcomes(plan)[0])
    && var next := After(p, max, plan, cycles[0].stamps, 0);
       next.Some? && FailingRun(cfg, key, max, next.value, cycles[1..])
  }

  function RunEnd(cfg: Config, key: string, max: nat, p: Profile, cycles: seq<Cycle>): Profile
    requires FailingRun(cfg, key, max, p, cycles)
    decreases |cycles|
  {
    if cycles == [] then p
    else RunEnd(cfg, key, max, After(p, max, PlanOf(cfg, key, p, cycles[0]), cycles[0].stamps, 0).value, cycles[1..])
  }

  /** How many failing cycles are left before the pause: the threshold less the streak, and
      never fewer than one. */
  function Budget(p: Profile): nat {
    if Limit(p.spec) - p.rs.consecutiveFailures <= 1 then 1 else Limit(p.spec) - p.rs.consecutiveFailures
  }

  /** An unescalated profile at rest runs at most its budget of failing cycles in a row; the
      one that uses it up escalates the profile, and none before does. */
  lemma {:induction false} FailingCyclesAreCapped(cfg: Config, key: string, max: nat, p: Profile, cycles: seq<Cycle>)
    requires p.rs.state.Resting() && !p.rs.escalated
    requires FailingRun(cfg, key, max, p, cycles)
    ensures |cycles| <= Budget(p)
    ensures var q := RunEnd(cfg, key, max, p, cycles);
            && q.rs.state.Resting() && q.spec == p.spec
            && q.rs.consecutiveFailures == p.rs.consecutiveFailures + |cycles|
            && (q.rs.escalated <==> |cycles| == Budget(p))
    decreases |cycles|
  {
    hide Accepts, After, Outcomes, ReconcilePlan;
    if cycles != [] {
      var c := cycles[0];
      var plan := PlanOf(cfg, key, p, c);
      EveryPlanIsLegal(cfg, key, p, c.env, c.granted);
      LegalPlanCompletes(p, max, Stage(p.rs.state, p.rs.action, false, false), key, p.spec.dryRun, plan, c.stamps, 0);
        var q := After(p, max, plan, c.stamps, 0).value;
      OnlyUnescalatedRun(cfg, key, max, q, cycles[1..]);
      if q.rs.escalated {
      } else {
        FailingCyclesAreCapped(cfg, key, max, q, cycles[1..]);
      }
    }
  }

  lemma OnlyUnescalatedRun(cfg: Config, key: string, max: nat, p: Profile, cycles: seq<Cycle>)
    requires FailingRun(cfg, key, max, p, cycles)
    ensures p.rs.escalated ==> cycles == []
  {
  }

  /** Short of the budget the run goes on: every further cycle that starts and ends failing
      extends it, so it stops only by escalating. */
  lemma {:induction false} FailingRunExtends(cfg: Config, key: string, max: nat, p: Profile, cycles: seq<Cycle>, next: Cycle)
    requires p.rs.state.Resting() && !p.rs.escalated
    requires FailingRun(cfg, key, max, p, cycles) && |cycles| < Budget(p)
    requires var plan := PlanOf(cfg, key, RunEnd(cfg, key, max, p, cycles), next);
             plan.Do? && |Outcomes(plan)| == 1 && CountsAsFailure(Outcomes(plan)[0])
    ensures FailingRun(cfg, key, max, p, cycles + [next])
    decreases |cycles|
  {
    hide Accepts, After, Outcomes, ReconcilePlan;
    FailingCyclesAreCapped(cfg, key, max, p, cycles);
    var c := if cycles == [] then next else cycles[0];
    var plan := PlanOf(cfg, key, p, c);
    EveryPlanIsLegal(cfg, key, p, c.env, c.granted);
    LegalPlanCompletes(p, max, Stage(p.rs.state, p.rs.action, false, false), key, p.spec.dryRun, plan, c.stamps, 0);
    if cycles == [] {
      assert cycles + [next] == [next] && [next][1..] == [];
    } else {
      var q := After(p, max, plan, c.stamps, 0).value;
      assert (cycles + [next])[1..] == cycles[1..] + [next];
      FailingCyclesAreCapped(cfg, key, max, p, [c]);
      if |cycles| > 1 { OnlyUnescalatedRun(cfg, key, max, q, cycles[1..]); }
      FailingRunExtends(cfg, key, max, q, cycles[1..], next);
    }
  }

  /** An agent out of reach makes every cycle that starts on the AI path such a cycle. */
  lemma UnreachableAgentFails(cfg: Config, key: string, p: Profile, c: Cycle)
    requires StartsCycle(p, c.env) && !TakesBypass(p, c.env) && !c.env.agent.Answered?
    ensures var plan := PlanOf(cfg, key, p, c);
            plan.Do? && |Outcomes(plan)| == 1 && CountsAsFailure(Outcomes(plan)[0])
  {
    RunShape.RunShape(cfg, key, p, c.env, c.granted);
  }

  /** A human who clears the flag and the streak of a profile that escalated on its streak buys
      a full threshold of failing cycles, one who clears only the flag exactly one: no more run,
      and with the last of them the profile is escalated again. */
  lemma ClearsBuy(cfg: Config, key: string, max: nat, p: Profile, resetStreak: bool, cycles: seq<Cycle>)
    requires p.rs.state.Resting() && p.rs.consecutiveFailures >= Limit(p.spec)
    requires FailingRun(cfg, key, max, Apply(p, max, Clear(resetStreak)).value, cycles)
    ensures var q, bought := Apply(p, max, Clear(resetStreak)).value, if resetStreak then Limit(p.spec) else 1;
            |cycles| <= bought && (RunEnd(cfg, key, max, q, cycles).rs.escalated <==> |cycles| == bought)
  {
    FailingCyclesAreCapped(cfg, key, max, Apply(p, max, Clear(resetStreak)).value, cycles);
    hide FailingRun, RunEnd;
  }
}
