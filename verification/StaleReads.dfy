/**
 What the outer read of Reconcile must be fresh for. The writer re-reads the object itself,
 but checks only the state; the escalation flag is checked by Reconcile alone, on the copy
 that it was handed.
 */
module StaleReads {
  import opened Profile
  import opened StateMachine
  import opened Step
  import opened Triggers
  import opened Plans
  import opened Legality
  import opened RunShape
  import opened Escalation

  predicate Masked(p: Profile) { p.rs.escalated && p.rs.state.MidCycle() }

  /** A commit makes a profile both escalated and mid-cycle exactly when it is a transition to
      Triggered that finds the profile escalated. */
  lemma MaskedIff(p: Profile, max: nat, w: Write)
    requires !Masked(p) && Apply(p, max, w).Some?
    ensures Masked(Apply(p, max, w).value) <==> p.rs.escalated && w.Transition? && w.req.to.Triggered?
  {
    if w.Transition? { TableByRank(p.rs.state, w.req.to); }
  }

  /** The profile as a whole Reconcile from `p` leaves it, no writer error in between. */
  function AfterReconcile(cfg: Config, key: string, max: nat, p: Profile, c: Cycle): Option<Profile> {
    After(p, max, PlanOf(cfg, key, p, c), c.stamps, 0)
  }

  /** Let `first` be any cycle run from `seen` that escalates the profile. A Reconcile that then
      starts a cycle from the old copy stores Triggered on the escalated profile; should it be
      interrupted there, no later Reconcile, however late and whatever it sees of the world,
      recovers the cycle. */
  lemma StaleStartIsNeverRecovered(cfg: Config, key: string, max: nat, seen: Profile, first: Cycle, stale: Cycle)
    requires StartsCycle(seen, first.env) && StartsCycle(seen, stale.env)
    requires AfterReconcile(cfg, key, max, seen, first).Some? && AfterReconcile(cfg, key, max, seen, first).value.rs.escalated
    ensures var stored := AfterReconcile(cfg, key, max, seen, first).value;
            var plan := PlanOf(cfg, key, seen, stale);
            && plan.Do? && plan.effect.Write?
            && var after := Apply(stored, max, Transition(plan.effect.req, stale.stamps(0).0, stale.stamps(0).1));
               && after.Some? && Masked(after.value)
               && forall later :: PlanOf(cfg, key, after.value, later) == Done
  {
    hide VerdictOf, Accepts, Outcomes;
    BypassIsRetry(seen.spec, stale.env.world);
    var plan := PlanOf(cfg, key, seen, first);
    RunShape.RunShape(cfg, key, seen, first.env, first.granted);
    EveryPlanIsLegal(cfg, key, seen, first.env, first.granted);
    assert plan.Do?;
    LegalPlanCompletes(seen, max, Stage(seen.rs.state, seen.rs.action, false, false), key, seen.spec.dryRun, plan, first.stamps, 0);
    StaleStartMasks(cfg, key, max, seen, AfterReconcile(cfg, key, max, seen, first).value, stale);
  }

  lemma StaleStartMasks(cfg: Config, key: string, max: nat, seen: Profile, stored: Profile, stale: Cycle)
    requires StartsCycle(seen, stale.env) && stored.rs.escalated && stored.rs.state.Watching?
    ensures var plan := PlanOf(cfg, key, seen, stale);
            && plan.Do? && plan.effect.Write?
            && var after := Apply(stored, max, Transition(plan.effect.req, stale.stamps(0).0, stale.stamps(0).1));
               && after.Some? && Masked(after.value)
               && forall later :: PlanOf(cfg, key, after.value, later) == Done
  {
    BypassIsRetry(seen.spec, stale.env.world);
    hide VerdictOf, Accepts, Outcomes;
  }

  /** There is such a cycle: every one in which the agent answers Escalate. */
  lemma EscalateAnswerEscalates(cfg: Config, key: string, max: nat, seen: Profile, first: Cycle)
    requires StartsCycle(seen, first.env) && !TakesBypass(seen, first.env)
    requires first.env.agent.Answered? && first.env.agent.resp.action.Escalate?
    ensures AfterReconcile(cfg, key, max, seen, first).Some? && AfterReconcile(cfg, key, max, seen, first).value.rs.escalated
  {
    hide VerdictOf, Accepts;
    BypassIsRetry(seen.spec, first.env.world);
    var plan := PlanOf(cfg, key, seen, first);
    Unfolds();
    assert Outcomes(plan) == [Escalated];
    EveryPlanIsLegal(cfg, key, seen, first.env, first.granted);
    LegalPlanCompletes(seen, max, Stage(seen.rs.state, seen.rs.action, false, false), key, seen.spec.dryRun, plan, first.stamps, 0);
  }
}
