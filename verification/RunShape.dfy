/** The shape of one Reconcile, its guardrails, its dry run, and its watchdog. */
module RunShape {
  import opened Profile
  import opened StateMachine
  import opened Step
  import opened Effects
  import opened Triggers
  import opened PendingPods
  import opened Scale
  import opened Resources
  import opened Moves
  import opened Plans
  import opened Legality
  import History

  /** The states a plan stores, in order. */
  function Visited(plan: Plan): seq<State> {
    match plan
    case Done => []
    case Do(effect, rest) => (if effect.Write? then [effect.req.to] else []) + Visited(rest)
  }

  function Outcomes(plan: Plan): seq<Outcome> {
    match plan
    case Done => []
    case Do(effect, rest) =>
      (if effect.Write? && effect.req.to.Watching? && effect.req.outcome.Some? then [effect.req.outcome.value] else [])
      + Outcomes(rest)
  }

  predicate Contains(plan: Plan, e: Effect) {
    plan.Do? && (plan.effect == e || Contains(plan.rest, e))
  }

  datatype Mark = Mark(to: State, action: Action, outcome: Option<Outcome>, cooldown: int)

  /** What a plan leaves in the status besides texts. */
  function Marks(plan: Plan): seq<Mark> {
    match plan
    case Done => []
    case Do(effect, rest) =>
      (if effect.Write? then [Mark(effect.req.to, effect.req.action, effect.req.outcome, effect.req.cooldown)] else [])
      + Marks(rest)
  }

  /** The four summaries, one effect at a time, to any depth. */
  lemma Unfolds()
    ensures Visited(Done) == [] && Outcomes(Done) == [] && Marks(Done) == []
    ensures forall e :: !Contains(Done, e)
    ensures forall effect, rest ::
              Visited(Do(effect, rest)) == (if effect.Write? then [effect.req.to] else []) + Visited(rest)
    ensures forall effect, rest ::
              Outcomes(Do(effect, rest))
              == (if effect.Write? && effect.req.to.Watching? && effect.req.outcome.Some? then [effect.req.outcome.value] else [])
                 + Outcomes(rest)
    ensures forall effect, rest ::
              Marks(Do(effect, rest))
              == (if effect.Write? then [Mark(effect.req.to, effect.req.action, effect.req.outcome, effect.req.cooldown)] else [])
                 + Marks(rest)
    ensures forall effect, rest, e :: Contains(Do(effect, rest), e) <==> effect == e || Contains(rest, e)
  {
  }

  /** The building blocks of the dispatchers' plans. */
  lemma Pieces()
    ensures forall req: Request :: req.to.Watching? && req.outcome.Some? ==>
              && Visited(Last(req)) == [Watching] && Outcomes(Last(req)) == [req.outcome.value]
              && Marks(Last(req)) == [Mark(Watching, req.action, req.outcome, req.cooldown)]
    ensures forall req, e: Effect :: Contains(Last(req), e) <==> e == Write(req)
    ensures forall action, reason, rest ::
              && Visited(DecideThen(action, reason, rest)) == [Decided] + Visited(rest)
              && Outcomes(DecideThen(action, reason, rest)) == Outcomes(rest)
              && Marks(DecideThen(action, reason, rest)) == [Mark(Decided, action, None, 0)] + Marks(rest)
    ensures forall action, reason, rest, e ::
              Contains(DecideThen(action, reason, rest), e)
              <==> e == Write(Request(Decided, reason, action, "decided", None, 0)) || Contains(rest, e)
    ensures forall action, spec ::
              && Visited(DryRunPlan(action, spec)) == [Enacting, Watching]
              && Outcomes(DryRunPlan(action, spec)) == [Enacted]
    ensures forall action, spec, e: Effect :: Contains(DryRunPlan(action, spec), e) ==> e.Write?
    ensures forall rest ::
              && Visited(Do(TakeToken, rest)) == Visited(rest)
              && Outcomes(Do(TakeToken, rest)) == Outcomes(rest)
              && Marks(Do(TakeToken, rest)) == Marks(rest)
    ensures forall rest, e :: Contains(Do(TakeToken, rest), e) <==> e == TakeToken || Contains(rest, e)
  {
    Unfolds();
    hide Visited, Outcomes, Contains, Marks;
  }

  lemma {:induction false} ThenKeepsWrites(effects: seq<Effect>, rest: Plan)
    requires forall e :: e in effects ==> !e.Write?
    ensures Visited(Then(effects, rest)) == Visited(rest)
    ensures Outcomes(Then(effects, rest)) == Outcomes(rest)
    ensures forall e :: Contains(Then(effects, rest), e) <==> e in effects || Contains(rest, e)
  {
    if effects != [] {
      ThenKeepsWrites(effects[1..], rest);
      assert forall e :: e in effects <==> e == effects[0] || e in effects[1..];
    }
  }

  /** The guardrails of the three acting answers, each in full. */
  predicate GuardsPass(cfg: Config, spec: Spec, resp: Response, env: Env) {
    && resp.improvement >= cfg.Improvement()
    && match resp.action
       case Move => resp.podName != "" && resp.targetNode != ""
       case AdjustReplicas =>
         var bounds := Bounds(env.hpas, spec.app, cfg.minReplicas, cfg.maxReplicas);
         && resp.targetReplicas > 0 && !bounds.kedaManaged
         && bounds.min <= resp.targetReplicas <= bounds.max
       case AdjustResources =>
         && WellFormedResources(resp) && env.template.Some? && Scalable(spec.app.kind)
         && Find(env.template.value, resp.containerName).Some?
         && HasExistingLimits(env.template.value[Find(env.template.value, resp.containerName).value])
         && cfg.resources.OrDefaults().Check(resp.targetCpu.OrZero(), resp.targetMemory.OrZero())
       case _ => false
  }

  /** What an accepted answer may do to the cluster, the store and the limiter. */
  predicate Allowed(spec: Spec, key: string, resp: Response, granted: bool, e: Effect) {
    match e
    case Write(_) => true
    case AskAgent => true
    case TakeToken => resp.action.Move? && granted
    case PutHint(k, pod, target) => resp.action.Move? && granted && k == key && pod == resp.podName && target == resp.targetNode
    case DropHint(k) => resp.action.Move? && granted && k == key
    case Evict(pod) => resp.action.Move? && granted && pod == resp.podName
    case SetReplicas(count) => resp.action.AdjustReplicas? && count == resp.targetReplicas && Scalable(spec.app.kind)
    case SetResources(name, cpu, memory) =>
      && resp.action.AdjustResources? && name == resp.containerName
      && cpu == resp.targetCpu.OrZero() && memory == resp.targetMemory.OrZero()
    case ResizePod(_) => resp.action.AdjustResources?
    case DeletePod(_) => false
  }

  predicate OnlyTalks(e: Effect) { e.Write? || e.AskAgent? }

  /** States visited after Evaluating, and the outcome asked for when it is not an enactor's. */
  function Tail(cfg: Config, spec: Spec, resp: Response, env: Env, granted: bool): seq<State> {
    if !GuardsPass(cfg, spec, resp, env) then [Watching]
    else if resp.action.Move? && !spec.dryRun && !granted then [Decided, Watching]
    else [Decided, Enacting, Watching]
  }

  lemma EnactShape(action: Action, spec: Spec, reason: string, effects: seq<Effect>, r: EnactorResult)
    requires forall e :: e in effects ==> !e.Write?
    ensures Visited(EnactPlan(action, spec, reason, effects, r)) == [Enacting, Watching]
    ensures Outcomes(EnactPlan(action, spec, reason, effects, r)) == [OutcomeOf(r)]
    ensures forall e :: Contains(EnactPlan(action, spec, reason, effects, r), e) ==> e in effects || e.Write?
  {
    Unfolds();
    hide Visited, Outcomes, Contains, Marks;
    ThenKeepsWrites(effects, Last(End(action, OutcomeOf(r), spec.cooldownSeconds, reason)));
  }

  ghost predicate ShapedRight(cfg: Config, spec: Spec, key: string, resp: Response, env: Env, granted: bool, plan: Plan) {
    && Visited(plan) == Tail(cfg, spec, resp, env, granted)
    && |Outcomes(plan)| == 1
    && (forall e :: Contains(plan, e) ==> Allowed(spec, key, resp, granted, e))
    && (spec.dryRun || !GuardsPass(cfg, spec, resp, env) ==> forall e :: Contains(plan, e) ==> OnlyTalks(e))
  }

  lemma MoveShape(cfg: Config, spec: Spec, key: string, resp: Response, env: Env, granted: bool)
    requires resp.action.Move?
    ensures ShapedRight(cfg, spec, key, resp, env, granted, MovePlan(cfg, spec, key, resp, env, granted))
  {
    Pieces();
    hide Visited, Outcomes, Contains, Marks, Last, DecideThen, DryRunPlan;
    EnactShape(Move, spec, resp.reason, MoveEffects(env.move, key, resp.podName, resp.targetNode),
               MoveAnswer(spec, env.move, resp.podName, resp.targetNode));
    assert forall e :: e in MoveEffects(env.move, key, resp.podName, resp.targetNode) && granted ==> Allowed(spec, key, resp, granted, e);
    hide MoveEffects, MoveAnswer, EnactPlan;
  }

  lemma ScaleShape(cfg: Config, spec: Spec, key: string, resp: Response, env: Env, granted: bool)
    requires resp.action.AdjustReplicas?
    ensures ShapedRight(cfg, spec, key, resp, env, granted, ScalePlan(cfg, spec, resp, env))
  {
    Pieces();
    hide Visited, Outcomes, Contains, Marks, Last, DecideThen, DryRunPlan;
    EnactShape(AdjustReplicas, spec, resp.reason, ScaleEffects(spec, resp.targetReplicas, env.scale),
               ScaleAnswer(spec, resp.targetReplicas, env.scale));
    hide Bounds, ScaleAnswer, EnactPlan;
  }

  lemma WritesAreAllowed(spec: Spec, key: string, resp: Response, granted: bool)
    ensures forall req :: Allowed(spec, key, resp, granted, Write(req)) && OnlyTalks(Write(req))
  {
  }

  /** The patch and the resizes are what the answer asked for. */
  lemma ResourceEffectsAllowed(spec: Spec, key: string, resp: Response, env: Env, granted: bool)
    requires resp.action.AdjustResources?
    ensures forall e :: e in ResourceEffects(spec, resp.containerName, resp.targetCpu.OrZero(), resp.targetMemory.OrZero(), env.resource)
              ==> !e.Write? && Allowed(spec, key, resp, granted, e)
  {
    ResourceEffectKinds(spec, resp.containerName, resp.targetCpu.OrZero(), resp.targetMemory.OrZero(), env.resource);
    hide ResourceEffects;
  }

  lemma ResourceShape(cfg: Config, spec: Spec, key: string, resp: Response, env: Env, granted: bool)
    requires resp.action.AdjustResources?
    ensures ShapedRight(cfg, spec, key, resp, env, granted, ResourcePlan(cfg, spec, resp, env))
  {
    Pieces();
    hide Visited, Outcomes, Contains, Marks, Last, DecideThen, DryRunPlan;
    var effects := ResourceEffects(spec, resp.containerName, resp.targetCpu.OrZero(), resp.targetMemory.OrZero(), env.resource);
    ResourceEffectsAllowed(spec, key, resp, env, granted);
    EnactShape(AdjustResources, spec, resp.reason, effects, ResourceAnswer(spec, resp.containerName, env.resource));
    WritesAreAllowed(spec, key, resp, granted);
    hide Allowed, OnlyTalks, ResourceEffects, ResourceAnswer, EnactPlan, HasExistingLimits, Find, WellFormedResources, Scalable;
    hide ResourceBounds.OrDefaults, ResourceBounds.Check, QuantityText.OrZero, Config.Improvement;
  }

  lemma DispatchShape(cfg: Config, spec: Spec, key: string, resp: Response, env: Env, granted: bool)
    ensures ShapedRight(cfg, spec, key, resp, env, granted, DispatchPlan(cfg, spec, key, resp, env, granted))
  {
    Unfolds();
    hide Visited, Outcomes, Contains, Marks;
    match resp.action
    case Move => MoveShape(cfg, spec, key, resp, env, granted);
    case AdjustReplicas => ScaleShape(cfg, spec, key, resp, env, granted);
    case AdjustResources => ResourceShape(cfg, spec, key, resp, env, granted);
    case _ =>
  }

  /** A Reconcile starts a cycle when a trigger matched and neither the escalation pause nor,
      on the AI path, the cooldown holds it back. */
  predicate StartsCycle(seen: Profile, env: Env) {
    && seen.spec.enabled && !seen.rs.escalated && seen.rs.state.Resting()
    && var verdict := VerdictOf(seen.spec.triggerConditions, seen.spec.app, env.world);
       verdict.Matched? && (verdict.bypass.Retry? || !Cooling(seen.rs, env.now))
  }

  predicate TakesBypass(seen: Profile, env: Env) {
    var verdict := VerdictOf(seen.spec.triggerConditions, seen.spec.app, env.world);
    verdict.Matched? && verdict.bypass.Retry?
  }

  predicate Accepted(cfg: Config, seen: Profile, env: Env) {
    env.agent.Answered? && GuardsPass(cfg, seen.spec, env.agent.resp, env)
  }

  /** Everything said of one AI cycle, up to the answered plan's own shape. */
  ghost predicate AgentShapedRight(cfg: Config, spec: Spec, key: string, env: Env, granted: bool, plan: Plan) {
    var accepted := env.agent.Answered? && GuardsPass(cfg, spec, env.agent.resp, env);
    && |Outcomes(plan)| == 1
    && Visited(plan) == [Triggered, Evaluating] +
         (if env.agent.Answered? then Tail(cfg, spec, env.agent.resp, env, granted) else [Watching])
    && (!env.agent.Answered? ==> Outcomes(plan) == [Failed])
    && (Contains(plan, AskAgent) <==> !env.agent.ContextFailed?)
    && (forall e :: Contains(plan, e) && !OnlyTalks(e) ==>
          accepted && !spec.dryRun && Allowed(spec, key, env.agent.resp, granted, e))
  }

  lemma AgentShape(cfg: Config, spec: Spec, key: string, condition: string, env: Env, granted: bool)
    ensures AgentShapedRight(cfg, spec, key, env, granted, AgentPlan(cfg, spec, key, condition, env, granted))
  {
    hide Visited, Outcomes, Contains, Marks, DispatchPlan, GuardsPass, Allowed, Tail;
    Unfolds();
    if env.agent.Answered? { DispatchShape(cfg, spec, key, env.agent.resp, env, granted); }
  }

  /** Every started cycle goes home with exactly one outcome, along one of three paths, and
      which one is decided by the guardrails and, for a real Move, by the limiter alone; the bypass
      ends as its retry did, and only a cycle whose context was built asks the agent. */
  lemma RunShape(cfg: Config, key: string, seen: Profile, env: Env, granted: bool)
    requires StartsCycle(seen, env)
    ensures var plan := ReconcilePlan(cfg, key, seen, env, granted);
            && |Outcomes(plan)| == 1
            && Visited(plan) ==
                 (if TakesBypass(seen, env) then [Triggered, Evaluating, Decided, Enacting, Watching]
                  else if !Accepted(cfg, seen, env) then [Triggered, Evaluating, Watching]
                  else if env.agent.resp.action.Move? && !seen.spec.dryRun && !granted
                  then [Triggered, Evaluating, Decided, Watching]
                  else [Triggered, Evaluating, Decided, Enacting, Watching])
            && (!TakesBypass(seen, env) && !env.agent.Answered? ==> Outcomes(plan) == [Failed])
            && (TakesBypass(seen, env) ==> Outcomes(plan) == [if RetrySucceeds(env.retry) then Enacted else Failed])
            && (Contains(plan, AskAgent) <==> !TakesBypass(seen, env) && !env.agent.ContextFailed?)
  {
    hide Visited, Outcomes, Contains, VerdictOf, BypassPlan, AgentPlan, GuardsPass, Allowed;
    var verdict := VerdictOf(seen.spec.triggerConditions, seen.spec.app, env.world);
    BypassIsRetry(seen.spec, env.world);
    BypassShape(seen.spec, verdict.condition, env.retry);
    AgentShape(cfg, seen.spec, key, verdict.condition, env, granted);
  }

  lemma BypassShape(spec: Spec, condition: string, retry: RetryRun)
    ensures var plan := BypassPlan(spec, Retry, condition, retry);
            && Visited(plan) == [Triggered, Evaluating, Decided, Enacting, Watching]
            && Outcomes(plan) == [if RetrySucceeds(retry) then Enacted else Failed]
            && !Contains(plan, AskAgent)
            && ((exists e :: Contains(plan, e) && e.TouchesCluster()) <==> RetryEffects(retry) != [])
  {
    Unfolds();
    hide Visited, Outcomes, Contains, Marks;
    var effects := RetryEffects(retry);
    if retry.pods.Some? { DeletesAreOfStuckPods(retry.pods.value); }
    assert forall e :: e in effects ==> e.DeletePod?;
    ThenKeepsWrites(effects, Last(End(Retry, if RetrySucceeds(retry) then Enacted else Failed, spec.cooldownSeconds, condition)));
    if effects != [] {
      assert effects[0] in effects && Contains(BypassPlan(spec, Retry, condition, retry), effects[0]) && effects[0].TouchesCluster();
    }
  }

  /** On the AI path nothing outside the profile changes unless every guardrail of the answered
      action accepted it, dry run is off, and then only what the answer asked for. */
  lemma EffectsAreGuarded(cfg: Config, key: string, seen: Profile, env: Env, granted: bool, e: Effect)
    requires StartsCycle(seen, env) && !TakesBypass(seen, env)
    requires Contains(ReconcilePlan(cfg, key, seen, env, granted), e) && !OnlyTalks(e)
    ensures Accepted(cfg, seen, env) && !seen.spec.dryRun && Allowed(seen.spec, key, env.agent.resp, granted, e)
  {
    var verdict := VerdictOf(seen.spec.triggerConditions, seen.spec.app, env.world);
    BypassIsRetry(seen.spec, env.world);
    AgentShape(cfg, seen.spec, key, verdict.condition, env, granted);
    hide VerdictOf, AgentPlan, GuardsPass, Allowed;
  }

  /** Under dry run a cycle touches the cluster if and only if it is the bypass and the retry has
      a pod to delete: the bypass does not consult the flag. */
  lemma DryRunTouchesClusterIff(cfg: Config, key: string, seen: Profile, env: Env, granted: bool)
    requires StartsCycle(seen, env) && seen.spec.dryRun
    ensures (exists e :: Contains(ReconcilePlan(cfg, key, seen, env, granted), e) && e.TouchesCluster())
            <==> TakesBypass(seen, env) && RetryEffects(env.retry) != []
  {
    hide VerdictOf, AgentPlan, BypassPlan, Outcomes, Visited, Contains, RetryEffects, Allowed, GuardsPass;
    var verdict := VerdictOf(seen.spec.triggerConditions, seen.spec.app, env.world);
    if TakesBypass(seen, env) {
      BypassShape(seen.spec, verdict.condition, env.retry);
    } else {
      forall e | Contains(ReconcilePlan(cfg, key, seen, env, granted), e)
        ensures !e.TouchesCluster()
      {
        if !OnlyTalks(e) { EffectsAreGuarded(cfg, key, seen, env, granted, e); }
      }
    }
  }

  lemma {:induction false} ThenKeepsMarks(effects: seq<Effect>, rest: Plan)
    requires forall e :: e in effects ==> !e.Write?
    ensures Marks(Then(effects, rest)) == Marks(rest)
  {
    if effects != [] { ThenKeepsMarks(effects[1..], rest); }
  }

  function AnswerOf(spec: Spec, resp: Response, env: Env): EnactorResult {
    match resp.action
    case Move => MoveAnswer(spec, env.move, resp.podName, resp.targetNode)
    case AdjustReplicas => ScaleAnswer(spec, resp.targetReplicas, env.scale)
    case AdjustResources => ResourceAnswer(spec, resp.containerName, env.resource)
    case _ => Reported(Enacted)
  }

  /** A dry run leaves the same trace as the real run whose limiter grants and whose enactor
      reports Enacted. (By EffectsAreGuarded it does nothing else.) */
  lemma DryRunSimulates(cfg: Config, spec: Spec, key: string, condition: string, env: Env, granted: bool)
    requires !spec.dryRun
    requires env.agent.Answered? ==> AnswerOf(spec, env.agent.resp, env) == Reported(Enacted)
    ensures Marks(AgentPlan(cfg, spec.(dryRun := true), key, condition, env, granted))
            == Marks(AgentPlan(cfg, spec, key, condition, env, true))
  {
    Unfolds();
    hide Visited, Outcomes, Contains, Marks;
    if env.agent.Answered? {
      var resp := env.agent.resp;
      var dry := spec.(dryRun := true);
      match resp.action
      case Move =>
        MoveMarks(cfg, spec, key, resp, env, granted);
      case AdjustReplicas =>
        EnactMarks(AdjustReplicas, spec, resp.reason, ScaleEffects(spec, resp.targetReplicas, env.scale));
        hide Bounds, ScaleAnswer, EnactPlan, ScaleEffects;
      case AdjustResources =>
        ResourceMarks(cfg, spec, resp, env);
      case _ =>
    }
  }

  lemma EnactMarks(action: Action, spec: Spec, reason: string, effects: seq<Effect>)
    requires forall e :: e in effects ==> !e.Write?
    ensures Marks(EnactPlan(action, spec, reason, effects, Reported(Enacted))) == Marks(DryRunPlan(action, spec.(dryRun := true)))
  {
    Unfolds();
    hide Visited, Outcomes, Contains, Marks;
    ThenKeepsMarks(effects, Last(End(action, Enacted, spec.cooldownSeconds, reason)));
  }

  lemma MoveMarks(cfg: Config, spec: Spec, key: string, resp: Response, env: Env, granted: bool)
    requires !spec.dryRun && MoveAnswer(spec, env.move, resp.podName, resp.targetNode) == Reported(Enacted)
    ensures Marks(MovePlan(cfg, spec.(dryRun := true), key, resp, env, granted)) == Marks(MovePlan(cfg, spec, key, resp, env, true))
  {
    Pieces();
    hide Visited, Outcomes, Contains, Marks, Last, DecideThen, DryRunPlan;
    EnactMarks(Move, spec, resp.reason, MoveEffects(env.move, key, resp.podName, resp.targetNode));
    hide MoveEffects, MoveAnswer, EnactPlan;
  }

  lemma ResourceMarks(cfg: Config, spec: Spec, resp: Response, env: Env)
    requires !spec.dryRun && ResourceAnswer(spec, resp.containerName, env.resource) == Reported(Enacted)
    ensures Marks(ResourcePlan(cfg, spec.(dryRun := true), resp, env)) == Marks(ResourcePlan(cfg, spec, resp, env))
  {
    Pieces();
    hide Visited, Outcomes, Contains, Marks, Last, DecideThen, DryRunPlan;
    var effects := ResourceEffects(spec, resp.containerName, resp.targetCpu.OrZero(), resp.targetMemory.OrZero(), env.resource);
    ResourceEffectKinds(spec, resp.containerName, resp.targetCpu.OrZero(), resp.targetMemory.OrZero(), env.resource);
    hide ResourceEffects;
    EnactMarks(AdjustResources, spec, resp.reason, effects);
    hide ResourceEffects, ResourceAnswer, EnactPlan, HasExistingLimits, Find, WellFormedResources;
  }

  /** Condition `i` is the first that holds, and no cooldown stands against it. */
  ghost predicate ConditionWakes(seen: Profile, env: Env, i: nat) {
    var spec, until, w := seen.spec, seen.rs.cooldownUntil, env.world;
    && w.pods.Some? && IsFirst(spec.triggerConditions, spec.app, w, w.pods.value, i)
    && (until == 0 || until <= env.now || AtEnergyWindow(spec.triggerConditions, spec.app, w, w.pods.value, i))
  }

  /** What wakes a Reconcile, in the fields of the profile and the world alone: the profile is
      enabled and not escalated, and either it is off rest for as long as configured, 15 minutes
      by default, or it rests, some declared condition holds, and the cooldown is over or the
      first such condition is a reached energy window. */
  lemma ActsIff(cfg: Config, key: string, seen: Profile, env: Env, granted: bool)
    ensures ReconcilePlan(cfg, key, seen, env, granted) != Done <==>
              && seen.spec.enabled && !seen.rs.escalated
              && (if seen.rs.state != Unset && seen.rs.state != Watching
                  then env.now - seen.rs.lastTransitionAt >= (if cfg.staleThreshold <= 0 then 15 * 60 else cfg.staleThreshold)
                  else exists i: nat :: ConditionWakes(seen, env, i))
  {
    hide VerdictOf, ConditionWakes;
    ConditionWakesIff(seen, env);
  }

  lemma ConditionWakesIff(seen: Profile, env: Env)
    ensures var verdict := VerdictOf(seen.spec.triggerConditions, seen.spec.app, env.world);
            (exists i: nat :: ConditionWakes(seen, env, i))
            <==> verdict.Matched? && (verdict.bypass != NoAction || !Cooling(seen.rs, env.now))
  {
    var conditions, app, w := seen.spec.triggerConditions, seen.spec.app, env.world;
    if w.pods.Some? {
      var pods := w.pods.value;
      var verdict := FirstHolding(conditions, app, w, pods);
      FirstHoldingIsFirst(conditions, app, w, pods);
      if verdict.Matched? {
        var i: nat :| IsFirst(conditions, app, w, pods, i) && conditions[i] == verdict.condition;
        VerdictAtFirst(conditions, app, w, pods, i);
        assert verdict.bypass != NoAction || !Cooling(seen.rs, env.now) ==> ConditionWakes(seen, env, i);
      }
      if i: nat :| ConditionWakes(seen, env, i) {
        VerdictAtFirst(conditions, app, w, pods, i);
      }
    }
  }

  /** From every mid-cycle status of an enabled, unescalated profile: younger than the stale
      threshold it is left alone; otherwise one transition brings it home with one record, of
      the interrupted cycle, Failed or promoted to Escalated, and the cooldown armed. */
  lemma WatchdogRecovers(cfg: Config, key: string, seen: Profile, env: Env, granted: bool, max: nat, now: int, id: nat)
    requires seen.spec.enabled && !seen.rs.escalated && seen.rs.state.MidCycle()
    ensures var plan := ReconcilePlan(cfg, key, seen, env, granted);
            if env.now - seen.rs.lastTransitionAt < cfg.Stale() then plan == Done
            else && plan.Do? && plan.rest == Done && plan.effect.Write?
                 && RecoveredBy(seen, max, plan.effect.req, now, id)
  {
    TableByRank(seen.rs.state, Watching);
  }

  predicate RecoveredBy(seen: Profile, max: nat, req: Request, now: int, id: nat) {
    var after := Apply(seen, max, Transition(req, now, id));
    && after.Some?
    && after.value.rs.state.Watching?
    && after.value.rs.consecutiveFailures == seen.rs.consecutiveFailures + 1
    && after.value.rs.escalated == (seen.rs.consecutiveFailures + 1 >= History.Limit(seen.spec))
    && (seen.spec.cooldownSeconds > 0 ==> after.value.rs.cooldownUntil == now + seen.spec.cooldownSeconds)
    && (max > 0 ==>
          && |after.value.rs.recentDecisions| > 0
          && var record := after.value.rs.recentDecisions[0];
             && record.decisionId == seen.rs.decisionId && record.startedAt == seen.rs.startedAt
             && record.outcome == (if after.value.rs.escalated then Escalated else Failed)
             && after.value.rs.recentDecisions[1..] <= seen.rs.recentDecisions)
  }
}
