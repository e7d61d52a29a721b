/**
 What one Reconcile does, as the list of its effects in order: every branch of the driver,
 the bypass, the AI consultation, the dispatchers and their dry-run variants, for every
 answer of the cluster and of the agent.
 */
module Plans {
  import opened Profile
  import opened Step
  import opened Effects
  import opened StateWriter
  import opened Triggers
  import opened PendingPods
  import opened Scale
  import opened Resources
  import opened Moves

  const DEFAULT_IMPROVEMENT_THRESHOLD := 20.0
  const DEFAULT_STALE_THRESHOLD := 15 * 60

  datatype Plan = Done | Do(effect: Effect, rest: Plan)

  function Then(effects: seq<Effect>, rest: Plan): Plan {
    if effects == [] then rest else Do(effects[0], Then(effects[1..], rest))
  }

  /** The reconciler's own configuration; values <= 0 fall back to the defaults. */
  datatype Config = Config(
    improvementThreshold: real,
    minReplicas: int,
    maxReplicas: int,
    resources: ResourceBounds,
    staleThreshold: int)
  {
    function Improvement(): real {
      if improvementThreshold <= 0.0 then DEFAULT_IMPROVEMENT_THRESHOLD else improvementThreshold
    }

    function Stale(): int {
      if staleThreshold <= 0 then DEFAULT_STALE_THRESHOLD else staleThreshold
    }
  }

  /** A quantity field of the agent's answer: empty, unparsable, or an amount. */
  datatype QuantityText = Empty | Malformed | Amount(value: int)
  {
    function OrZero(): int { if Amount? then value else 0 }
  }

  datatype Response = Response(
    action: Action,
    podName: string,
    targetNode: string,
    improvement: real,
    targetReplicas: int,
    containerName: string,
    targetCpu: QuantityText,
    targetMemory: QuantityText,
    reason: string)

  datatype AgentAnswer = ContextFailed | Unavailable | Answered(resp: Response)

  /** Everything the outside world answers during one Reconcile: `rounds` for its transition
      calls in order, the rest as each branch asks for it. */
  datatype Env = Env(
    now: int,
    world: World,
    agent: AgentAnswer,
    hpas: Option<seq<Hpa>>,
    template: Option<seq<Container>>,
    waitAt: int,
    waitTimeout: int,
    move: MoveRun,
    scale: ScaleRun,
    resource: ResourceRun,
    retry: RetryRun,
    rounds: seq<seq<Round>>)

  function To(to: State, reason: string): Request {
    Request(to, reason, NoAction, "", None, 0)
  }

  function For(to: State, action: Action, reason: string): Request {
    Request(to, reason, action, "", None, 0)
  }

  function End(action: Action, outcome: Outcome, cooldown: int, reason: string): Request {
    Request(Watching, reason, action, "", Some(outcome), cooldown)
  }

  function Last(req: Request): Plan {
    Do(Write(req), Done)
  }

  function WatchdogPlan(cfg: Config, spec: Spec, rs: Status, now: int): Plan {
    if now - rs.lastTransitionAt < cfg.Stale() then Done
    else Last(End(NoAction, Failed, spec.cooldownSeconds, "watchdog"))
  }

  function BypassPlan(spec: Spec, bypass: Action, condition: string, retry: RetryRun): Plan {
    Do(Write(To(Triggered, condition)),
    Do(Write(To(Evaluating, "bypass")),
    Do(Write(For(Decided, bypass, condition)),
    Do(Write(For(Enacting, bypass, "enacting")),
      if !bypass.Retry? then Last(End(bypass, Failed, spec.cooldownSeconds, "unknown bypass action"))
      else Then(RetryEffects(retry),
        Last(End(bypass, if RetrySucceeds(retry) then Enacted else Failed, spec.cooldownSeconds, condition)))))))
  }

  function DryRunPlan(action: Action, spec: Spec): Plan {
    Do(Write(For(Enacting, action, "dry-run")),
    Last(Request(Watching, "dry-run", action, "[dry-run]", Some(Enacted), spec.cooldownSeconds)))
  }

  function OutcomeOf(r: EnactorResult): Outcome {
    if r.EnactorError? then Failed else r.outcome
  }

  /** Decided, then Enacting around the enactor's effects, then home with its outcome. */
  function EnactPlan(action: Action, spec: Spec, reason: string, effects: seq<Effect>, r: EnactorResult): Plan {
    Do(Write(For(Enacting, action, "enacting")),
    Then(effects, Last(End(action, OutcomeOf(r), spec.cooldownSeconds, reason))))
  }

  function DecideThen(action: Action, reason: string, rest: Plan): Plan {
    Do(Write(Request(Decided, reason, action, "decided", None, 0)), rest)
  }

  function MovePlan(cfg: Config, spec: Spec, key: string, resp: Response, env: Env, granted: bool): Plan {
    if resp.improvement < cfg.Improvement() then Last(End(Move, Rejected, spec.cooldownSeconds, resp.reason))
    else if resp.podName == "" || resp.targetNode == "" then Last(End(Move, Failed, spec.cooldownSeconds, resp.reason))
    else DecideThen(Move, resp.reason,
      if spec.dryRun then DryRunPlan(Move, spec)
      else if !granted then Last(End(Move, Failed, 0, "rate limit"))
      else Do(TakeToken, EnactPlan(Move, spec, resp.reason,
        MoveEffects(env.move, key, resp.podName, resp.targetNode),
        MoveAnswer(spec, env.move, resp.podName, resp.targetNode))))
  }

  function ScalePlan(cfg: Config, spec: Spec, resp: Response, env: Env): Plan {
    var bounds := Bounds(env.hpas, spec.app, cfg.minReplicas, cfg.maxReplicas);
    if resp.improvement < cfg.Improvement() then Last(End(AdjustReplicas, Rejected, spec.cooldownSeconds, resp.reason))
    else if resp.targetReplicas <= 0 then Last(End(AdjustReplicas, Failed, spec.cooldownSeconds, resp.reason))
    else if bounds.kedaManaged then Last(End(AdjustReplicas, Deferred, spec.cooldownSeconds, resp.reason))
    else if resp.targetReplicas < bounds.min || resp.targetReplicas > bounds.max
    then Last(End(AdjustReplicas, Rejected, spec.cooldownSeconds, resp.reason))
    else DecideThen(AdjustReplicas, resp.reason,
      if spec.dryRun then DryRunPlan(AdjustReplicas, spec)
      else EnactPlan(AdjustReplicas, spec, resp.reason,
        ScaleEffects(spec, resp.targetReplicas, env.scale), ScaleAnswer(spec, resp.targetReplicas, env.scale)))
  }

  predicate WellFormedResources(resp: Response) {
    && resp.containerName != ""
    && !(resp.targetCpu.Empty? && resp.targetMemory.Empty?)
    && !resp.targetCpu.Malformed? && !resp.targetMemory.Malformed?
  }

  function ResourcePlan(cfg: Config, spec: Spec, resp: Response, env: Env): Plan {
    var cpu, memory := resp.targetCpu.OrZero(), resp.targetMemory.OrZero();
    if resp.improvement < cfg.Improvement() then Last(End(AdjustResources, Rejected, spec.cooldownSeconds, resp.reason))
    else if !WellFormedResources(resp) || env.template.None? || !Scalable(spec.app.kind)
            || Find(env.template.value, resp.containerName).None?
    then Last(End(AdjustResources, Failed, spec.cooldownSeconds, resp.reason))
    else if !HasExistingLimits(env.template.value[Find(env.template.value, resp.containerName).value])
    then Last(End(AdjustResources, Deferred, spec.cooldownSeconds, resp.reason))
    else if !cfg.resources.OrDefaults().Check(cpu, memory)
    then Last(End(AdjustResources, Rejected, spec.cooldownSeconds, resp.reason))
    else DecideThen(AdjustResources, resp.reason,
      if spec.dryRun then DryRunPlan(AdjustResources, spec)
      else EnactPlan(AdjustResources, spec, resp.reason,
        ResourceEffects(spec, resp.containerName, cpu, memory, env.resource),
        ResourceAnswer(spec, resp.containerName, env.resource)))
  }

  function DispatchPlan(cfg: Config, spec: Spec, key: string, resp: Response, env: Env, granted: bool): Plan {
    match resp.action
    case DoNothing => Last(End(DoNothing, NoOp, spec.cooldownSeconds, resp.reason))
    case Reject => Last(End(Reject, Rejected, spec.cooldownSeconds, resp.reason))
    case Defer => Last(End(Defer, Deferred, spec.cooldownSeconds, resp.reason))
    case Escalate => Last(End(Escalate, Escalated, spec.cooldownSeconds, resp.reason))
    case Move => MovePlan(cfg, spec, key, resp, env, granted)
    case AdjustReplicas => ScalePlan(cfg, spec, resp, env)
    case AdjustResources => ResourcePlan(cfg, spec, resp, env)
    case _ => Last(End(NoAction, Failed, spec.cooldownSeconds, resp.reason))
  }

  function AgentPlan(cfg: Config, spec: Spec, key: string, condition: string, env: Env, granted: bool): Plan {
    Do(Write(To(Triggered, condition)),
    Do(Write(To(Evaluating, "requesting decision")),
      match env.agent
      case ContextFailed => Last(End(NoAction, Failed, spec.cooldownSeconds, "context"))
      case Unavailable => Do(AskAgent, Last(End(NoAction, Failed, spec.cooldownSeconds, "agent unavailable")))
      case Answered(resp) => Do(AskAgent, DispatchPlan(cfg, spec, key, resp, env, granted))))
  }

  predicate Cooling(rs: Status, now: int) { rs.cooldownUntil != 0 && rs.cooldownUntil - now > 0 }

  function ReconcilePlan(cfg: Config, key: string, seen: Profile, env: Env, granted: bool): Plan {
    var spec, rs := seen.spec, seen.rs;
    if !spec.enabled || rs.escalated then Done
    else if !rs.state.Resting() then WatchdogPlan(cfg, spec, rs, env.now)
    else
      match VerdictOf(spec.triggerConditions, spec.app, env.world)
      case EvaluationFailed => Done
      case NoMatch => Done
      case Matched(condition, bypass) =>
        if bypass != NoAction then BypassPlan(spec, bypass, condition, env.retry)
        else if Cooling(rs, env.now) then Done
        else AgentPlan(cfg, spec, key, condition, env, granted)
  }

  // ----- running a plan against the stored object and its other writers -----

  datatype LogEntry = Did(effect: Effect) | WriteFailed(req: Request)

  datatype Trace = Trace(events: seq<LogEntry>, profile: Profile)

  function RoundsAt(rounds: seq<seq<Round>>, k: nat): seq<Round> {
    if k < |rounds| then rounds[k] else []
  }

  function AfterCall(p: Profile, max: nat, req: Request, rounds: seq<Round>): Profile {
    AttemptsAreSequential(p, max, req, rounds);
    Replay(p, max, Attempts(p, max, req, rounds).Writes()).value
  }

  /** Effects happen in order; the first transition that is not confirmed ends the plan. */
  function Exec(p: Profile, max: nat, plan: Plan, rounds: seq<seq<Round>>, k: nat): Trace
    decreases plan
  {
    match plan
    case Done => Trace([], p)
    case Do(effect, rest) =>
      if !effect.Write? then
        var t := Exec(p, max, rest, rounds, k);
        t.(events := [Did(effect)] + t.events)
      else
        var after := AfterCall(p, max, effect.req, RoundsAt(rounds, k));
        if Attempts(p, max, effect.req, RoundsAt(rounds, k)).result.Committed? then
          var t := Exec(after, max, rest, rounds, k + 1);
          t.(events := [Did(effect)] + t.events)
        else Trace([WriteFailed(effect.req)], after)
  }
}
