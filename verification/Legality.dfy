/**
 The rules every plan keeps, as an automaton that knows nothing of triggers, agents or
 enactors: which effect is allowed in which stored state. All whole-system results rest on
 plans being accepted by it.
 */
module Legality {
  import opened Profile
  import opened StateMachine
  import opened Step
  import opened Effects
  import opened Triggers
  import opened PendingPods
  import opened Scale
  import opened Resources
  import opened Moves
  import opened Plans

  /** The stored state and action, whether a hint may be live, whether a token is held. */
  datatype Stage = Stage(state: State, action: Action, hint: bool, token: bool)

  function ActionAfter(action: Action, req: Request): Action {
    if !req.action.NoAction? then req.action else if req.to.Triggered? then NoAction else action
  }

  predicate MayWrite(st: Stage, dry: bool, req: Request) {
    && !st.hint
    && IsValidTransition(st.state, req.to)
    && (req.to.Watching? ==> req.outcome.Some?)
    && (req.to.Enacting? && ActionAfter(st.action, req).Move? && !dry ==> st.token)
  }

  predicate MayDo(st: Stage, key: string, dry: bool, effect: Effect) {
    match effect
    case Write(req) => MayWrite(st, dry, req)
    case AskAgent => st.state.Evaluating? && !st.hint
    case TakeToken => st.state.Decided? && st.action.Move? && !dry && !st.token && !st.hint
    case PutHint(k, _, _) => st.state.Enacting? && st.action.Move? && !dry && st.token && !st.hint && k == key
    case Evict(_) => st.state.Enacting? && st.action.Move? && !dry && st.hint
    case DropHint(k) => st.state.Enacting? && st.action.Move? && st.hint && k == key
    case DeletePod(_) => st.state.Enacting? && st.action.Retry? && !st.hint
    case SetReplicas(_) => st.state.Enacting? && st.action.AdjustReplicas? && !dry && !st.hint
    case SetResources(_, _, _) => st.state.Enacting? && st.action.AdjustResources? && !dry && !st.hint
    case ResizePod(_) => st.state.Enacting? && st.action.AdjustResources? && !dry && !st.hint
  }

  function StageAfter(st: Stage, effect: Effect): Stage {
    match effect
    case Write(req) => Stage(req.to, ActionAfter(st.action, req), st.hint, st.token && !req.to.Watching?)
    case TakeToken => st.(token := true)
    case PutHint(_, _, _) => st.(hint := true)
    case DropHint(_) => st.(hint := false)
    case _ => st
  }

  /** A plan runs from a stage to rest, ending with the write that files the one record. */
  predicate Accepts(st: Stage, key: string, dry: bool, plan: Plan)
    decreases plan
  {
    match plan
    case Done => st.state.Resting() && !st.hint && !st.token
    case Do(effect, rest) =>
      && MayDo(st, key, dry, effect)
      && (effect.Write? && effect.req.to.Watching? ==> rest.Done?)
      && Accepts(StageAfter(st, effect), key, dry, rest)
  }

  /** A legal plan is over only at rest, with no hint out and no token held. */
  lemma OnlyRestEnds(st: Stage, key: string, dry: bool, rest: Plan)
    requires Accepts(st, key, dry, rest)
    ensures rest.Done? ==> st.state.Resting() && !st.hint && !st.token
  {
  }

  lemma {:induction false} AcceptsThen(st: Stage, key: string, dry: bool, effects: seq<Effect>, rest: Plan)
    requires forall e :: e in effects ==> !e.Write? && MayDo(st, key, dry, e) && StageAfter(st, e) == st
    requires Accepts(st, key, dry, rest)
    ensures Accepts(st, key, dry, Then(effects, rest))
  {
    if effects != [] {
      AcceptsThen(st, key, dry, effects[1..], rest);
    }
  }

  lemma EndAccepted(st: Stage, key: string, dry: bool, req: Request)
    requires st.state.MidCycle() && !st.hint && req.to.Watching? && req.outcome.Some?
    ensures Accepts(st, key, dry, Last(req))
  {
    TableByRank(st.state, req.to);
  }

  lemma MoveEffectsAccepted(action: Action, key: string, run: MoveRun, podName: string, target: string, rest: Plan)
    requires Accepts(Stage(Enacting, Move, false, true), key, false, rest)
    ensures Accepts(Stage(Enacting, Move, false, true), key, false, Then(MoveEffects(run, key, podName, target), rest))
  {
    var effects := MoveEffects(run, key, podName, target);
    if Starts(run, podName) {
      var dropped := Do(DropHint(key), rest);
      assert Then([DropHint(key)], rest) == dropped by { assert [DropHint(key)][1..] == []; }
      if run.eviction.Evicted? {
        assert effects[1..] == [Evict(podName), DropHint(key)] && effects[1..][1..] == [DropHint(key)];
        assert Then(effects[1..], rest) == Do(Evict(podName), dropped);
      } else {
        assert effects[1..] == [DropHint(key)];
      }
    }
  }

  lemma BypassAccepted(key: string, dry: bool, spec: Spec, state: State, action: Action, bypass: Action, condition: string, retry: RetryRun)
    requires state.Resting() && bypass.Retry?
    ensures Accepts(Stage(state, action, false, false), key, dry, BypassPlan(spec, bypass, condition, retry))
  {
    var st := Stage(Enacting, bypass, false, false);
    var end := Last(End(bypass, if RetrySucceeds(retry) then Enacted else Failed, spec.cooldownSeconds, condition));
    EndAccepted(st, key, dry, end.effect.req);
    if retry.pods.Some? { DeletesAreOfStuckPods(retry.pods.value); }
    AcceptsThen(st, key, dry, RetryEffects(retry), end);
    var enact := Do(Write(For(Enacting, bypass, "enacting")), Then(RetryEffects(retry), end));
    assert Accepts(Stage(Decided, bypass, false, false), key, dry, enact);
    var decide := Do(Write(For(Decided, bypass, condition)), enact);
    assert Accepts(Stage(Evaluating, NoAction, false, false), key, dry, decide);
    assert Accepts(Stage(Triggered, NoAction, false, false), key, dry, Do(Write(To(Evaluating, "bypass")), decide));
  }

  lemma DryRunAccepted(key: string, spec: Spec, action: Action)
    requires !action.NoAction? && spec.dryRun
    ensures Accepts(Stage(Decided, action, false, false), key, true, DryRunPlan(action, spec))
  {
    EndAccepted(Stage(Enacting, action, false, false), key, true,
                Request(Watching, "dry-run", action, "[dry-run]", Some(Enacted), spec.cooldownSeconds));
  }

  lemma MoveAccepted(cfg: Config, key: string, spec: Spec, resp: Response, env: Env, granted: bool)
    ensures Accepts(Stage(Evaluating, NoAction, false, false), key, spec.dryRun, MovePlan(cfg, spec, key, resp, env, granted))
  {
    if spec.dryRun {
      DryRunAccepted(key, spec, Move);
    } else {
      hide MoveEffects, MoveAnswer;
      var effects := MoveEffects(env.move, key, resp.podName, resp.targetNode);
      var r := MoveAnswer(spec, env.move, resp.podName, resp.targetNode);
      var end := Last(End(Move, OutcomeOf(r), spec.cooldownSeconds, resp.reason));
      EndAccepted(Stage(Enacting, Move, false, true), key, false, end.effect.req);
      MoveEffectsAccepted(Move, key, env.move, resp.podName, resp.targetNode, end);
      var enact := EnactPlan(Move, spec, resp.reason, effects, r);
      assert Accepts(Stage(Decided, Move, false, true), key, false, enact);
      assert Accepts(Stage(Decided, Move, false, false), key, false, Do(TakeToken, enact));
      EndAccepted(Stage(Decided, Move, false, false), key, false, End(Move, Failed, 0, "rate limit"));
    }
  }

  lemma EnactAccepted(key: string, dry: bool, spec: Spec, action: Action, reason: string, effects: seq<Effect>, r: EnactorResult)
    requires !action.NoAction? && !action.Move?
    requires forall e :: e in effects ==> !e.Write? && MayDo(Stage(Enacting, action, false, false), key, dry, e)
                                          && StageAfter(Stage(Enacting, action, false, false), e) == Stage(Enacting, action, false, false)
    ensures Accepts(Stage(Decided, action, false, false), key, dry, EnactPlan(action, spec, reason, effects, r))
  {
    var st := Stage(Enacting, action, false, false);
    var end := Last(End(action, OutcomeOf(r), spec.cooldownSeconds, reason));
    EndAccepted(st, key, dry, end.effect.req);
    AcceptsThen(st, key, dry, effects, end);
  }

  lemma ScaleAccepted(cfg: Config, key: string, spec: Spec, resp: Response, env: Env)
    ensures Accepts(Stage(Evaluating, NoAction, false, false), key, spec.dryRun, ScalePlan(cfg, spec, resp, env))
  {
    var effects, r := ScaleEffects(spec, resp.targetReplicas, env.scale), ScaleAnswer(spec, resp.targetReplicas, env.scale);
    hide Bounds, ScaleAnswer;
    if spec.dryRun {
      DryRunAccepted(key, spec, AdjustReplicas);
    } else {
      EnactAccepted(key, false, spec, AdjustReplicas, resp.reason, effects, r);
    }
  }

  lemma ResourceAccepted(cfg: Config, key: string, spec: Spec, resp: Response, env: Env)
    ensures Accepts(Stage(Evaluating, NoAction, false, false), key, spec.dryRun, ResourcePlan(cfg, spec, resp, env))
  {
    var cpu, memory := resp.targetCpu.OrZero(), resp.targetMemory.OrZero();
    var effects := ResourceEffects(spec, resp.containerName, cpu, memory, env.resource);
    var r := ResourceAnswer(spec, resp.containerName, env.resource);
    ResourceEffectKinds(spec, resp.containerName, cpu, memory, env.resource);
    hide ResourceEffects, ResourceAnswer, HasExistingLimits, Find, WellFormedResources;
    if spec.dryRun {
      DryRunAccepted(key, spec, AdjustResources);
    } else {
      EnactAccepted(key, false, spec, AdjustResources, resp.reason, effects, r);
    }
  }

  lemma DispatchAccepted(cfg: Config, key: string, spec: Spec, resp: Response, env: Env, granted: bool)
    ensures Accepts(Stage(Evaluating, NoAction, false, false), key, spec.dryRun, DispatchPlan(cfg, spec, key, resp, env, granted))
  {
    MoveAccepted(cfg, key, spec, resp, env, granted);
    ScaleAccepted(cfg, key, spec, resp, env);
    ResourceAccepted(cfg, key, spec, resp, env);
    hide MovePlan, ScalePlan, ResourcePlan;
  }

  /** Whatever the trigger, the agent and the cluster answer, a Reconcile that sees the stored
      status of a profile and does anything at all runs a legal plan. */
  lemma EveryPlanIsLegal(cfg: Config, key: string, seen: Profile, env: Env, granted: bool)
    requires !seen.rs.state.Legacy?
    ensures var plan := ReconcilePlan(cfg, key, seen, env, granted);
            plan.Do? ==> Accepts(Stage(seen.rs.state, seen.rs.action, false, false), key, seen.spec.dryRun, plan)
  {
    var spec := seen.spec;
    hide VerdictOf;
    var verdict := VerdictOf(spec.triggerConditions, spec.app, env.world);
    if seen.rs.state.Resting() && verdict.Matched? {
      if verdict.bypass != NoAction {
        BypassIsRetry(spec, env.world);
        BypassAccepted(key, spec.dryRun, spec, seen.rs.state, seen.rs.action, verdict.bypass, verdict.condition, env.retry);
      } else if env.agent.Answered? {
        var dispatch := DispatchPlan(cfg, spec, key, env.agent.resp, env, granted);
        DispatchAccepted(cfg, key, spec, env.agent.resp, env, granted);
        hide DispatchPlan;
        assert Accepts(Stage(Evaluating, NoAction, false, false), key, spec.dryRun, Do(AskAgent, dispatch));
        assert Accepts(Stage(Triggered, NoAction, false, false), key, spec.dryRun,
                       Do(Write(To(Evaluating, "requesting decision")), Do(AskAgent, dispatch)));
      } else {
        var fail := Last(End(NoAction, Failed, spec.cooldownSeconds, if env.agent.ContextFailed? then "context" else "agent unavailable"));
        EndAccepted(Stage(Evaluating, NoAction, false, false), key, spec.dryRun, fail.effect.req);
        assert Accepts(Stage(Evaluating, NoAction, false, false), key, spec.dryRun, Do(AskAgent, fail));
      }
    }
  }

  lemma BypassIsRetry(spec: Spec, w: World)
    ensures var v := VerdictOf(spec.triggerConditions, spec.app, w); v.Matched? && v.bypass != NoAction ==> v.bypass.Retry?
  {
    var v := VerdictOf(spec.triggerConditions, spec.app, w);
    if v.Matched? { BypassOnlyFromEnergy(spec.triggerConditions, spec.app, w, w.pods.value); }
  }
}
