/**
 Which outcome an answer of the agent ends in. The guardrails of each action are written as
 one ordered table; every dispatch is proved to end as the first guardrail that refuses says,
 and only past all of them as the enactor reports.
 */
module Guardrails {
  import opened Profile
  import opened Effects
  import opened Scale
  import opened Resources
  import opened Moves
  import opened Plans
  import opened RunShape

  datatype Guard = Guard(passes: bool, otherwise: Outcome)

  /** The limiter counts as the last guardrail of a real Move. */
  function Guards(cfg: Config, spec: Spec, resp: Response, env: Env, granted: bool): seq<Guard> {
    var threshold := Guard(resp.improvement >= if cfg.improvementThreshold <= 0.0 then 20.0 else cfg.improvementThreshold, Rejected);
    match resp.action
    case Move =>
      [threshold, Guard(resp.podName != "" && resp.targetNode != "", Failed), Guard(granted || spec.dryRun, Failed)]
    case AdjustReplicas =>
      var bounds := Bounds(env.hpas, spec.app, cfg.minReplicas, cfg.maxReplicas);
      [threshold, Guard(resp.targetReplicas > 0, Failed), Guard(!bounds.kedaManaged, Deferred),
       Guard(bounds.min <= resp.targetReplicas <= bounds.max, Rejected)]
    case AdjustResources =>
      var at := if env.template.Some? then Find(env.template.value, resp.containerName) else None;
      var wellFormed := resp.containerName != "" && (resp.targetCpu != Empty || resp.targetMemory != Empty)
                        && resp.targetCpu != Malformed && resp.targetMemory != Malformed;
      [threshold, Guard(wellFormed, Failed),
       Guard((spec.app.kind == "Deployment" || spec.app.kind == "StatefulSet") && at.Some?, Failed),
       Guard(at.Some? && HasExistingLimits(env.template.value[at.value]), Deferred),
       Guard(cfg.resources.OrDefaults().Check(resp.targetCpu.OrZero(), resp.targetMemory.OrZero()), Rejected)]
    case DoNothing => [Guard(false, NoOp)]
    case Reject => [Guard(false, Rejected)]
    case Defer => [Guard(false, Deferred)]
    case Escalate => [Guard(false, Escalated)]
    case _ => [Guard(false, Failed)]
  }

  function Refusal(guards: seq<Guard>): Option<Outcome> {
    if guards == [] then None
    else if !guards[0].passes then Some(guards[0].otherwise)
    else Refusal(guards[1..])
  }

  function Ending(cfg: Config, spec: Spec, resp: Response, env: Env, granted: bool): Outcome {
    var refusal := Refusal(Guards(cfg, spec, resp, env, granted));
    if refusal.Some? then refusal.value
    else if spec.dryRun then Enacted
    else match AnswerOf(spec, resp, env)
      case EnactorError => Failed
      case Reported(outcome) => outcome
  }

  lemma RefusalUnfolds()
    ensures Refusal([]) == None
    ensures forall g, rest :: Refusal([g] + rest) == if g.passes then Refusal(rest) else Some(g.otherwise)
  {
    assert forall g: Guard, rest :: ([g] + rest)[1..] == rest;
  }

  /** A refusal is the verdict of the first guardrail that fails; none means all pass. */
  lemma {:induction false} RefusalIsFirst(guards: seq<Guard>)
    ensures Refusal(guards).None? <==> forall i :: 0 <= i < |guards| ==> guards[i].passes
    ensures Refusal(guards).Some? ==>
              exists i :: 0 <= i < |guards| && !guards[i].passes && Refusal(guards) == Some(guards[i].otherwise)
                          && forall j :: 0 <= j < i ==> guards[j].passes
  {
    if guards != [] && guards[0].passes {
      RefusalIsFirst(guards[1..]);
      assert forall i :: 0 < i < |guards| ==> guards[i] == guards[1..][i - 1];
      if Refusal(guards).Some? {
        var i :| 0 <= i < |guards[1..]| && !guards[1..][i].passes && Refusal(guards[1..]) == Some(guards[1..][i].otherwise)
                 && forall j :: 0 <= j < i ==> guards[1..][j].passes;
        assert guards[i + 1] == guards[1..][i] && forall j :: 0 < j <= i ==> guards[j] == guards[1..][j - 1];
      }
    }
  }

  lemma MoveEnds(cfg: Config, spec: Spec, key: string, resp: Response, env: Env, granted: bool)
    requires resp.action.Move?
    ensures Outcomes(MovePlan(cfg, spec, key, resp, env, granted)) == [Ending(cfg, spec, resp, env, granted)]
  {
    Pieces();
    hide Visited, Outcomes, Contains, Marks, Last, DecideThen, DryRunPlan;
    var guards := Guards(cfg, spec, resp, env, granted);
    assert guards == [guards[0]] + ([guards[1]] + ([guards[2]] + []));
    RefusalUnfolds();
    EnactShape(Move, spec, resp.reason, MoveEffects(env.move, key, resp.podName, resp.targetNode),
               MoveAnswer(spec, env.move, resp.podName, resp.targetNode));
    hide Refusal, MoveEffects, MoveAnswer, EnactPlan;
  }

  lemma ScaleEnds(cfg: Config, spec: Spec, resp: Response, env: Env, granted: bool)
    requires resp.action.AdjustReplicas?
    ensures Outcomes(ScalePlan(cfg, spec, resp, env)) == [Ending(cfg, spec, resp, env, granted)]
  {
    Pieces();
    hide Visited, Outcomes, Contains, Marks, Last, DecideThen, DryRunPlan;
    var guards := Guards(cfg, spec, resp, env, granted);
    assert guards == [guards[0]] + ([guards[1]] + ([guards[2]] + ([guards[3]] + [])));
    RefusalUnfolds();
    EnactShape(AdjustReplicas, spec, resp.reason, ScaleEffects(spec, resp.targetReplicas, env.scale),
               ScaleAnswer(spec, resp.targetReplicas, env.scale));
    hide Refusal, Bounds, ScaleEffects, ScaleAnswer, EnactPlan;
  }

  lemma ResourceEnds(cfg: Config, spec: Spec, resp: Response, env: Env, granted: bool)
    requires resp.action.AdjustResources?
    ensures Outcomes(ResourcePlan(cfg, spec, resp, env)) == [Ending(cfg, spec, resp, env, granted)]
  {
    Pieces();
    hide Visited, Outcomes, Contains, Marks, Last, DecideThen, DryRunPlan;
    var effects := ResourceEffects(spec, resp.containerName, resp.targetCpu.OrZero(), resp.targetMemory.OrZero(), env.resource);
    ResourceEffectKinds(spec, resp.containerName, resp.targetCpu.OrZero(), resp.targetMemory.OrZero(), env.resource);
    hide ResourceEffects;
    EnactShape(AdjustResources, spec, resp.reason, effects, ResourceAnswer(spec, resp.containerName, env.resource));
    var guards := Guards(cfg, spec, resp, env, granted);
    assert guards == [guards[0]] + ([guards[1]] + ([guards[2]] + ([guards[3]] + ([guards[4]] + []))));
    RefusalUnfolds();
    hide Refusal, ResourceAnswer, EnactPlan, HasExistingLimits, Find;
  }

  /** Every answer, known or not, ends the cycle as its table says. */
  lemma AnswersEndByTable(cfg: Config, spec: Spec, key: string, resp: Response, env: Env, granted: bool)
    ensures Outcomes(DispatchPlan(cfg, spec, key, resp, env, granted)) == [Ending(cfg, spec, resp, env, granted)]
  {
    Unfolds();
    hide Visited, Outcomes, Contains, Marks;
    match resp.action
    case Move => MoveEnds(cfg, spec, key, resp, env, granted);
    case AdjustReplicas => ScaleEnds(cfg, spec, resp, env, granted);
    case AdjustResources => ResourceEnds(cfg, spec, resp, env, granted);
    case _ =>
  }

  function FinalMark(plan: Plan): Option<Mark> {
    if Marks(plan) == [] then None else Some(Marks(plan)[|Marks(plan)| - 1])
  }

  /** What the last transition of a cycle files for an answer: its action, none for an unknown one,
      its outcome by the table, and the profile's cooldown, none for a Move the limiter refused. */
  function FiledMark(cfg: Config, spec: Spec, resp: Response, env: Env, granted: bool): Mark {
    var known := resp.action != NoAction && resp.action != Retry && !resp.action.Unknown?;
    var refused := resp.action == Move && !spec.dryRun && !granted
                   && Refusal(Guards(cfg, spec, resp, env, true)) == None;
    Mark(Watching, if known then resp.action else NoAction, Some(Ending(cfg, spec, resp, env, granted)),
         if refused then 0 else spec.cooldownSeconds)
  }

  lemma MarksUnfold()
    ensures forall req :: FinalMark(Last(req)) == Some(Mark(req.to, req.action, req.outcome, req.cooldown))
    ensures forall effect, rest: Plan :: Marks(rest) != [] ==> FinalMark(Do(effect, rest)) == FinalMark(rest)
    ensures forall effect, rest :: Marks(rest) != [] ==> Marks(Do(effect, rest)) != []
    ensures forall req :: Marks(Last(req)) != []
  {
    Unfolds();
    hide Visited, Outcomes, Contains, Marks;
  }

  lemma {:induction false} ThenFinal(effects: seq<Effect>, rest: Plan)
    requires Marks(rest) != []
    ensures Marks(Then(effects, rest)) != [] && FinalMark(Then(effects, rest)) == FinalMark(rest)
  {
    if effects != [] {
      ThenFinal(effects[1..], rest);
      MarksUnfold();
      hide Marks, FinalMark;
    }
  }

  lemma EnactFinal(action: Action, spec: Spec, reason: string, effects: seq<Effect>, r: EnactorResult)
    ensures var plan := EnactPlan(action, spec, reason, effects, r);
            Marks(plan) != [] && FinalMark(plan) == Some(Mark(Watching, action, Some(OutcomeOf(r)), spec.cooldownSeconds))
  {
    MarksUnfold();
    ThenFinal(effects, Last(End(action, OutcomeOf(r), spec.cooldownSeconds, reason)));
    hide Marks, FinalMark;
  }

  lemma DryRunFinal(action: Action, spec: Spec)
    ensures var plan := DryRunPlan(action, spec);
            Marks(plan) != [] && FinalMark(plan) == Some(Mark(Watching, action, Some(Enacted), spec.cooldownSeconds))
  {
    MarksUnfold();
    hide Marks, FinalMark;
  }

  lemma MoveFinal(cfg: Config, spec: Spec, key: string, resp: Response, env: Env, granted: bool)
    requires resp.action.Move?
    ensures FinalMark(MovePlan(cfg, spec, key, resp, env, granted)) == Some(FiledMark(cfg, spec, resp, env, granted))
  {
    hide Marks, FinalMark, Last, DryRunPlan, EnactPlan, Refusal, MoveEffects, MoveAnswer;
    MarksUnfold();
    RefusalUnfolds();
    var guards, granting := Guards(cfg, spec, resp, env, granted), Guards(cfg, spec, resp, env, true);
    assert guards == [guards[0]] + ([guards[1]] + ([guards[2]] + []));
    assert granting == [granting[0]] + ([granting[1]] + ([granting[2]] + []));
    DryRunFinal(Move, spec);
    EnactFinal(Move, spec, resp.reason, MoveEffects(env.move, key, resp.podName, resp.targetNode),
               MoveAnswer(spec, env.move, resp.podName, resp.targetNode));
  }

  lemma ScaleFinal(cfg: Config, spec: Spec, resp: Response, env: Env, granted: bool)
    requires resp.action.AdjustReplicas?
    ensures FinalMark(ScalePlan(cfg, spec, resp, env)) == Some(FiledMark(cfg, spec, resp, env, granted))
  {
    hide Marks, FinalMark, Last, DryRunPlan, EnactPlan, Refusal, Bounds, ScaleEffects, ScaleAnswer;
    MarksUnfold();
    RefusalUnfolds();
    var guards := Guards(cfg, spec, resp, env, granted);
    assert guards == [guards[0]] + ([guards[1]] + ([guards[2]] + ([guards[3]] + [])));
    DryRunFinal(AdjustReplicas, spec);
    EnactFinal(AdjustReplicas, spec, resp.reason, ScaleEffects(spec, resp.targetReplicas, env.scale),
               ScaleAnswer(spec, resp.targetReplicas, env.scale));
  }

  lemma ResourceFinal(cfg: Config, spec: Spec, resp: Response, env: Env, granted: bool)
    requires resp.action.AdjustResources?
    ensures FinalMark(ResourcePlan(cfg, spec, resp, env)) == Some(FiledMark(cfg, spec, resp, env, granted))
  {
    hide Marks, FinalMark, Last, DryRunPlan, EnactPlan, Refusal, ResourceEffects, ResourceAnswer, HasExistingLimits, Find;
    MarksUnfold();
    RefusalUnfolds();
    var guards := Guards(cfg, spec, resp, env, granted);
    assert guards == [guards[0]] + ([guards[1]] + ([guards[2]] + ([guards[3]] + ([guards[4]] + []))));
    DryRunFinal(AdjustResources, spec);
    EnactFinal(AdjustResources, spec, resp.reason,
               ResourceEffects(spec, resp.containerName, resp.targetCpu.OrZero(), resp.targetMemory.OrZero(), env.resource),
               ResourceAnswer(spec, resp.containerName, env.resource));
  }

  /** Whatever the answer, that is what its cycle files. */
  lemma AnswersFile(cfg: Config, spec: Spec, key: string, resp: Response, env: Env, granted: bool)
    ensures FinalMark(DispatchPlan(cfg, spec, key, resp, env, granted)) == Some(FiledMark(cfg, spec, resp, env, granted))
  {
    MarksUnfold();
    hide Marks, FinalMark;
    match resp.action
    case Move => MoveFinal(cfg, spec, key, resp, env, granted);
    case AdjustReplicas => ScaleFinal(cfg, spec, resp, env, granted);
    case AdjustResources => ResourceFinal(cfg, spec, resp, env, granted);
    case _ =>
  }

  /** An adjustment of resources that passes its guardrails and whose patch is stored is recorded
      Enacted, also with both targets zero, when the patch can change nothing. */
  lemma AcceptedPatchIsEnacted(cfg: Config, spec: Spec, key: string, resp: Response, env: Env, granted: bool)
    requires resp.action.AdjustResources? && GuardsPass(cfg, spec, resp, env)
    requires ResourcePatches(spec, resp.containerName, env.resource)
    ensures Outcomes(DispatchPlan(cfg, spec, key, resp, env, granted)) == [Enacted]
  {
    AnswersEndByTable(cfg, spec, key, resp, env, granted);
    hide Outcomes, DispatchPlan, HasExistingLimits, Find;
    RefusalIsFirst(Guards(cfg, spec, resp, env, granted));
  }
}
