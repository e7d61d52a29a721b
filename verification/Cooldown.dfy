/**
 How far apart the consultations of the agent lie, when a profile keeps one cooldown
 length: in every run of the fleet, whatever crashes, fails or writes in between.
 */
module Cooldown {
  import opened Profile
  import opened Step
  import opened Effects
  import opened Triggers
  import opened PendingPods
  import opened Moves
  import opened Plans
  import opened Legality
  import opened Fleet
  import opened FleetResults

  /** The one ending that arms no cooldown: a Move the limiter refused. */
  predicate RefusedByLimiter(req: Request) {
    req == End(Move, Failed, 0, "rate limit")
  }

  /** Every other ending arms the cooldown `c`, and the agent is asked once at most. */
  predicate Steady(plan: Plan, c: int) {
    plan.Do? ==>
      && (plan.effect.Write? && plan.effect.req.to.Watching? ==> plan.effect.req.cooldown == c || RefusedByLimiter(plan.effect.req))
      && (plan.effect.AskAgent? ==> !WillAsk(plan.rest))
      && Steady(plan.rest, c)
  }

  lemma SteadyUnfolds(c: int)
    ensures Steady(Done, c)
    ensures forall effect, rest :: Steady(Do(effect, rest), c) <==>
              && (effect.Write? && effect.req.to.Watching? ==> effect.req.cooldown == c || RefusedByLimiter(effect.req))
              && (effect.AskAgent? ==> !WillAsk(rest))
              && Steady(rest, c)
  {
  }

  lemma {:induction false} SteadyThen(effects: seq<Effect>, rest: Plan, c: int)
    requires forall e :: e in effects ==> !e.Write? && !e.AskAgent?
    requires Steady(rest, c)
    ensures Steady(Then(effects, rest), c)
    ensures WillAsk(Then(effects, rest)) <==> WillAsk(rest)
  {
    if effects != [] { SteadyThen(effects[1..], rest, c); }
  }

  lemma EnactIsSteady(action: Action, spec: Spec, reason: string, effects: seq<Effect>, r: EnactorResult)
    requires forall e :: e in effects ==> !e.Write? && !e.AskAgent?
    ensures Steady(EnactPlan(action, spec, reason, effects, r), spec.cooldownSeconds)
    ensures !WillAsk(EnactPlan(action, spec, reason, effects, r))
  {
    SteadyUnfolds(spec.cooldownSeconds);
    AskUnfolds();
    hide Steady, WillAsk;
    SteadyThen(effects, Last(End(action, OutcomeOf(r), spec.cooldownSeconds, reason)), spec.cooldownSeconds);
  }

  lemma MoveIsSteady(cfg: Config, spec: Spec, key: string, resp: Response, env: Env, granted: bool)
    ensures Steady(MovePlan(cfg, spec, key, resp, env, granted), spec.cooldownSeconds)
    ensures !WillAsk(MovePlan(cfg, spec, key, resp, env, granted))
  {
    SteadyUnfolds(spec.cooldownSeconds);
    AskUnfolds();
    hide Steady, WillAsk;
    EnactIsSteady(Move, spec, resp.reason, MoveEffects(env.move, key, resp.podName, resp.targetNode),
                  MoveAnswer(spec, env.move, resp.podName, resp.targetNode));
    hide MoveEffects, MoveAnswer, EnactPlan;
  }

  lemma ScaleIsSteady(cfg: Config, spec: Spec, resp: Response, env: Env)
    ensures Steady(ScalePlan(cfg, spec, resp, env), spec.cooldownSeconds)
    ensures !WillAsk(ScalePlan(cfg, spec, resp, env))
  {
    SteadyUnfolds(spec.cooldownSeconds);
    AskUnfolds();
    hide Steady, WillAsk;
    EnactIsSteady(AdjustReplicas, spec, resp.reason, Scale.ScaleEffects(spec, resp.targetReplicas, env.scale),
                  Scale.ScaleAnswer(spec, resp.targetReplicas, env.scale));
    hide EnactPlan, Scale.Bounds, Scale.ScaleAnswer, Scale.ScaleEffects;
  }

  lemma ResourceIsSteady(cfg: Config, spec: Spec, resp: Response, env: Env)
    ensures Steady(ResourcePlan(cfg, spec, resp, env), spec.cooldownSeconds)
    ensures !WillAsk(ResourcePlan(cfg, spec, resp, env))
  {
    SteadyUnfolds(spec.cooldownSeconds);
    AskUnfolds();
    hide Steady, WillAsk;
    var effects := Resources.ResourceEffects(spec, resp.containerName, resp.targetCpu.OrZero(), resp.targetMemory.OrZero(), env.resource);
    Resources.ResourceEffectKinds(spec, resp.containerName, resp.targetCpu.OrZero(), resp.targetMemory.OrZero(), env.resource);
    hide Resources.ResourceEffects;
    EnactIsSteady(AdjustResources, spec, resp.reason, effects, Resources.ResourceAnswer(spec, resp.containerName, env.resource));
    hide EnactPlan, Resources.ResourceAnswer, Resources.HasExistingLimits, Resources.Find, WellFormedResources;
  }

  lemma AgentIsSteady(cfg: Config, spec: Spec, key: string, condition: string, env: Env, granted: bool)
    ensures Steady(AgentPlan(cfg, spec, key, condition, env, granted), spec.cooldownSeconds)
  {
    SteadyUnfolds(spec.cooldownSeconds);
    AskUnfolds();
    hide Steady, WillAsk;
    if env.agent.Answered? {
      MoveIsSteady(cfg, spec, key, env.agent.resp, env, granted);
      ScaleIsSteady(cfg, spec, env.agent.resp, env);
      ResourceIsSteady(cfg, spec, env.agent.resp, env);
      hide MovePlan, ScalePlan, ResourcePlan;
    }
  }

  lemma EveryPlanIsSteady(cfg: Config, key: string, seen: Profile, env: Env, granted: bool)
    ensures Steady(ReconcilePlan(cfg, key, seen, env, granted), seen.spec.cooldownSeconds)
    ensures WillAsk(ReconcilePlan(cfg, key, seen, env, granted)) ==> seen.rs.state.Resting()
  {
    var spec := seen.spec;
    SteadyUnfolds(spec.cooldownSeconds);
    AskUnfolds();
    hide Steady, WillAsk;
    var verdict := VerdictOf(spec.triggerConditions, spec.app, env.world);
    if verdict.Matched? {
      AgentIsSteady(cfg, spec, key, verdict.condition, env, granted);
      RetryWritesNothing(env);
      SteadyThen(RetryEffects(env.retry),
        Last(End(verdict.bypass, if RetrySucceeds(env.retry) then Enacted else Failed, spec.cooldownSeconds, verdict.condition)),
        spec.cooldownSeconds);
    }
    hide VerdictOf, AgentPlan;
  }

  // ----- runs that keep one cooldown length -----

  /** The profile starts with the cooldown `c` and no edit of its spec changes it. */
  ghost predicate OneLength(trace: seq<Fleet>, events: seq<Event>, name: string, c: int)
    requires trace != []
  {
    && c > 0
    && name in trace[0].members && trace[0].members[name].profile.spec.cooldownSeconds == c
    && forall i :: 0 <= i < |events| ==> KeepsLength(events[i], name, c)
  }

  predicate KeepsLength(e: Event, name: string, c: int) {
    e.Other? && e.name == name && e.write.EditSpec? ==> e.write.spec.cooldownSeconds == c
  }

  ghost predicate Spaced(m: Member, c: int) {
    && c > 0
    && m.profile.spec.cooldownSeconds == c && Steady(m.worker, c)
    && (m.armedEnd.Some? ==> m.armedEnd.value.1 == c)
    && (WillAsk(m.worker) ==> m.asked.None?)
    && (m.asks != [] ==> m.armedEnd.Some? && m.asks[|m.asks| - 1] <= m.armedEnd.value.0)
    && forall i :: 0 < i < |m.asks| ==> m.asks[i - 1] + c <= m.asks[i]
  }

  lemma StoppedSpaced(m: Member, c: int)
    requires Spaced(m, c)
    ensures Spaced(Stopped(m), c)
  {
  }

  lemma StoredSpaced(m: Member, key: string, max: nat, now: int, id: nat, c: int)
    requires MemberRight(m, key, max, now) && Spaced(m, c) && m.worker.Do? && m.worker.effect.Write? && Fits(m, max, now, id)
    ensures Stored(m, max, now, id).worker == m.worker && Spaced(Stored(m, max, now, id), c)
  {
    var s := Stored(m, max, now, id);
    assert s.profile.spec == m.profile.spec;
    assert m.worker.effect.req.to.Watching? && m.worker.effect.req.cooldown > 0 ==> m.worker.effect.req.cooldown == c;
    assert m.asked.Some? ==> m.profile.rs.cooldownUntil <= m.asked.value <= now;
    hide Fits, Apply, Steady, WillAsk, MemberRight;
  }

  lemma AdvanceSpaced(m: Member, c: int)
    requires Spaced(m, c) && m.worker.Do?
    ensures Spaced(m.(worker := m.worker.rest), c)
    ensures m.worker.effect.AskAgent? ==> forall at :: Spaced(m.(worker := m.worker.rest, asked := Some(at)), c)
  {
  }

  /** Tokens and hints play no part. */
  lemma Unrelated(m: Member, k: Member, c: int)
    requires Spaced(m, c)
    requires k.worker == m.worker && k.profile.spec == m.profile.spec
    requires k.armedEnd == m.armedEnd && k.asked == m.asked && k.asks == m.asks
    ensures Spaced(k, c)
  {
  }

  lemma PerformSpaced(f: Fleet, name: string, id: nat, c: int)
    requires MembersRight(f) && Enabled(f, Perform(name, id)) && Spaced(f.members[name], c)
    ensures Spaced(Next(f, Perform(name, id)).members[name], c)
  {
    var m := f.members[name];
    assert MemberRight(m, Key(name), f.max, f.now);
    AdvanceSpaced(m, c);
    if m.worker.effect.Write? {
      StoppedSpaced(m, c);
      if Fits(m, f.max, f.now, id) {
        StoredSpaced(m, Key(name), f.max, f.now, id, c);
        AdvanceSpaced(Stored(m, f.max, f.now, id), c);
        Unrelated(Stored(m, f.max, f.now, id).(worker := m.worker.rest), Next(f, Perform(name, id)).members[name], c);
      }
    } else if !m.worker.effect.AskAgent? {
      Unrelated(m.(worker := m.worker.rest), Next(f, Perform(name, id)).members[name], c);
    }
    hide Spaced, MemberRight, MembersRight, Apply, Stored;
  }

  lemma BeginSpaced(m: Member, key: string, max: nat, cfg: Config, env: Env, granted: bool, c: int)
    requires MemberRight(m, key, max, env.now) && Spaced(m, c)
    ensures Spaced(m.(worker := ReconcilePlan(cfg, key, m.profile, env, granted), dry := m.profile.spec.dryRun), c)
  {
    EveryPlanIsSteady(cfg, key, m.profile, env, granted);
    hide ReconcilePlan, Steady, WillAsk, Replay, Accepts;
  }

  lemma LoseWriteSpaced(f: Fleet, name: string, id: nat, stored: bool, c: int)
    requires MembersRight(f) && Enabled(f, LoseWrite(name, id, stored)) && Spaced(f.members[name], c)
    ensures Spaced(Next(f, LoseWrite(name, id, stored)).members[name], c)
  {
    var m := f.members[name];
    assert MemberRight(m, Key(name), f.max, f.now);
    StoppedSpaced(m, c);
    if Fits(m, f.max, f.now, id) {
      StoredSpaced(m, Key(name), f.max, f.now, id, c);
      StoppedSpaced(Stored(m, f.max, f.now, id), c);
    }
    hide Spaced, MemberRight, MembersRight, Apply, Stored, Stopped;
  }

  lemma OtherSpaced(m: Member, max: nat, w: Write, c: int)
    requires Spaced(m, c) && !w.Transition? && Apply(m.profile, max, w).Some?
    requires w.EditSpec? ==> w.spec.cooldownSeconds == c
    ensures Spaced(m.(profile := Apply(m.profile, max, w).value, log := m.log + [w]), c)
  {
    hide Steady, WillAsk;
  }

  /** A step of one member leaves the others alone. */
  lemma NextSpaced(f: Fleet, e: Event, name: string, c: int)
    requires MembersRight(f) && Enabled(f, e) && name in f.members && Spaced(f.members[name], c)
    requires KeepsLength(e, name, c)
    ensures name in Next(f, e).members && Spaced(Next(f, e).members[name], c)
  {
    var m := f.members[name];
    assert MemberRight(m, Key(name), f.max, f.now);
    hide Spaced, MembersRight, MemberRight, ReconcilePlan, Apply, Stored, Stopped, AfterEffect, AfterWrite, Spent;
    match e
    case Begin(n, env, granted) =>
      if n == name { BeginSpaced(m, Key(n), f.max, f.cfg, env, granted, c); }
    case Perform(n, id) =>
      if n == name { PerformSpaced(f, name, id, c); }
    case LoseWrite(n, id, stored) =>
      if n == name { LoseWriteSpaced(f, name, id, stored, c); }
    case Crash => StoppedSpaced(m, c);
    case Other(n, w) =>
      if n == name { OtherSpaced(m, f.max, w, c); }
    case Reserve(n, timeout) => Unrelated(m, Next(f, e).members[name], c);
    case _ =>
  }

  lemma {:induction false} RunSpaced(trace: seq<Fleet>, events: seq<Event>, n: nat, name: string, c: int)
    requires Reachable(trace, events, n) && OneLength(trace, events, name, c)
    ensures name in trace[n].members && Spaced(trace[n].members[name], c)
  {
    if n == 0 {
      SteadyUnfolds(c);
    } else {
      RunSpaced(trace, events, n - 1, name, c);
      EveryRunKeepsInv(trace, events, n - 1);
      assert Enabled(trace[n - 1], events[n - 1]) && trace[n] == Next(trace[n - 1], events[n - 1]);
      hide Run, Spaced, MembersRight, HintsRight, TokensRight, TokensDistinct, Enabled, Next;
      NextSpaced(trace[n - 1], events[n - 1], name, c);
    }
  }

  /** Nobody asks the agent before the cooldown is over that the last cycle armed when it ended,
      the watchdog's and the bypass's cycles included; only a refused Move arms none. */
  lemma NoConsultationWhileCooling(trace: seq<Fleet>, events: seq<Event>, n: nat, name: string)
    requires Reachable(trace, events, n) && name in trace[n].members
    requires trace[n].members[name].worker.Do? && trace[n].members[name].worker.effect.AskAgent?
    ensures var m := trace[n].members[name];
            m.armedEnd.Some? ==> m.armedEnd.value.0 + m.armedEnd.value.1 <= trace[n].now
  {
    MemberIsRight(trace, events, n, name);
    hide Run, Replay, Accepts;
  }

  /** With one cooldown length, what ends a cycle always arms it unless the limiter refused. */
  lemma EveryEndingArms(trace: seq<Fleet>, events: seq<Event>, n: nat, name: string, c: int)
    requires Reachable(trace, events, n) && OneLength(trace, events, name, c)
    ensures name in trace[n].members
    ensures var m := trace[n].members[name];
            m.worker.Do? && m.worker.effect.Write? && m.worker.effect.req.to.Watching? ==>
              m.worker.effect.req.cooldown == c || RefusedByLimiter(m.worker.effect.req)
  {
    RunSpaced(trace, events, n, name, c);
    hide Run;
  }

  /** Consultations of cycles that armed the cooldown lie at least a cooldown apart, the one
      of the cycle in flight included. */
  lemma {:induction false} AsksAreApart(m: Member, c: int, i: nat, j: nat)
    requires Spaced(m, c) && i <= j < |m.asks|
    ensures m.asks[i] + c * (j - i) <= m.asks[j]
    decreases j - i
  {
    if i < j {
      AsksAreApart(m, c, i, j - 1);
      assert c * (j - i) == c * (j - 1 - i) + c;
    }
  }

  /** In any interval of `length` seconds at most 1 + length / c of them start. */
  lemma ConsultationsAreBounded(trace: seq<Fleet>, events: seq<Event>, n: nat, name: string, c: int, i: nat, j: nat, length: nat)
    requires Reachable(trace, events, n) && OneLength(trace, events, name, c)
    ensures name in trace[n].members
    ensures var m := trace[n].members[name];
            var all := if m.asked.Some? then m.asks + [m.asked.value] else m.asks;
            i <= j < |all| && all[j] - all[i] <= length ==> j - i + 1 <= 1 + length / c
  {
    RunSpaced(trace, events, n, name, c);
    MemberIsRight(trace, events, n, name);
    hide Run, Replay, Accepts, Steady, WillAsk;
    var m := trace[n].members[name];
    var all := if m.asked.Some? then m.asks + [m.asked.value] else m.asks;
    if i <= j < |all| && all[j] - all[i] <= length {
      if j < |m.asks| {
        AsksAreApart(m, c, i, j);
      } else if i < j {
        AsksAreApart(m, c, i, j - 1);
        assert m.asks[j - 1] + c <= all[j];
        assert c * (j - i) == c * (j - 1 - i) + c;
      }
      assert c * (j - i) <= length;
      QuotientBound(j - i, length, c);
    }
  }

  lemma QuotientBound(k: nat, length: nat, c: int)
    requires c > 0 && c * k <= length
    ensures k <= length / c
  {
    assert length < c * (length / c + 1);
    assert c * k < c * (length / c + 1);
  }
}
