/** The reconciler itself: ordered transitions with early returns, proved to run its plan. */
module Reconciler {
  import opened Profile
  import opened Step
  import opened Effects
  import opened StateWriter
  import opened DecisionStore
  import opened RateLimiter
  import opened Triggers
  import opened PendingPods
  import opened Scale
  import opened Resources
  import opened Moves
  import opened Plans
  import Escalation
  import RunShape

  /** A plan prefixed by an enactor's effects runs those effects and then the rest. */
  lemma {:induction false} ExecThen(p: Profile, max: nat, effects: seq<Effect>, rest: Plan, rounds: seq<seq<Round>>, k: nat)
    requires forall e :: e in effects ==> !e.Write?
    ensures var t := Exec(p, max, rest, rounds, k);
            Exec(p, max, Then(effects, rest), rounds, k) == t.(events := AllDid(effects) + t.events)
  {
    var t := Exec(p, max, rest, rounds, k);
    AllDidUnfolds(effects, t.events);
    if effects != [] {
      ExecThen(p, max, effects[1..], rest, rounds, k);
      ExecEffect(p, max, effects[0], Then(effects[1..], rest), rounds, k);
    }
    hide Exec, AllDid;
  }

  lemma AllDidUnfolds(effects: seq<Effect>, events: seq<LogEntry>)
    ensures effects == [] ==> AllDid(effects) + events == events
    ensures effects != [] ==> AllDid(effects) + events == [Did(effects[0])] + (AllDid(effects[1..]) + events)
  {
    if effects != [] {
      assert AllDid(effects) == [Did(effects[0])] + AllDid(effects[1..]);
    }
  }

  lemma ExecEffect(p: Profile, max: nat, effect: Effect, rest: Plan, rounds: seq<seq<Round>>, k: nat)
    requires !effect.Write?
    ensures var t := Exec(p, max, rest, rounds, k);
            Exec(p, max, Do(effect, rest), rounds, k) == t.(events := [Did(effect)] + t.events)
  {
    hide AfterCall, Attempts, RoundsAt;
  }

  function EffectsOf(plan: Plan): seq<Effect> {
    if plan.Done? then [] else [plan.effect] + EffectsOf(plan.rest)
  }

  /** The first `n` effects were done, and that was all, or the transition after them failed. */
  ghost predicate StopsAfter(effects: seq<Effect>, events: seq<LogEntry>, n: nat) {
    && n <= |effects| && n <= |events|
    && (forall i :: 0 <= i < n ==> events[i] == Did(effects[i]))
    && (|events| == n ==> n == |effects|)
    && (|events| != n ==> |events| == n + 1 && n < |effects| && effects[n].Write? && events[n] == WriteFailed(effects[n].req))
  }

  /** Whatever the cluster and the API server answer, the effects done are the plan's, in order,
      and nothing is done after a transition that was not confirmed. */
  lemma {:induction false} NothingAfterAFailure(p: Profile, max: nat, plan: Plan, rounds: seq<seq<Round>>, k: nat) returns (n: nat)
    ensures StopsAfter(EffectsOf(plan), Exec(p, max, plan, rounds, k).events, n)
    decreases plan
  {
    hide AfterCall, Attempts, RoundsAt;
    n := 0;
    if plan.Do? {
      if !plan.effect.Write? {
        n := NothingAfterAFailure(p, max, plan.rest, rounds, k);
        n := n + 1;
      } else if Attempts(p, max, plan.effect.req, RoundsAt(rounds, k)).result.Committed? {
        n := NothingAfterAFailure(AfterCall(p, max, plan.effect.req, RoundsAt(rounds, k)), max, plan.rest, rounds, k + 1);
        n := n + 1;
      }
    }
  }

  /** A transition counts as done if and only if the writer confirmed it with the status stored. */
  lemma DoneMeansConfirmed(p: Profile, max: nat, req: Request, rest: Plan, rounds: seq<seq<Round>>, k: nat)
    ensures var run := Attempts(p, max, req, RoundsAt(rounds, k));
            var events := Exec(p, max, Do(Write(req), rest), rounds, k).events;
            events != [] && (events[0] == Did(Write(req)) <==> exists rs :: run.result == Committed(rs))
  {
    hide AfterCall, Attempts, RoundsAt;
    var run := Attempts(p, max, req, RoundsAt(rounds, k));
    assert run.result.Committed? ==> run.result == Committed(run.result.rs);
  }

  function AllDid(effects: seq<Effect>): (r: seq<LogEntry>)
    ensures |r| == |effects|
    ensures forall i :: 0 <= i < |r| ==> r[i] == Did(effects[i])
  {
    seq(|effects|, i requires 0 <= i < |effects| => Did(effects[i]))
  }

  class Reconciler {
    const cfg: Config
    const key: string
    const writer: StateWriter
    const store: DecisionStore
    const limiter: MoveRateLimiter
    var calls: nat
    ghost var log: seq<LogEntry>

    constructor (cfg: Config, key: string, writer: StateWriter, store: DecisionStore, limiter: MoveRateLimiter)
      ensures this.cfg == cfg && this.key == key && this.writer == writer && this.store == store && this.limiter == limiter
      ensures log == [] && calls == 0
    {
      this.cfg, this.key, this.writer, this.store, this.limiter := cfg, key, writer, store, limiter;
      this.calls := 0;
      this.log := [];
    }

    ghost predicate Valid()
      reads this, writer.stored, store, limiter
    {
      writer.stored.Valid() && store.Valid() && limiter.Valid()
    }

    /** What was done so far, and the stored profile as it now is. */
    ghost function Now(): (seq<LogEntry>, Profile)
      reads this, writer.stored
    {
      (log, writer.stored.profile)
    }

    /** What will have been done, and stored, once `plan` has run from here. */
    ghost function Ahead(plan: Plan, rounds: seq<seq<Round>>): (seq<LogEntry>, Profile)
      reads this, writer.stored
    {
      var t := Exec(writer.stored.profile, writer.stored.max, plan, rounds, calls);
      (log + t.events, t.profile)
    }

    lemma AheadDone(rounds: seq<seq<Round>>)
      ensures Ahead(Done, rounds) == Now()
    {
      assert log + [] == log;
    }

    method Commit(req: Request, rounds: seq<seq<Round>>) returns (ok: bool)
      requires Valid()
      modifies this, writer.stored
      ensures Valid()
      ensures forall rest :: old(Ahead(Do(Write(req), rest), rounds)) == if ok then Ahead(rest, rounds) else Now()
    {
      ghost var p, max := writer.stored.profile, writer.stored.max;
      var result := writer.Transition(req, RoundsAt(rounds, calls));
      AttemptsAreSequential(p, max, req, RoundsAt(rounds, calls));
      hide Attempts, Replay, SequentialRun;
      ok := result.Committed?;
      calls := calls + 1;
      log := log + [if ok then Did(Write(req)) else WriteFailed(req)];
      forall rest
        ensures old(Ahead(Do(Write(req), rest), rounds)) == if ok then Ahead(rest, rounds) else Now()
      {
        ghost var t := Exec(writer.stored.profile, max, rest, rounds, calls);
        assert old(log) + ([Did(Write(req))] + t.events) == old(log) + [Did(Write(req))] + t.events;
      }
    }

    /** The last transition of a path: whether it succeeds is only logged. */
    method CommitLast(req: Request, rounds: seq<seq<Round>>)
      requires Valid()
      modifies this, writer.stored
      ensures Valid()
      ensures Now() == old(Ahead(Last(req), rounds))
    {
      hide Ahead;
      var ok := Commit(req, rounds);
      AheadDone(rounds);
    }

    ghost method Note(effects: seq<Effect>, rounds: seq<seq<Round>>)
      requires forall e :: e in effects ==> !e.Write?
      modifies this`log
      ensures forall rest :: old(Ahead(Then(effects, rest), rounds)) == Ahead(rest, rounds)
    {
      log := log + AllDid(effects);
      forall rest
        ensures old(Ahead(Then(effects, rest), rounds)) == Ahead(rest, rounds)
      {
        ExecThen(writer.stored.profile, writer.stored.max, effects, rest, rounds, calls);
        hide Exec;
        ghost var t := Exec(writer.stored.profile, writer.stored.max, rest, rounds, calls);
        assert old(log) + (AllDid(effects) + t.events) == old(log) + AllDid(effects) + t.events;
      }
    }

    ghost method NoteOne(effect: Effect, rounds: seq<seq<Round>>)
      requires !effect.Write?
      modifies this`log
      ensures forall rest :: old(Ahead(Do(effect, rest), rounds)) == Ahead(rest, rounds)
    {
      forall rest
        ensures Then([effect], rest) == Do(effect, rest)
      {
        assert [effect][1..] == [];
      }
      Note([effect], rounds);
    }

    method EnactBypassAction(spec: Spec, condition: string, bypass: Action, env: Env)
      requires Valid()
      modifies this, writer.stored
      ensures Valid()
      ensures Now() == old(Ahead(BypassPlan(spec, bypass, condition, env.retry), env.rounds))
    {
      hide Ahead, RetryEffects, RetrySucceeds;
      var ok := Commit(To(Triggered, condition), env.rounds);
      if !ok { return; }
      ok := Commit(To(Evaluating, "bypass"), env.rounds);
      if !ok { return; }
      ok := Commit(For(Decided, bypass, condition), env.rounds);
      if !ok { return; }
      ok := Commit(For(Enacting, bypass, "enacting"), env.rounds);
      if !ok { return; }
      if bypass != Retry {
        CommitLast(End(bypass, Failed, spec.cooldownSeconds, "unknown bypass action"), env.rounds);
        return;
      }
      ghost var effects;
      ok, effects := RetryPendingSchedule(env.retry);
      RetryWritesNoStatus(env.retry);
      Note(effects, env.rounds);
      if !ok {
        CommitLast(End(bypass, Failed, spec.cooldownSeconds, condition), env.rounds);
        return;
      }
      CommitLast(End(bypass, Enacted, spec.cooldownSeconds, condition), env.rounds);
    }

    method RecoverStuckCycle(spec: Spec, rs: Status, env: Env)
      requires Valid()
      modifies this, writer.stored
      ensures Valid()
      ensures Now() == old(Ahead(WatchdogPlan(cfg, spec, rs, env.now), env.rounds))
    {
      hide Ahead;
      AheadDone(env.rounds);
      var stuckFor := env.now - rs.lastTransitionAt;
      if stuckFor < cfg.Stale() { return; }
      CommitLast(End(NoAction, Failed, spec.cooldownSeconds, "watchdog"), env.rounds);
    }

    method DispatchDryRun(action: Action, spec: Spec, env: Env)
      requires Valid()
      modifies this, writer.stored
      ensures Valid()
      ensures Now() == old(Ahead(DryRunPlan(action, spec), env.rounds))
    {
      hide Ahead;
      var ok := Commit(For(Enacting, action, "dry-run"), env.rounds);
      if !ok { return; }
      CommitLast(Request(Watching, "dry-run", action, "[dry-run]", Some(Enacted), spec.cooldownSeconds), env.rounds);
    }

    method DispatchMove(spec: Spec, resp: Response, env: Env, ghost granted: bool)
      requires Valid() && limiter.bucket.last <= env.waitAt
      requires granted <==> Reserve(limiter.bucket, env.waitAt, env.waitTimeout).Some?
      modifies this, writer.stored, store, limiter
      ensures Valid()
      ensures Now() == old(Ahead(MovePlan(cfg, spec, key, resp, env, granted), env.rounds))
      ensures key !in old(store.entries) ==> store.entries == old(store.entries)
      ensures spec.dryRun ==> store.entries == old(store.entries) && limiter.bucket == old(limiter.bucket)
    {
      hide Ahead, MoveEffects, MoveAnswer, Reserve;
      if resp.improvement < cfg.Improvement() {
        CommitLast(End(Move, Rejected, spec.cooldownSeconds, resp.reason), env.rounds);
        return;
      }
      if resp.podName == "" || resp.targetNode == "" {
        CommitLast(End(Move, Failed, spec.cooldownSeconds, resp.reason), env.rounds);
        return;
      }
      var ok := Commit(Request(Decided, resp.reason, Move, "decided", None, 0), env.rounds);
      if !ok { return; }
      var decisionId := writer.stored.profile.rs.decisionId;
      if spec.dryRun {
        DispatchDryRun(Move, spec, env);
        return;
      }
      var token := limiter.Wait(env.waitAt, env.waitTimeout);
      if !token {
        CommitLast(End(Move, Failed, 0, "rate limit"), env.rounds);
        return;
      }
      NoteOne(TakeToken, env.rounds);
      ok := Commit(For(Enacting, Move, "enacting"), env.rounds);
      if !ok { return; }
      var result;
      ghost var effects;
      result, effects := MoveEnactor(store, key, spec, resp.podName, resp.targetNode, resp.reason, decisionId, env.move);
      assert key !in old(store.entries) ==> old(store.entries) - {key} == old(store.entries);
      MoveWritesNoStatus(env.move, key, resp.podName, resp.targetNode);
      Note(effects, env.rounds);
      if result.EnactorError? {
        CommitLast(End(Move, Failed, spec.cooldownSeconds, resp.reason), env.rounds);
        return;
      }
      CommitLast(End(Move, result.outcome, spec.cooldownSeconds, resp.reason), env.rounds);
    }

    method DispatchScale(spec: Spec, resp: Response, env: Env)
      requires Valid()
      modifies this, writer.stored
      ensures Valid()
      ensures Now() == old(Ahead(ScalePlan(cfg, spec, resp, env), env.rounds))
    {
      hide Ahead, Bounds, ScaleAnswer;
      if resp.improvement < cfg.Improvement() {
        CommitLast(End(AdjustReplicas, Rejected, spec.cooldownSeconds, resp.reason), env.rounds);
        return;
      }
      if resp.targetReplicas <= 0 {
        CommitLast(End(AdjustReplicas, Failed, spec.cooldownSeconds, resp.reason), env.rounds);
        return;
      }
      var bounds := ResolveReplicaBounds(env.hpas, spec.app, cfg.minReplicas, cfg.maxReplicas);
      if bounds.kedaManaged {
        CommitLast(End(AdjustReplicas, Deferred, spec.cooldownSeconds, resp.reason), env.rounds);
        return;
      }
      if resp.targetReplicas < bounds.min || resp.targetReplicas > bounds.max {
        CommitLast(End(AdjustReplicas, Rejected, spec.cooldownSeconds, resp.reason), env.rounds);
        return;
      }
      var ok := Commit(Request(Decided, resp.reason, AdjustReplicas, "decided", None, 0), env.rounds);
      if !ok { return; }
      if spec.dryRun {
        DispatchDryRun(AdjustReplicas, spec, env);
        return;
      }
      ok := Commit(For(Enacting, AdjustReplicas, "enacting"), env.rounds);
      if !ok { return; }
      var result;
      ghost var effects;
      result, effects := ScaleEnactor(spec, resp.targetReplicas, env.scale);
      Note(effects, env.rounds);
      if result.EnactorError? {
        CommitLast(End(AdjustReplicas, Failed, spec.cooldownSeconds, resp.reason), env.rounds);
        return;
      }
      CommitLast(End(AdjustReplicas, result.outcome, spec.cooldownSeconds, resp.reason), env.rounds);
    }

    method DispatchResource(spec: Spec, resp: Response, env: Env)
      requires Valid()
      modifies this, writer.stored
      ensures Valid()
      ensures Now() == old(Ahead(ResourcePlan(cfg, spec, resp, env), env.rounds))
    {
      hide Ahead, ResourceEffects, ResourceAnswer;
      if resp.improvement < cfg.Improvement() {
        CommitLast(End(AdjustResources, Rejected, spec.cooldownSeconds, resp.reason), env.rounds);
        return;
      }
      if resp.containerName == "" || (resp.targetCpu.Empty? && resp.targetMemory.Empty?) {
        CommitLast(End(AdjustResources, Failed, spec.cooldownSeconds, resp.reason), env.rounds);
        return;
      }
      if resp.targetCpu.Malformed? || resp.targetMemory.Malformed? {
        CommitLast(End(AdjustResources, Failed, spec.cooldownSeconds, resp.reason), env.rounds);
        return;
      }
      var cpu, memory := resp.targetCpu.OrZero(), resp.targetMemory.OrZero();
      if env.template.None? || !Scalable(spec.app.kind) {
        CommitLast(End(AdjustResources, Failed, spec.cooldownSeconds, resp.reason), env.rounds);
        return;
      }
      var at := Find(env.template.value, resp.containerName);
      if at.None? {
        CommitLast(End(AdjustResources, Failed, spec.cooldownSeconds, resp.reason), env.rounds);
        return;
      }
      if !HasExistingLimits(env.template.value[at.value]) {
        CommitLast(End(AdjustResources, Deferred, spec.cooldownSeconds, resp.reason), env.rounds);
        return;
      }
      if !cfg.resources.OrDefaults().Check(cpu, memory) {
        CommitLast(End(AdjustResources, Rejected, spec.cooldownSeconds, resp.reason), env.rounds);
        return;
      }
      var ok := Commit(Request(Decided, resp.reason, AdjustResources, "decided", None, 0), env.rounds);
      if !ok { return; }
      if spec.dryRun {
        DispatchDryRun(AdjustResources, spec, env);
        return;
      }
      ok := Commit(For(Enacting, AdjustResources, "enacting"), env.rounds);
      if !ok { return; }
      var result, stored;
      ghost var effects;
      result, effects, stored := ResourceEnactor(spec, resp.containerName, cpu, memory, env.resource);
      ResourceWritesNoStatus(spec, resp.containerName, cpu, memory, env.resource);
      Note(effects, env.rounds);
      if result.EnactorError? {
        CommitLast(End(AdjustResources, Failed, spec.cooldownSeconds, resp.reason), env.rounds);
        return;
      }
      CommitLast(End(AdjustResources, result.outcome, spec.cooldownSeconds, resp.reason), env.rounds);
    }

    method DispatchDecision(spec: Spec, resp: Response, env: Env, ghost granted: bool)
      requires Valid() && limiter.bucket.last <= env.waitAt
      requires granted <==> Reserve(limiter.bucket, env.waitAt, env.waitTimeout).Some?
      modifies this, writer.stored, store, limiter
      ensures Valid()
      ensures Now() == old(Ahead(DispatchPlan(cfg, spec, key, resp, env, granted), env.rounds))
      ensures key !in old(store.entries) ==> store.entries == old(store.entries)
      ensures spec.dryRun ==> store.entries == old(store.entries) && limiter.bucket == old(limiter.bucket)
    {
      hide Ahead, MovePlan, ScalePlan, ResourcePlan, Reserve;
      match resp.action
      case DoNothing => CommitLast(End(DoNothing, NoOp, spec.cooldownSeconds, resp.reason), env.rounds);
      case Reject => CommitLast(End(Reject, Rejected, spec.cooldownSeconds, resp.reason), env.rounds);
      case Defer => CommitLast(End(Defer, Deferred, spec.cooldownSeconds, resp.reason), env.rounds);
      case Escalate => CommitLast(End(Escalate, Escalated, spec.cooldownSeconds, resp.reason), env.rounds);
      case Move => DispatchMove(spec, resp, env, granted);
      case AdjustReplicas => DispatchScale(spec, resp, env);
      case AdjustResources => DispatchResource(spec, resp, env);
      case _ => CommitLast(End(NoAction, Failed, spec.cooldownSeconds, resp.reason), env.rounds);
    }

    method EvaluateWithAI(spec: Spec, condition: string, env: Env, ghost granted: bool)
      requires Valid() && limiter.bucket.last <= env.waitAt
      requires granted <==> Reserve(limiter.bucket, env.waitAt, env.waitTimeout).Some?
      modifies this, writer.stored, store, limiter
      ensures Valid()
      ensures Now() == old(Ahead(AgentPlan(cfg, spec, key, condition, env, granted), env.rounds))
      ensures key !in old(store.entries) ==> store.entries == old(store.entries)
      ensures spec.dryRun ==> store.entries == old(store.entries) && limiter.bucket == old(limiter.bucket)
    {
      hide Ahead, DispatchPlan, Reserve;
      var ok := Commit(To(Triggered, condition), env.rounds);
      if !ok { return; }
      ok := Commit(To(Evaluating, "requesting decision"), env.rounds);
      if !ok { return; }
      if env.agent.ContextFailed? {
        CommitLast(End(NoAction, Failed, spec.cooldownSeconds, "context"), env.rounds);
        return;
      }
      NoteOne(AskAgent, env.rounds);
      if env.agent.Unavailable? {
        CommitLast(End(NoAction, Failed, spec.cooldownSeconds, "agent unavailable"), env.rounds);
        return;
      }
      DispatchDecision(spec, env.agent.resp, env, granted);
    }

    /** A cycle starts, has one outcome, and no call of it is going to be disturbed. */
    ghost predicate Completes(seen: Profile, env: Env, plan: Plan, calls: nat) {
      && RunShape.StartsCycle(seen, env) && |RunShape.Outcomes(plan)| == 1
      && Escalation.Smooth(env.rounds, calls, |RunShape.Visited(plan)|)
    }

    lemma CycleAheadIsFiled(seen: Profile, env: Env, granted: bool)
      requires var plan := ReconcilePlan(cfg, key, seen, env, granted);
               Completes(seen, env, plan, calls) && seen == writer.stored.profile
      ensures var plan := ReconcilePlan(cfg, key, seen, env, granted);
              && |RunShape.Outcomes(plan)| == 1
              && Escalation.EndsWith(seen, writer.stored.max, Ahead(plan, env.rounds).1, RunShape.Outcomes(plan)[0])
    {
      Escalation.CompletedCycleIsFiled(cfg, key, seen, env, granted, writer.stored.max, calls);
    }

    /** Does, in order, exactly what its plan says for what it saw and what it was answered,
        stopping at the first transition that is not confirmed; `seen` may be out of date. */
    method Reconcile(seen: Profile, env: Env)
      requires Valid() && limiter.bucket.last <= env.waitAt
      modifies this, writer.stored, store, limiter
      ensures Valid()
      ensures var granted := Reserve(old(limiter.bucket), env.waitAt, env.waitTimeout).Some?;
              Now() == old(Ahead(ReconcilePlan(cfg, key, seen, env, granted), env.rounds))
      ensures key !in old(store.entries) ==> store.entries == old(store.entries)
      ensures seen.spec.dryRun ==> store.entries == old(store.entries) && limiter.bucket == old(limiter.bucket)
      ensures !seen.spec.enabled || seen.rs.escalated ==> unchanged(this, writer.stored, store, limiter)
      ensures var plan := ReconcilePlan(cfg, key, seen, env, Reserve(old(limiter.bucket), env.waitAt, env.waitTimeout).Some?);
              Completes(seen, env, plan, old(calls)) && seen == old(writer.stored.profile) ==>
                Escalation.EndsWith(seen, writer.stored.max, writer.stored.profile, RunShape.Outcomes(plan)[0])
    {
      hide Ahead, Completes, Escalation.EndsWith, BypassPlan, AgentPlan, WatchdogPlan, VerdictOf, Reserve;
      ghost var granted := Reserve(limiter.bucket, env.waitAt, env.waitTimeout).Some?;
      ghost var plan := ReconcilePlan(cfg, key, seen, env, granted);
      if Completes(seen, env, plan, calls) && seen == writer.stored.profile { CycleAheadIsFiled(seen, env, granted); }
      AheadDone(env.rounds);
      var spec, rs := seen.spec, seen.rs;
      if !spec.enabled { return; }
      if rs.escalated { return; }
      if rs.state != Unset && rs.state != Watching {
        RecoverStuckCycle(spec, rs, env);
        return;
      }
      var verdict := Evaluate(spec.triggerConditions, spec.app, env.world);
      if !verdict.Matched? { return; }
      if verdict.bypass != NoAction {
        EnactBypassAction(spec, verdict.condition, verdict.bypass, env);
        return;
      }
      if rs.cooldownUntil != 0 {
        var remaining := rs.cooldownUntil - env.now;
        if remaining > 0 { return; }
      }
      EvaluateWithAI(spec, verdict.condition, env, granted);
    }
  }

  lemma RetryWritesNoStatus(run: RetryRun)
    ensures forall e :: e in RetryEffects(run) ==> !e.Write?
  {
    if run.pods.Some? { DeletesAreOfStuckPods(run.pods.value); }
  }

  lemma MoveWritesNoStatus(run: MoveRun, key: string, podName: string, target: string)
    ensures forall e :: e in MoveEffects(run, key, podName, target) ==> !e.Write?
  {
  }

  lemma ResourceWritesNoStatus(spec: Spec, name: string, cpu: int, memory: int, run: ResourceRun)
    ensures forall e :: e in ResourceEffects(spec, name, cpu, memory, run) ==> !e.Write?
  {
    ResourceEffectKinds(spec, name, cpu, memory, run);
    hide ResourceEffects;
  }
}
