/**
 The whole engine as a step system: many profiles, one worker each, the shared decision
 store and limiter, the placement server, the other writers of the profiles, and a crash
 that may strike between any two steps and forgets everything but the stored profiles.

 A worker begins by seeing the stored profile and then performs its plan effect by effect;
 any transition may also fail, before or after it is stored, and ends the plan.
 */
module Fleet {
  import opened Profile
  import opened StateMachine
  import opened Step
  import opened Effects
  import opened DecisionStore
  import opened RateLimiter
  import opened Triggers
  import opened PendingPods
  import opened Plans
  import opened Legality
  import History

  /** `log`, `armedEnd`, `asked` and `asks` only record: the commits since `start`; when the last
      cycle that armed the cooldown ended, and for how long; when the cycle in flight asked the
      agent; when the cycles did that asked it and then armed the cooldown. */
  datatype Member = Member(
    start: Profile,
    profile: Profile,
    worker: Plan,
    dry: bool,
    hinting: bool,
    reserved: Option<nat>,
    token: Option<nat>,
    log: seq<Write>,
    armedEnd: Option<(int, int)>,
    asked: Option<int>,
    asks: seq<int>)

  /** `hints` are the keys with an entry in the decision store; `grants` and `moves` record the
      limiter's grants and the ones spent by real moves since the process started. */
  datatype Fleet = Fleet(
    cfg: Config,
    max: nat,
    members: map<string, Member>,
    hints: set<string>,
    bucket: Bucket,
    startedAt: int,
    grants: seq<Grant>,
    moves: seq<nat>,
    now: int)

  datatype Event =
    | Pass(seconds: nat)
    | Begin(name: string, env: Env, granted: bool)
    | Reserve(name: string, timeout: int)
    | Perform(name: string, id: nat)
    | LoseWrite(name: string, id: nat, stored: bool)
    | Score(key: string)
    | Other(name: string, write: Write)
    | Crash

  /** Profiles are cluster-scoped, so their namespace is empty. */
  function Key(name: string): string { WorkloadKey("", name) }

  predicate Idle(m: Member) { m.worker.Done? }

  predicate Fits(m: Member, max: nat, now: int, id: nat)
    requires m.worker.Do? && m.worker.effect.Write?
  {
    Apply(m.profile, max, Transition(m.worker.effect.req, now, id)).Some?
  }

  predicate Enabled(f: Fleet, e: Event) {
    match e
    case Pass(_) => true
    case Begin(name, env, granted) => name in f.members && Idle(f.members[name]) && env.now == f.now
    case Reserve(name, timeout) =>
      && name in f.members && f.members[name].worker.Do? && f.members[name].worker.effect.TakeToken?
      && f.members[name].reserved.None? && RateLimiter.Reserve(f.bucket, f.now, timeout).Some?
    case Perform(name, id) =>
      && name in f.members && f.members[name].worker.Do?
      && (f.members[name].worker.effect.TakeToken? ==>
            && f.members[name].reserved.Some? && f.members[name].reserved.value < |f.grants|
            && Instant(f.bucket.limit, f.grants[f.members[name].reserved.value]) <= f.bucket.limit * f.now)
    case LoseWrite(name, id, stored) =>
      && name in f.members && f.members[name].worker.Do? && f.members[name].worker.effect.Write?
    case Score(_) => true
    case Other(name, write) =>
      name in f.members && !write.Transition? && Apply(f.members[name].profile, f.max, write).Some?
    case Crash => true
  }

  /** The profile and its record after its own transition is stored. */
  function Stored(m: Member, max: nat, now: int, id: nat): Member
    requires m.worker.Do? && m.worker.effect.Write? && Fits(m, max, now, id)
  {
    var req := m.worker.effect.req;
    var w := Transition(req, now, id);
    m.(profile := Apply(m.profile, max, w).value,
       log := m.log + [w],
       armedEnd := if req.to.Watching? && req.cooldown > 0 then Some((now, req.cooldown)) else m.armedEnd,
       asked := if req.to.Watching? then None else m.asked,
       asks := if req.to.Watching? && req.cooldown > 0 && m.asked.Some? then m.asks + [m.asked.value] else m.asks)
  }

  /** The transition ahead stores a Move as Enacting outside dry run. */
  predicate StartsRealMove(m: Member) {
    && m.worker.Do? && m.worker.effect.Write? && m.worker.effect.req.to.Enacting?
    && ActionAfter(m.profile.rs.action, m.worker.effect.req).Move? && !m.dry
  }

  function Spent(moves: seq<nat>, m: Member): seq<nat> {
    if StartsRealMove(m) && m.token.Some? then moves + [m.token.value] else moves
  }

  function Stopped(m: Member): Member {
    m.(worker := Done, hinting := false, reserved := None, token := None)
  }

  function AfterEffect(m: Member, now: int): Member
    requires m.worker.Do? && !m.worker.effect.Write?
  {
    var next := m.(worker := m.worker.rest);
    match m.worker.effect
    case TakeToken => next.(token := m.reserved, reserved := None)
    case PutHint(_, _, _) => next.(hinting := true)
    case DropHint(_) => next.(hinting := false)
    case AskAgent => next.(asked := Some(now))
    case _ => next
  }

  function AfterWrite(m: Member, max: nat, now: int, id: nat): Member
    requires m.worker.Do? && m.worker.effect.Write? && Fits(m, max, now, id)
  {
    Stored(m, max, now, id).(worker := m.worker.rest, token := if m.worker.effect.req.to.Watching? then None else m.token)
  }

  function HintsAfter(hints: set<string>, effect: Effect): set<string> {
    match effect
    case PutHint(key, _, _) => hints + {key}
    case DropHint(key) => hints - {key}
    case _ => hints
  }

  function Performed(f: Fleet, name: string, id: nat): Fleet
    requires Enabled(f, Perform(name, id))
  {
    var m := f.members[name];
    if !m.worker.effect.Write? then
      f.(members := f.members[name := AfterEffect(m, f.now)], hints := HintsAfter(f.hints, m.worker.effect))
    else if !Fits(m, f.max, f.now, id) then f.(members := f.members[name := Stopped(m)])
    else f.(members := f.members[name := AfterWrite(m, f.max, f.now, id)], moves := Spent(f.moves, m))
  }

  function Next(f: Fleet, e: Event): Fleet
    requires Enabled(f, e)
  {
    match e
    case Pass(seconds) => f.(now := f.now + seconds)
    case Begin(name, env, granted) =>
      var m := f.members[name];
      f.(members := f.members[name := m.(
           worker := ReconcilePlan(f.cfg, Key(name), m.profile, env, granted), dry := m.profile.spec.dryRun)])
    case Reserve(name, timeout) =>
      var g := RateLimiter.Reserve(f.bucket, f.now, timeout).value;
      f.(bucket := f.bucket.(last := f.now, tokens := g.left),
         grants := f.grants + [g],
         members := f.members[name := f.members[name].(reserved := Some(|f.grants|))])
    case Perform(name, id) => Performed(f, name, id)
    case LoseWrite(name, id, stored) =>
      var m := f.members[name];
      if stored && Fits(m, f.max, f.now, id)
      then f.(members := f.members[name := Stopped(Stored(m, f.max, f.now, id))], moves := Spent(f.moves, m))
      else f.(members := f.members[name := Stopped(m)])
    case Score(key) => f.(hints := f.hints - {key})
    case Other(name, write) =>
      var m := f.members[name];
      f.(members := f.members[name := m.(profile := Apply(m.profile, f.max, write).value, log := m.log + [write])])
    case Crash =>
      f.(members := map n | n in f.members :: Stopped(f.members[n]),
         hints := {}, bucket := Full(f.bucket.limit, f.now), startedAt := f.now, grants := [], moves := [])
  }

  ghost predicate Init(f: Fleet) {
    && f.bucket == Full(f.bucket.limit, f.now) && f.bucket.limit > 0
    && 0 <= f.now == f.startedAt && f.grants == [] && f.moves == [] && f.hints == {}
    && forall n :: n in f.members ==>
         var m := f.members[n];
         && m == Member(m.start, m.start, Done, false, false, None, None, [], None, None, [])
         && !(m.start.rs.escalated && m.start.rs.state.MidCycle())
  }

  ghost predicate Run(trace: seq<Fleet>, events: seq<Event>) {
    && |trace| == |events| + 1
    && Init(trace[0])
    && forall i :: 0 <= i < |events| ==> Enabled(trace[i], events[i]) && trace[i + 1] == Next(trace[i], events[i])
  }

  // ----- what holds in every reachable state -----

  function StageOf(m: Member): Stage {
    Stage(m.profile.rs.state, m.profile.rs.action, m.hinting, m.token.Some?)
  }

  /** Whether the plan still has the agent to ask. */
  predicate WillAsk(plan: Plan) {
    plan.Do? && (plan.effect.AskAgent? || WillAsk(plan.rest))
  }

  /** The watchdog's transition for a profile that stands on a legacy state, or stood on one
      when the worker looked: the writer is going to refuse it. */
  predicate Doomed(m: Member) {
    && m.worker.Do? && m.worker.effect.Write? && m.worker.effect.req.to.Watching? && m.worker.rest.Done?
    && m.start.rs.state.Legacy? && !m.profile.rs.state.MidCycle() && !m.hinting && m.token.None?
  }

  ghost predicate MemberRight(m: Member, key: string, max: nat, now: int) {
    && Replay(m.start, max, m.log) == Some(m.profile)
    && (m.worker.Do? ==> Doomed(m) || Accepts(StageOf(m), key, m.dry, m.worker))
    && (Idle(m) ==> !m.hinting && m.token.None?)
    && (m.reserved.Some? ==> m.worker.Do? && m.worker.effect.TakeToken?)
    // escalation rests, and no worker is under way on an escalated profile
    && (m.profile.rs.escalated ==> !m.profile.rs.state.MidCycle() && Idle(m))
    // the cooldown: where it stands, and that nobody asks while it lasts
    && (m.armedEnd.Some? ==> m.armedEnd.value.0 <= now
                             && m.profile.rs.cooldownUntil == m.armedEnd.value.0 + m.armedEnd.value.1)
    && (WillAsk(m.worker) ==> m.profile.rs.cooldownUntil <= now)
    && (m.asked.Some? ==> m.profile.rs.cooldownUntil <= m.asked.value <= now && m.profile.rs.state.MidCycle())
  }

  ghost predicate MembersRight(f: Fleet) {
    && f.now >= 0
    && forall n :: n in f.members ==> MemberRight(f.members[n], Key(n), f.max, f.now)
  }

  /** A live hint belongs to a member whose enactor has not yet taken it back. */
  ghost predicate HintsRight(f: Fleet) {
    forall n :: n in f.members && Key(n) in f.hints ==> f.members[n].hinting
  }

  ghost predicate Usable(f: Fleet, grant: nat) {
    grant < |f.grants| && Instant(f.bucket.limit, f.grants[grant]) <= f.bucket.limit * f.now
  }

  function Holds(m: Member): Option<nat> {
    if m.reserved.Some? then m.reserved else m.token
  }

  ghost predicate TokensRight(f: Fleet) {
    && f.bucket.limit > 0 && f.startedAt <= f.now && f.bucket.last <= f.now
    && InStep(f.bucket, f.startedAt, f.grants)
    && (forall n :: n in f.members && f.members[n].reserved.Some? ==>
          f.members[n].reserved.value < |f.grants| && f.members[n].token.None?)
    && (forall n :: n in f.members && f.members[n].token.Some? ==> Usable(f, f.members[n].token.value))
    && (forall i :: 0 <= i < |f.moves| ==> Usable(f, f.moves[i]))
  }

  /** No grant is reserved, held or spent twice; a spent one is held only by the member that
      spent it, until that member's move is over. */
  ghost predicate TokensDistinct(f: Fleet) {
    && (forall n, o :: n in f.members && o in f.members && n != o && Holds(f.members[n]).Some? ==>
          Holds(f.members[n]) != Holds(f.members[o]))
    && (forall i, j :: 0 <= i < j < |f.moves| ==> f.moves[i] != f.moves[j])
    && (forall n, i :: n in f.members && Holds(f.members[n]).Some? && 0 <= i < |f.moves| && f.moves[i] == Holds(f.members[n]).value ==>
          f.members[n].token.Some? && f.members[n].profile.rs.state.Enacting?)
  }

  ghost predicate Inv(f: Fleet) {
    MembersRight(f) && HintsRight(f) && TokensRight(f) && TokensDistinct(f)
  }

  // ----- one member's steps -----

  lemma {:induction false} NothingToAsk(effects: seq<Effect>, rest: Plan)
    requires forall e :: e in effects ==> !e.AskAgent?
    ensures WillAsk(Then(effects, rest)) ==> WillAsk(rest)
  {
    if effects != [] { NothingToAsk(effects[1..], rest); }
  }

  lemma AskUnfolds()
    ensures !WillAsk(Done)
    ensures forall effect, rest :: WillAsk(Do(effect, rest)) <==> effect.AskAgent? || WillAsk(rest)
  {
  }

  /** Only the AI path asks, and only with no cooldown left. */
  lemma PlanAsksWhenCool(cfg: Config, key: string, seen: Profile, env: Env, granted: bool)
    requires env.now >= 0 && WillAsk(ReconcilePlan(cfg, key, seen, env, granted))
    ensures seen.rs.cooldownUntil <= env.now
  {
    var spec := seen.spec;
    AskUnfolds();
    hide VerdictOf, WillAsk;
    var verdict := VerdictOf(spec.triggerConditions, spec.app, env.world);
    if seen.rs.state.Resting() && verdict.Matched? && verdict.bypass != NoAction {
      BypassIsRetry(spec, env.world);
      RetryWritesNothing(env);
      NothingToAsk(RetryEffects(env.retry),
        Last(End(verdict.bypass, if RetrySucceeds(env.retry) then Enacted else Failed, spec.cooldownSeconds, verdict.condition)));
    }
  }

  lemma RetryWritesNothing(env: Env)
    ensures forall e :: e in RetryEffects(env.retry) ==> e.DeletePod?
  {
    if env.retry.pods.Some? { DeletesAreOfStuckPods(env.retry.pods.value); }
  }

  lemma BeginKeeps(m: Member, key: string, max: nat, cfg: Config, env: Env, granted: bool)
    requires MemberRight(m, key, max, env.now) && Idle(m) && env.now >= 0
    ensures MemberRight(m.(worker := ReconcilePlan(cfg, key, m.profile, env, granted), dry := m.profile.spec.dryRun), key, max, env.now)
  {
    var plan := ReconcilePlan(cfg, key, m.profile, env, granted);
    if WillAsk(plan) { PlanAsksWhenCool(cfg, key, m.profile, env, granted); }
    if m.profile.rs.state.Legacy? {
      History.StatusIsFunctionOfLog(m.start, max, m.log);
      assert plan.Do? ==> plan == Last(plan.effect.req) && plan.effect.req.to.Watching?;
    } else {
      EveryPlanIsLegal(cfg, key, m.profile, env, granted);
    }
    assert m.profile.rs.escalated ==> plan == Done;
    hide ReconcilePlan, Replay, Accepts;
  }

  /** A worker's transition is refused if and only if its profile is, or was, on a legacy state. */
  lemma RefusedIffDoomed(m: Member, key: string, max: nat, now: int, id: nat)
    requires MemberRight(m, key, max, now) && m.worker.Do? && m.worker.effect.Write?
    ensures Fits(m, max, now, id) <==> !Doomed(m)
    ensures Fits(m, max, now, id) ==>
              && Accepts(StageOf(m), key, m.dry, m.worker)
              && Apply(m.profile, max, Transition(m.worker.effect.req, now, id)).value.rs.action
                 == ActionAfter(m.profile.rs.action, m.worker.effect.req)
    ensures m.worker.effect.req.to.Watching? ==> m.worker.rest.Done?
    ensures !m.hinting && m.reserved.None?
  {
    hide Replay;
    TableByRank(m.profile.rs.state, m.worker.effect.req.to);
  }

  /** What the stored transition makes of the status, as far as the invariant asks. */
  lemma StoredStatus(m: Member, key: string, max: nat, now: int, id: nat)
    requires MemberRight(m, key, max, now) && m.worker.Do? && m.worker.effect.Write? && Fits(m, max, now, id)
    ensures var req, q := m.worker.effect.req, Stored(m, max, now, id).profile;
            && Replay(m.start, max, Stored(m, max, now, id).log) == Some(q)
            && q.rs.state == req.to && !req.to.Legacy?
            && q.rs.action == ActionAfter(m.profile.rs.action, req)
            && (q.rs.escalated ==> req.to.Watching?)
            && q.rs.cooldownUntil == if req.to.Watching? && req.cooldown > 0 then now + req.cooldown else m.profile.rs.cooldownUntil
  {
    hide Replay, Accepts;
    ReplayAppend(m.start, max, m.log, Transition(m.worker.effect.req, now, id));
    TableByRank(m.profile.rs.state, m.worker.effect.req.to);
  }

  /** What is left of the plan is legal from there, or there is nothing left and all is given back. */
  lemma StoredStage(m: Member, key: string, max: nat, now: int, id: nat)
    requires MemberRight(m, key, max, now) && m.worker.Do? && m.worker.effect.Write? && Fits(m, max, now, id)
    ensures var req, next := m.worker.effect.req, StageAfter(StageOf(m), m.worker.effect);
            && !m.hinting && m.reserved.None?
            && Accepts(next, key, m.dry, m.worker.rest)
            && (m.worker.rest.Done? <==> req.to.Watching?)
            && (req.to.MidCycle() || req.to.Watching?)
            && (WillAsk(m.worker.rest) ==> WillAsk(m.worker))
  {
    RefusedIffDoomed(m, key, max, now, id);
    TableByRank(m.profile.rs.state, m.worker.effect.req.to);
    OnlyRestEnds(StageAfter(StageOf(m), m.worker.effect), key, m.dry, m.worker.rest);
    hide Replay, Fits, Apply;
  }

  lemma StoredKeeps(m: Member, key: string, max: nat, now: int, id: nat)
    requires MemberRight(m, key, max, now) && m.worker.Do? && m.worker.effect.Write? && Fits(m, max, now, id)
    ensures MemberRight(Stopped(Stored(m, max, now, id)), key, max, now)
    ensures MemberRight(AfterWrite(m, max, now, id), key, max, now)
  {
    hide Replay, Accepts, Apply, Fits, WillAsk;
    assert !WillAsk(Done) by { AskUnfolds(); }
    StoredStatus(m, key, max, now, id);
    StoredStage(m, key, max, now, id);
  }

  lemma NothingLegalOnLegacy(m: Member, key: string, max: nat, now: int)
    requires MemberRight(m, key, max, now) && m.profile.rs.state.Legacy?
    ensures m.worker.Do? ==> Doomed(m)
  {
    hide Replay;
  }

  /** Of the other writers only the migration changes the state, and only a legacy one. */
  lemma OtherStatus(p: Profile, max: nat, w: Write)
    requires !w.Transition? && Apply(p, max, w).Some?
    ensures var q := Apply(p, max, w).value;
            && (q.rs.state == p.rs.state || (p.rs.state.Legacy? && q.rs.state.Watching?))
            && q.rs.action == p.rs.action && q.rs.cooldownUntil == p.rs.cooldownUntil
            && (q.rs.escalated ==> p.rs.escalated)
  {
  }

  lemma OtherKeeps(m: Member, key: string, max: nat, now: int, w: Write)
    requires MemberRight(m, key, max, now) && !w.Transition? && Apply(m.profile, max, w).Some?
    ensures MemberRight(m.(profile := Apply(m.profile, max, w).value, log := m.log + [w]), key, max, now)
  {
    hide Replay, Accepts, Apply, WillAsk;
    ReplayAppend(m.start, max, m.log, w);
    OtherStatus(m.profile, max, w);
    if m.profile.rs.state.Legacy? { NothingLegalOnLegacy(m, key, max, now); }
  }

  lemma EffectKeeps(m: Member, key: string, max: nat, now: int)
    requires MemberRight(m, key, max, now) && m.worker.Do? && !m.worker.effect.Write?
    requires m.worker.effect.TakeToken? ==> m.reserved.Some?
    ensures MemberRight(AfterEffect(m, now), key, max, now)
  {
    OnlyRestEnds(StageAfter(StageOf(m), m.worker.effect), key, m.dry, m.worker.rest);
    hide Replay, Apply;
  }

  // ----- the fleet's steps -----

  /** One member changes, rightly, and the clock stands still. */
  lemma OneKeepsMembers(f: Fleet, g: Fleet, name: string)
    requires MembersRight(f) && name in f.members && name in g.members && g.members == f.members[name := g.members[name]]
    requires g.max == f.max && g.now == f.now && MemberRight(g.members[name], Key(name), f.max, f.now)
    ensures MembersRight(g)
  {
    hide MemberRight;
  }

  lemma QuietStepsKeepMembers(f: Fleet, e: Event)
    requires MembersRight(f) && Enabled(f, e) && (e.Pass? || e.Score? || e.Crash?)
    ensures MembersRight(Next(f, e))
  {
    if e.Crash? {
      forall n | n in f.members { StopKeeps(f.members[n], Key(n), f.max, f.now); }
      hide MemberRight;
    } else {
      hide Replay, Accepts;
    }
  }

  lemma PerformKeepsMembers(f: Fleet, name: string, id: nat)
    requires MembersRight(f) && Enabled(f, Perform(name, id))
    ensures MembersRight(Next(f, Perform(name, id)))
  {
    var m := f.members[name];
    assert MemberRight(m, Key(name), f.max, f.now);
    if m.worker.effect.Write? {
      if Fits(m, f.max, f.now, id) { StoredKeeps(m, Key(name), f.max, f.now, id); }
      StopKeeps(m, Key(name), f.max, f.now);
    } else {
      EffectKeeps(m, Key(name), f.max, f.now);
    }
    hide MembersRight, MemberRight, Apply, Fits, Stopped, AfterEffect, AfterWrite, HintsAfter, Spent;
    OneKeepsMembers(f, Next(f, Perform(name, id)), name);
  }

  lemma LoseWriteKeepsMembers(f: Fleet, name: string, id: nat, stored: bool)
    requires MembersRight(f) && Enabled(f, LoseWrite(name, id, stored))
    ensures MembersRight(Next(f, LoseWrite(name, id, stored)))
  {
    var m := f.members[name];
    if Fits(m, f.max, f.now, id) { StoredKeeps(m, Key(name), f.max, f.now, id); }
    StopKeeps(m, Key(name), f.max, f.now);
    hide MembersRight, MemberRight, Apply, Fits, Stored, Stopped, Spent;
    OneKeepsMembers(f, Next(f, LoseWrite(name, id, stored)), name);
  }

  lemma ReserveKeepsMembers(f: Fleet, name: string, timeout: int)
    requires MembersRight(f) && Enabled(f, Reserve(name, timeout))
    ensures MembersRight(Next(f, Reserve(name, timeout)))
  {
    assert MemberRight(f.members[name], Key(name), f.max, f.now);
    hide MembersRight, Replay, Accepts;
    OneKeepsMembers(f, Next(f, Reserve(name, timeout)), name);
  }

  lemma MembersKeep(f: Fleet, e: Event)
    requires MembersRight(f) && Enabled(f, e)
    ensures MembersRight(Next(f, e))
  {
    match e
    case Begin(name, env, granted) =>
      BeginKeeps(f.members[name], Key(name), f.max, f.cfg, env, granted);
      hide MembersRight, MemberRight, ReconcilePlan;
      OneKeepsMembers(f, Next(f, e), name);
    case Reserve(name, timeout) => ReserveKeepsMembers(f, name, timeout); hide *;
    case Perform(name, id) => PerformKeepsMembers(f, name, id); hide *;
    case LoseWrite(name, id, stored) => LoseWriteKeepsMembers(f, name, id, stored); hide *;
    case Other(name, w) =>
      OtherKeeps(f.members[name], Key(name), f.max, f.now, w);
      hide MembersRight, MemberRight, Apply;
      OneKeepsMembers(f, Next(f, e), name);
    case _ => QuietStepsKeepMembers(f, e); hide *;
  }

  lemma StopKeeps(m: Member, key: string, max: nat, now: int)
    requires MemberRight(m, key, max, now)
    ensures MemberRight(Stopped(m), key, max, now)
  {
    hide Replay, Accepts;
  }

  lemma KeysDiffer(n: string, o: string)
    ensures Key(n) == Key(o) <==> n == o
  {
    WorkloadKeyIsInjective("", n, "", o);
  }

  /** One member changes and no hint but its own is put; if that is live, its enactor owns it. */
  lemma OneKeepsHints(f: Fleet, g: Fleet, name: string)
    requires HintsRight(f) && name in f.members && name in g.members && g.members == f.members[name := g.members[name]]
    requires forall key :: key in g.hints ==> key in f.hints || key == Key(name)
    requires Key(name) in g.hints ==> g.members[name].hinting
    ensures HintsRight(g)
  {
    forall n | n in g.members && Key(n) in g.hints
      ensures g.members[n].hinting
    {
      KeysDiffer(n, name);
    }
  }

  lemma PerformKeepsHints(f: Fleet, name: string, id: nat)
    requires MembersRight(f) && HintsRight(f) && Enabled(f, Perform(name, id))
    ensures HintsRight(Next(f, Perform(name, id)))
  {
    var m := f.members[name];
    assert MemberRight(m, Key(name), f.max, f.now);
    assert m.worker.effect.Write? ==> !m.hinting;
    assert m.worker.effect.PutHint? ==> m.worker.effect.key == Key(name);
    assert m.worker.effect.DropHint? ==> m.worker.effect.key == Key(name);
    hide MembersRight, MemberRight, Apply, Fits, Spent, Key;
    assert Key(name) in f.hints ==> m.hinting;
    hide HintsRight;
    OneKeepsHints(f, Next(f, Perform(name, id)), name);
  }

  lemma HintsKeep(f: Fleet, e: Event)
    requires MembersRight(f) && HintsRight(f) && Enabled(f, e)
    ensures HintsRight(Next(f, e))
  {
    hide Replay, Apply, ReconcilePlan, Key;
    match e
    case Perform(name, id) => PerformKeepsHints(f, name, id); hide *;
    case Begin(name, _, _) => OneKeepsHints(f, Next(f, e), name);
    case LoseWrite(name, _, _) =>
      assert MemberRight(f.members[name], Key(name), f.max, f.now);
      OneKeepsHints(f, Next(f, e), name);
    case Reserve(name, _) => OneKeepsHints(f, Next(f, e), name);
    case Other(name, _) => OneKeepsHints(f, Next(f, e), name);
    case _ => hide MembersRight;
  }

  lemma UsableLater(f: Fleet, g: Fleet)
    requires f.bucket.limit == g.bucket.limit > 0 && f.grants <= g.grants && f.now <= g.now
    ensures forall i: nat :: Usable(f, i) ==> Usable(g, i)
  {
    assert f.bucket.limit * f.now <= f.bucket.limit * g.now;
  }

  /** One member changes and no token is drawn: what it holds afterwards it held before. */
  ghost predicate OneMoves(f: Fleet, g: Fleet, name: string) {
    && name in f.members && name in g.members && g.members == f.members[name := g.members[name]]
    && g.bucket == f.bucket && g.startedAt == f.startedAt && g.grants == f.grants && g.now == f.now
    && var m, k := f.members[name], g.members[name];
       && (k.reserved.Some? ==> k.reserved == m.reserved && k.token.None?)
       && (k.token.Some? ==> k.token == m.token || (k.token == m.reserved && Usable(f, k.token.value)))
       && (g.moves == f.moves || (m.token.Some? && g.moves == f.moves + [m.token.value]))
  }

  lemma OneKeepsTokens(f: Fleet, g: Fleet, name: string)
    requires TokensRight(f) && OneMoves(f, g, name)
    ensures TokensRight(g)
  {
    UsableLater(f, g);
    hide InStep, Usable;
    assert f.members[name].token.Some? ==> Usable(f, f.members[name].token.value);
  }

  lemma WriteMovesOne(f: Fleet, name: string, id: nat)
    requires Enabled(f, Perform(name, id)) && f.members[name].worker.effect.Write? && f.members[name].reserved.None?
    ensures OneMoves(f, Next(f, Perform(name, id)), name)
  {
    hide Usable, Fits, Apply;
  }

  /** Of the effects only TakeToken touches tokens, turning the reservation into one. */
  lemma EffectTokens(m: Member, now: int)
    requires m.worker.Do? && !m.worker.effect.Write?
    requires m.reserved.Some? ==> m.worker.effect.TakeToken?
    ensures var k := AfterEffect(m, now);
            k.reserved.None? && k.token == (if m.worker.effect.TakeToken? then m.reserved else m.token) && k.profile == m.profile
  {
  }

  lemma PerformMovesOne(f: Fleet, name: string, id: nat)
    requires MembersRight(f) && TokensRight(f) && Enabled(f, Perform(name, id))
    ensures OneMoves(f, Next(f, Perform(name, id)), name)
  {
    var m := f.members[name];
    assert MemberRight(m, Key(name), f.max, f.now);
    assert m.worker.effect.TakeToken? ==> Usable(f, m.reserved.value);
    assert m.reserved.Some? ==> m.worker.effect.TakeToken? && m.token.None?;
    if m.worker.effect.Write? {
      WriteMovesOne(f, name, id);
      hide *;
    } else {
      EffectTokens(m, f.now);
      assert Next(f, Perform(name, id)) == Performed(f, name, id);
      hide Next, Enabled, AfterEffect, AfterWrite, HintsAfter, Spent, Stopped;
      hide MemberRight, MembersRight, TokensRight, Usable, Fits, Apply;
    }
  }

  lemma LoseWriteMovesOne(f: Fleet, name: string, id: nat, stored: bool)
    requires MembersRight(f) && TokensRight(f) && Enabled(f, LoseWrite(name, id, stored))
    ensures OneMoves(f, Next(f, LoseWrite(name, id, stored)), name)
  {
    hide InStep, Usable, Accepts, Fits, MemberRight;
  }

  lemma ReserveKeepsTokens(f: Fleet, name: string, timeout: int)
    requires MembersRight(f) && TokensRight(f) && Enabled(f, Reserve(name, timeout))
    ensures TokensRight(Next(f, Reserve(name, timeout)))
  {
    var m := f.members[name];
    assert MemberRight(m, Key(name), f.max, f.now);
    OnlyRestEnds(StageOf(m), Key(name), m.dry, m.worker);
    assert m.token.None?;
    ReserveExtends(f.bucket, f.startedAt, f.grants, f.now, timeout);
    UsableLater(f, Next(f, Reserve(name, timeout)));
    hide InStep, Usable, RateLimiter.Reserve, MemberRight;
  }

  lemma QuietStepsKeepTokens(f: Fleet, e: Event)
    requires TokensRight(f) && Enabled(f, e) && (e.Pass? || e.Score? || e.Crash?)
    ensures TokensRight(Next(f, e))
  {
    if e.Pass? {
      UsableLater(f, Next(f, e));
      hide InStep, Usable;
    }
  }

  lemma BeginMovesOne(f: Fleet, name: string, env: Env, granted: bool)
    requires TokensRight(f) && Enabled(f, Begin(name, env, granted))
    ensures OneMoves(f, Next(f, Begin(name, env, granted)), name)
  {
    hide InStep, Usable, ReconcilePlan;
  }

  lemma OtherMovesOne(f: Fleet, name: string, w: Write)
    requires TokensRight(f) && Enabled(f, Other(name, w))
    ensures OneMoves(f, Next(f, Other(name, w)), name)
  {
    hide InStep, Usable, Apply;
  }

  lemma TokensKeep(f: Fleet, e: Event)
    requires MembersRight(f) && TokensRight(f) && Enabled(f, e)
    ensures TokensRight(Next(f, e))
  {
    var g := Next(f, e);
    hide *;
    match e
    case Begin(name, env, granted) =>
      BeginMovesOne(f, name, env, granted);
      OneKeepsTokens(f, g, name);
    case Reserve(name, timeout) => ReserveKeepsTokens(f, name, timeout);
    case Perform(name, id) =>
      PerformMovesOne(f, name, id);
      OneKeepsTokens(f, g, name);
    case LoseWrite(name, id, stored) =>
      LoseWriteMovesOne(f, name, id, stored);
      OneKeepsTokens(f, g, name);
    case Other(name, w) =>
      OtherMovesOne(f, name, w);
      OneKeepsTokens(f, g, name);
    case _ => QuietStepsKeepTokens(f, e);
  }

  ghost predicate OneSpends(f: Fleet, g: Fleet, name: string) {
    && name in f.members && name in g.members && g.members == f.members[name := g.members[name]]
    && var m, k := f.members[name], g.members[name];
       && (Holds(k).Some? ==> Holds(k) == Holds(m))
       && (if g.moves == f.moves
           then Holds(k).Some? && m.token.Some? && m.profile.rs.state.Enacting? ==> k.token.Some? && k.profile.rs.state.Enacting?
           else && m.reserved.None? && m.token.Some? && g.moves == f.moves + [m.token.value] && !m.profile.rs.state.Enacting?
                && (Holds(k).Some? ==> k.token.Some? && k.profile.rs.state.Enacting?))
  }

  lemma OneKeepsDistinct(f: Fleet, g: Fleet, name: string)
    requires TokensDistinct(f) && OneSpends(f, g, name)
    ensures TokensDistinct(g)
  {
    var m, k := f.members[name], g.members[name];
    assert g.moves != f.moves ==> m.token.value !in f.moves;
    forall n, i | n in g.members && Holds(g.members[n]).Some? && 0 <= i < |g.moves| && g.moves[i] == Holds(g.members[n]).value
      ensures g.members[n].token.Some? && g.members[n].profile.rs.state.Enacting?
    {
      if i < |f.moves| {
        assert g.moves[i] == f.moves[i];
      } else {
        assert Holds(m) == Some(g.moves[i]);
      }
    }
  }

  lemma EnactingGoesHome(m: Member, max: nat, now: int, id: nat)
    requires m.worker.Do? && m.worker.effect.Write? && Fits(m, max, now, id)
    ensures m.profile.rs.state.Enacting? ==> m.worker.effect.req.to.Watching?
  {
    TableByRank(m.profile.rs.state, m.worker.effect.req.to);
  }

  lemma WriteSpends(f: Fleet, name: string, id: nat)
    requires MembersRight(f) && Enabled(f, Perform(name, id)) && f.members[name].worker.effect.Write?
    ensures OneSpends(f, Next(f, Perform(name, id)), name)
  {
    var m := f.members[name];
    assert MemberRight(m, Key(name), f.max, f.now);
    hide MembersRight;
    RefusedIffDoomed(m, Key(name), f.max, f.now, id);
    if Fits(m, f.max, f.now, id) {
      StoredStatus(m, Key(name), f.max, f.now, id);
      EnactingGoesHome(m, f.max, f.now, id);
    }
    hide MemberRight, Fits, Replay, Apply, Accepts;
  }

  lemma PerformSpends(f: Fleet, name: string, id: nat)
    requires MembersRight(f) && TokensRight(f) && Enabled(f, Perform(name, id))
    ensures OneSpends(f, Next(f, Perform(name, id)), name)
  {
    var m := f.members[name];
    assert MemberRight(m, Key(name), f.max, f.now);
    assert m.reserved.Some? ==> m.token.None?;
    if m.worker.effect.Write? {
      WriteSpends(f, name, id);
      hide *;
    } else {
      EffectTokens(m, f.now);
      assert Next(f, Perform(name, id)) == Performed(f, name, id);
      hide Next, Enabled, AfterEffect, AfterWrite, HintsAfter, Spent, Stopped;
      hide MemberRight, MembersRight, TokensRight, Fits, Apply;
    }
  }

  lemma LoseWriteSpends(f: Fleet, name: string, id: nat, stored: bool)
    requires Inv(f) && Enabled(f, LoseWrite(name, id, stored))
    ensures OneSpends(f, Next(f, LoseWrite(name, id, stored)), name)
  {
    var m := f.members[name];
    assert MemberRight(m, Key(name), f.max, f.now);
    RefusedIffDoomed(m, Key(name), f.max, f.now, id);
    if Fits(m, f.max, f.now, id) { EnactingGoesHome(m, f.max, f.now, id); }
    hide InStep, Usable, Replay, TokensDistinct, Fits, Apply;
  }

  lemma ReserveIsNew(f: Fleet, name: string, timeout: int)
    requires Inv(f) && Enabled(f, Reserve(name, timeout))
    ensures TokensDistinct(Next(f, Reserve(name, timeout)))
  {
    assert forall n :: n in f.members && Holds(f.members[n]).Some? ==> Holds(f.members[n]).value < |f.grants|;
    assert forall i :: 0 <= i < |f.moves| ==> Usable(f, f.moves[i]) && f.moves[i] < |f.grants|;
    hide InStep, MemberRight, RateLimiter.Reserve, Usable, TokensRight, MembersRight;
  }

  lemma BeginSpends(f: Fleet, name: string, env: Env, granted: bool)
    requires Enabled(f, Begin(name, env, granted))
    ensures OneSpends(f, Next(f, Begin(name, env, granted)), name)
  {
    hide ReconcilePlan;
  }

  lemma OtherSpends(f: Fleet, name: string, w: Write)
    requires MembersRight(f) && Enabled(f, Other(name, w))
    ensures OneSpends(f, Next(f, Other(name, w)), name)
  {
    assert MemberRight(f.members[name], Key(name), f.max, f.now);
    assert f.members[name].profile.rs.state.Enacting? ==> Next(f, Other(name, w)).members[name].profile.rs.state.Enacting?;
    hide MembersRight, MemberRight, Apply;
  }

  lemma QuietStepsKeepDistinct(f: Fleet, e: Event)
    requires TokensDistinct(f) && Enabled(f, e) && (e.Pass? || e.Score? || e.Crash?)
    ensures TokensDistinct(Next(f, e))
  {
  }

  lemma DistinctKeeps(f: Fleet, e: Event)
    requires Inv(f) && Enabled(f, e)
    ensures TokensDistinct(Next(f, e))
  {
    var g := Next(f, e);
    assert MembersRight(f) && TokensRight(f) && TokensDistinct(f);
    hide *;
    match e
    case Reserve(name, timeout) => ReserveIsNew(f, name, timeout);
    case Perform(name, id) =>
      PerformSpends(f, name, id);
      OneKeepsDistinct(f, g, name);
    case LoseWrite(name, id, stored) =>
      LoseWriteSpends(f, name, id, stored);
      OneKeepsDistinct(f, g, name);
    case Begin(name, env, granted) =>
      BeginSpends(f, name, env, granted);
      OneKeepsDistinct(f, g, name);
    case Other(name, w) =>
      OtherSpends(f, name, w);
      OneKeepsDistinct(f, g, name);
    case _ => QuietStepsKeepDistinct(f, e);
  }

  /** Every reachable state of every run keeps all four. */
  lemma {:induction false} EveryRunKeepsInv(trace: seq<Fleet>, events: seq<Event>, n: nat)
    requires Run(trace, events) && n < |trace|
    ensures Inv(trace[n])
  {
    if n == 0 {
      InitHolds(trace[0]);
    } else {
      EveryRunKeepsInv(trace, events, n - 1);
      assert Enabled(trace[n - 1], events[n - 1]) && trace[n] == Next(trace[n - 1], events[n - 1]);
      hide *;
      MembersKeep(trace[n - 1], events[n - 1]);
      HintsKeep(trace[n - 1], events[n - 1]);
      TokensKeep(trace[n - 1], events[n - 1]);
      DistinctKeeps(trace[n - 1], events[n - 1]);
    }
  }

  lemma InitHolds(f: Fleet)
    requires Init(f)
    ensures Inv(f)
  {
    forall n | n in f.members
      ensures MemberRight(f.members[n], Key(n), f.max, f.now)
    {
      ReplayEmpty(f.members[n].start, f.max);
    }
  }
}
