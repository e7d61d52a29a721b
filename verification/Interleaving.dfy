/**
 Any number of clients sharing one profile object, interleaved step by step: transition
 calls of the state writer, status updates of the placement reconciler (which may start
 from a stale cached copy), the migration tool, humans clearing `escalated` and users
 editing the spec. The server compares only version numbers.
 */
module Interleaving {
  import opened Profile
  import opened Step

  const MAX_ATTEMPTS := 4

  datatype Kind =
    | TransitionCall(req: Request)
    | PlacementCall(content: nat)
    | MigrateCall(outcome: Outcome)
    | ClearCall(resetStreak: bool)
    | EditSpecCall(spec: Spec)

  datatype Answer = Succeeded(at: nat, stored: Profile) | Invalid | Conflicted | Errored

  /** `Holding` has read a version, computed what to store, and not yet updated. */
  datatype Call =
    | Reading(kind: Kind, attemptsLeft: nat)
    | Holding(kind: Kind, attemptsLeft: nat, version: nat, write: Write, next: Profile)
    | Finished(kind: Kind, answer: Answer)

  datatype Entry = Entry(call: nat, write: Write)

  /** `seen` keeps the contents once served under each version, for stale cached reads. */
  datatype System = System(
    max: nat,
    initial: Profile,
    profile: Profile,
    version: nat,
    seen: map<nat, Profile>,
    log: seq<Entry>,
    calls: map<nat, Call>,
    clock: int,
    usedIds: set<nat>)

  datatype Event =
    | Tick(seconds: nat)
    | Invoke(call: nat, kind: Kind)
    | Read(call: nat, version: nat, id: nat)
    | Update(call: nat)
    | Break(call: nat, afterStoring: bool)

  function WriteOf(kind: Kind, now: int, id: nat): Write {
    match kind
    case TransitionCall(req) => Transition(req, now, id)
    case PlacementCall(content) => Placement(content)
    case MigrateCall(outcome) => Migrate(outcome, now)
    case ClearCall(resetStreak) => Clear(resetStreak)
    case EditSpecCall(spec) => EditSpec(spec)
  }

  /** The writer and the migration tool retry on conflict; the others report it. */
  predicate Retries(kind: Kind) { kind.TransitionCall? || kind.MigrateCall? }

  ghost predicate Init(s: System) {
    && s.profile == s.initial
    && s.version == 0
    && s.seen == map[0 := s.initial]
    && s.log == []
    && s.calls == map[]
    && s.usedIds == {}
  }

  predicate Enabled(s: System, e: Event) {
    match e
    case Tick(_) => true
    case Invoke(call, _) => call !in s.calls
    case Read(call, version, id) =>
      && call in s.calls && s.calls[call].Reading? && s.calls[call].attemptsLeft > 0
      && version in s.seen && id !in s.usedIds
      // the writer reads past the cache; only the placement reconciler may get an old copy
      && (s.calls[call].kind.PlacementCall? || version == s.version)
    case Update(call) => call in s.calls && s.calls[call].Holding?
    case Break(call, afterStoring) =>
      && call in s.calls && !s.calls[call].Finished?
      && (afterStoring ==> s.calls[call].Holding? && s.calls[call].version == s.version)
  }

  /** The conditional update: stores the held copy if the version still matches. */
  function Store(s: System, call: nat, outcome: Answer): System
    requires call in s.calls && s.calls[call].Holding?
  {
    var c := s.calls[call];
    s.(profile := c.next, version := s.version + 1, seen := s.seen[s.version + 1 := c.next],
       log := s.log + [Entry(call, c.write)], calls := s.calls[call := Finished(c.kind, outcome)])
  }

  function Next(s: System, e: Event): System
    requires Enabled(s, e)
  {
    match e
    case Tick(seconds) => s.(clock := s.clock + seconds)
    case Invoke(call, kind) => s.(calls := s.calls[call := Reading(kind, MAX_ATTEMPTS)])
    case Read(call, version, id) =>
      var c := s.calls[call];
      var w := WriteOf(c.kind, s.clock, id);
      var next := Apply(s.seen[version], s.max, w);
      s.(usedIds := s.usedIds + {id},
         calls := s.calls[call := if next.None? then Finished(c.kind, Invalid)
                                  else Holding(c.kind, c.attemptsLeft, version, w, next.value)])
    case Update(call) =>
      var c := s.calls[call];
      if c.version == s.version then Store(s, call, Succeeded(|s.log|, c.next))
      else s.(calls := s.calls[call := if Retries(c.kind) && c.attemptsLeft > 1
                                       then Reading(c.kind, c.attemptsLeft - 1)
                                       else Finished(c.kind, Conflicted)])
    case Break(call, afterStoring) =>
      if afterStoring then Store(s, call, Errored)
      else s.(calls := s.calls[call := Finished(s.calls[call].kind, Errored)])
  }

  ghost predicate Run(trace: seq<System>, events: seq<Event>) {
    && |trace| == |events| + 1
    && Init(trace[0])
    && forall i :: 0 <= i < |events| ==> Enabled(trace[i], events[i]) && trace[i + 1] == Next(trace[i], events[i])
  }

  function Writes(log: seq<Entry>): (r: seq<Write>)
    ensures |r| == |log|
    ensures forall i :: 0 <= i < |log| ==> r[i] == log[i].write
  {
    seq(|log|, i requires 0 <= i < |log| => log[i].write)
  }

  predicate SameKind(kind: Kind, w: Write) {
    match kind
    case TransitionCall(req) => w.Transition? && w.req == req
    case PlacementCall(content) => w == Placement(content)
    case MigrateCall(outcome) => w.Migrate? && w.outcome == outcome
    case ClearCall(resetStreak) => w == Clear(resetStreak)
    case EditSpecCall(spec) => w == EditSpec(spec)
  }

  /** The time a write carries into the rebalancing status, if any. */
  function Stamp(w: Write): Option<int> {
    match w
    case Transition(_, now, _) => Some(now)
    case Migrate(_, at) => Some(at)
    case _ => None
  }

  /** The committed statuses are the sequential run of the pure step, in commit order. */
  ghost predicate Linearized(s: System) {
    Replay(s.initial, s.max, Writes(s.log)) == Some(s.profile)
  }

  /** Each log entry is the one commit of the call it names. */
  ghost predicate OncePerCall(s: System) {
    && (forall i :: 0 <= i < |s.log| ==>
          && s.log[i].call in s.calls
          && s.calls[s.log[i].call].Finished?
          && SameKind(s.calls[s.log[i].call].kind, s.log[i].write))
    && (forall i, j :: 0 <= i < j < |s.log| ==> s.log[i].call != s.log[j].call)
  }

  /** Each call that was told it succeeded is in the log, at the place where the object
      became what it was told is stored. */
  ghost predicate SuccessIsLogged(s: System) {
    forall c :: c in s.calls && s.calls[c].Finished? && s.calls[c].answer.Succeeded? ==>
      LoggedAt(s, c, s.calls[c].answer.at, s.calls[c].answer.stored)
  }

  ghost predicate LoggedAt(s: System, call: nat, at: nat, stored: Profile) {
    && at < |s.log| && s.log[at].call == call
    && Replay(s.initial, s.max, Writes(s.log[..at + 1])) == Some(stored)
  }

  /** Commit order agrees with the clock: the times written into the status never go back. */
  ghost predicate StampsInOrder(s: System) {
    && (forall i :: 0 <= i < |s.log| && Stamp(s.log[i].write).Some? ==> Stamp(s.log[i].write).value <= s.clock)
    && (forall i, j :: 0 <= i < j < |s.log| && Stamp(s.log[i].write).Some? && Stamp(s.log[j].write).Some? ==>
          Stamp(s.log[i].write).value <= Stamp(s.log[j].write).value)
  }

  /** What makes a bare version comparison enough: one version, one content. */
  ghost predicate Holds(s: System) {
    && s.version == |s.log|
    && s.version in s.seen && s.seen[s.version] == s.profile
    && (forall v :: v in s.seen ==> v <= s.version)
    && (forall c :: c in s.calls && s.calls[c].Holding? ==> HeldRight(s, s.calls[c]))
  }

  ghost predicate HeldRight(s: System, c: Call)
    requires c.Holding?
  {
    && c.version in s.seen
    && Apply(s.seen[c.version], s.max, c.write) == Some(c.next)
    && SameKind(c.kind, c.write)
    && (Stamp(c.write).Some? ==> Stamp(c.write).value <= s.clock)
    && (Stamp(c.write).Some? && c.version == s.version ==>
          forall i :: 0 <= i < |s.log| && Stamp(s.log[i].write).Some? ==>
            Stamp(s.log[i].write).value <= Stamp(c.write).value)
  }

  ghost predicate Inv(s: System) {
    Linearized(s) && OncePerCall(s) && SuccessIsLogged(s) && StampsInOrder(s) && Holds(s)
  }

  ghost predicate Storable(s: System, call: nat, outcome: Answer) {
    && Inv(s)
    && call in s.calls && s.calls[call].Holding? && s.calls[call].version == s.version
    && (outcome.Succeeded? ==> outcome == Succeeded(|s.log|, s.calls[call].next))
  }

  lemma StoreLinearizes(s: System, call: nat, outcome: Answer)
    requires Storable(s, call, outcome)
    ensures Linearized(Store(s, call, outcome))
  {
    var w := s.calls[call].write;
    assert Writes(Store(s, call, outcome).log) == Writes(s.log) + [w];
    ReplayAppend(s.initial, s.max, Writes(s.log), w);
    hide Replay, Apply;
    assert HeldRight(s, s.calls[call]);
  }

  lemma StoreOnce(s: System, call: nat, outcome: Answer)
    requires Storable(s, call, outcome)
    ensures OncePerCall(Store(s, call, outcome))
  {
    hide Replay, Apply, Writes;
    assert HeldRight(s, s.calls[call]);
  }

  lemma StoreIsLogged(s: System, call: nat, outcome: Answer)
    requires Storable(s, call, outcome)
    ensures SuccessIsLogged(Store(s, call, outcome))
  {
    StoreLinearizes(s, call, outcome);
    hide Replay, Apply, Writes;
    var t := Store(s, call, outcome);
    assert t.log[..|s.log| + 1] == t.log;
    forall d | d in t.calls && t.calls[d].Finished? && t.calls[d].answer.Succeeded?
      ensures LoggedAt(t, d, t.calls[d].answer.at, t.calls[d].answer.stored)
    {
      if d != call {
        var at := s.calls[d].answer.at;
        assert LoggedAt(s, d, at, s.calls[d].answer.stored);
        assert t.log[..at + 1] == s.log[..at + 1];
      }
    }
  }

  lemma StoreKeeps(s: System, call: nat, outcome: Answer)
    requires Storable(s, call, outcome)
    ensures Inv(Store(s, call, outcome))
  {
    StoreLinearizes(s, call, outcome);
    StoreOnce(s, call, outcome);
    StoreIsLogged(s, call, outcome);
    hide Replay, Apply, Writes, Linearized, OncePerCall, SuccessIsLogged;
    assert HeldRight(s, s.calls[call]);
  }

  lemma ReadKeeps(s: System, call: nat, version: nat, id: nat)
    requires Inv(s) && Enabled(s, Read(call, version, id))
    ensures Inv(Next(s, Read(call, version, id)))
  {
    hide Replay, Apply;
  }

  /** A client that stores nothing only changes its own entry. */
  lemma CallMoves(s: System, call: nat, c: Call)
    requires Inv(s)
    requires call in s.calls ==> !s.calls[call].Finished?
    requires !c.Holding? && (c.Finished? ==> !c.answer.Succeeded?)
    ensures Inv(s.(calls := s.calls[call := c]))
  {
    hide Replay, Apply, Writes;
    assert forall d, at, stored :: LoggedAt(s, d, at, stored) ==> LoggedAt(s.(calls := s.calls[call := c]), d, at, stored);
    var t := s.(calls := s.calls[call := c]);
    assert forall d :: d in t.calls && t.calls[d].Holding? ==> d in s.calls && s.calls[d] == t.calls[d];
  }

  lemma NextKeeps(s: System, e: Event)
    requires Inv(s) && Enabled(s, e)
    ensures Inv(Next(s, e))
  {
    match e
    case Tick(seconds) => hide Replay, Apply, Writes;
    case Invoke(call, kind) =>
      CallMoves(s, call, Reading(kind, MAX_ATTEMPTS));
    case Read(call, version, id) => ReadKeeps(s, call, version, id);
    case Update(call) =>
      hide Replay, Apply, Inv;
      if s.calls[call].version == s.version {
        StoreKeeps(s, call, Succeeded(|s.log|, s.calls[call].next));
      } else {
        CallMoves(s, call, Next(s, e).calls[call]);
      }
    case Break(call, afterStoring) =>
      hide Replay, Apply, Inv;
      if afterStoring {
        StoreKeeps(s, call, Errored);
      } else {
        CallMoves(s, call, Finished(s.calls[call].kind, Errored));
      }
  }

  /** In every reachable state of every interleaving: the object is a sequential run of the
      pure step over the log, every call is in it at most once, no success is missing from
      it, and the times it stores are in order. */
  lemma {:induction false} EveryInterleavingIsSequential(trace: seq<System>, events: seq<Event>, n: nat)
    requires Run(trace, events) && n < |trace|
    ensures Inv(trace[n])
  {
    if n == 0 {
      assert Writes(trace[0].log) == [];
    } else {
      EveryInterleavingIsSequential(trace, events, n - 1);
      assert Enabled(trace[n - 1], events[n - 1]) && trace[n] == Next(trace[n - 1], events[n - 1]);
      NextKeeps(trace[n - 1], events[n - 1]);
    }
  }

  /** No later step of any client takes a commit back. */
  lemma {:induction false} NothingIsLost(trace: seq<System>, events: seq<Event>, m: nat, n: nat)
    requires Run(trace, events) && m <= n < |trace|
    ensures |trace[m].log| <= |trace[n].log| && trace[m].log == trace[n].log[..|trace[m].log|]
    decreases n - m
  {
    if m < n {
      NothingIsLost(trace, events, m, n - 1);
      assert Enabled(trace[n - 1], events[n - 1]) && trace[n] == Next(trace[n - 1], events[n - 1]);
    }
  }

  /** A placement update that reaches the store leaves the rebalancing status as it is, even
      though it writes back a whole status object it read earlier, perhaps from a cache. */
  lemma PlacementUpdateKeepsStatus(s: System, call: nat)
    requires Inv(s) && Enabled(s, Update(call)) && s.calls[call].kind.PlacementCall?
    ensures Next(s, Update(call)).profile.rs == s.profile.rs
  {
    assert HeldRight(s, s.calls[call]);
  }

  // ----- how often a call is retried -----

  predicate LosesUpdate(s: System, e: Event, call: nat) {
    e == Update(call) && call in s.calls && s.calls[call].Holding? && s.calls[call].version != s.version
  }

  /** The updates of a call that found another version in place. */
  function Losses(trace: seq<System>, events: seq<Event>, n: nat, call: nat): nat
    requires n <= |events| && n < |trace|
  {
    if n == 0 then 0 else Losses(trace, events, n - 1, call) + if LosesUpdate(trace[n - 1], events[n - 1], call) then 1 else 0
  }

  /** A transition or migration goes on after every lost update until it has lost four; only then is
      it told of a conflict. */
  lemma {:induction false} FourLossesEndCall(trace: seq<System>, events: seq<Event>, n: nat, call: nat)
    requires Run(trace, events) && n < |trace|
    ensures call !in trace[n].calls ==> Losses(trace, events, n, call) == 0
    ensures call in trace[n].calls && (trace[n].calls[call].kind.TransitionCall? || trace[n].calls[call].kind.MigrateCall?) ==>
              var losses := Losses(trace, events, n, call);
              && losses <= 4
              && (losses < 4 && trace[n].calls[call].Finished? ==> trace[n].calls[call].answer != Conflicted)
              && (losses == 4 <==> trace[n].calls[call] == Finished(trace[n].calls[call].kind, Conflicted))
              && (!trace[n].calls[call].Finished? ==> trace[n].calls[call].attemptsLeft == 4 - losses)
  {
    hide Apply;
    if n > 0 {
      FourLossesEndCall(trace, events, n - 1, call);
      assert Enabled(trace[n - 1], events[n - 1]) && trace[n] == Next(trace[n - 1], events[n - 1]);
    }
  }
}
