/**
 The state writer's retry loop against an API server that keeps a resource version with
 every object and refuses an update made from an older version.
 */
module StateWriter {
  import opened Profile
  import opened StateMachine
  import opened Step

  datatype Reply = Stored | Conflict

  /** What happens around one attempt of the loop: whether its read fails, the clock and the
      fresh id it draws, what other clients commit between its read and its update, and
      whether the server then answers, fails before storing, or stores and loses the reply. */
  datatype Round = Round(readFails: bool, now: int, id: nat, others: seq<Write>, network: Network)
  datatype Network = Answers | FailsBefore | FailsAfter

  datatype TransitionResult = Committed(rs: Status) | Refused | ApiError | Exhausted

  /** One transition call seen from outside: the commits of others it ran into, its own
      commit if it made one, and the answer its caller gets. */
  datatype Run = Run(others: seq<Write>, own: Option<Write>, result: TransitionResult)
  {
    function Writes(): seq<Write> {
      if own.Some? then others + [own.value] else others
    }
  }

  /** The writes of `ws` that are stored when they are issued one after another. */
  function Accepted(p: Profile, max: nat, ws: seq<Write>): (r: seq<Write>)
    ensures Replay(p, max, r).Some?
  {
    if ws == [] then []
    else
      var before := Accepted(p, max, ws[..|ws| - 1]);
      var w := ws[|ws| - 1];
      ReplayAppend(p, max, before, w);
      if Apply(Replay(p, max, before).value, max, w).Some? then before + [w] else before
  }

  function After(p: Profile, max: nat, ws: seq<Write>): Profile {
    Replay(p, max, Accepted(p, max, ws)).value
  }

  /** One attempt: it ends the call, or meets commits of others that send it round again. */
  datatype Attempt = Ends(run: Run) | Conflicts(others: seq<Write>)
  {
    function Writes(): seq<Write> {
      if Ends? then run.Writes() else others
    }
  }

  function Try(p: Profile, max: nat, req: Request, round: Round): Attempt {
    var own := Transition(req, round.now, round.id);
    var others := Accepted(p, max, round.others);
    if round.readFails then Ends(Run([], None, ApiError))
    else if Apply(p, max, own).None? then Ends(Run([], None, Refused))
    else if round.network.FailsBefore? then Ends(Run(others, None, ApiError))
    else if others != [] then Conflicts(others)
    else if round.network.FailsAfter? then Ends(Run([], Some(own), ApiError))
    else Ends(Run([], Some(own), Committed(Apply(p, max, own).value.rs)))
  }

  /** What a transition call does to the object `p`, attempt by attempt. */
  function Attempts(p: Profile, max: nat, req: Request, rounds: seq<Round>): Run
    decreases |rounds|
  {
    if rounds == [] then Run([], None, Exhausted)
    else match Try(p, max, req, rounds[0])
      case Ends(run) => run
      case Conflicts(others) =>
        var rest := Attempts(Replay(p, max, others).value, max, req, rounds[1..]);
        rest.(others := others + rest.others)
  }

  lemma TryIsSequential(p: Profile, max: nat, req: Request, round: Round)
    ensures var attempt := Try(p, max, req, round);
            && Replay(p, max, attempt.Writes()).Some?
            && (attempt.Ends? ==> SequentialRun(p, max, req, attempt.run))
  {
    var own := Transition(req, round.now, round.id);
    ReplayAppend(p, max, [], own);
    assert [] + [own] == [own];
  }

  /** A call's view of the object: the others' commits replay, its own commit comes last and
      replays too, and Committed is answered only with the status that commit stored. */
  predicate SequentialRun(p: Profile, max: nat, req: Request, run: Run) {
    && Replay(p, max, run.others).Some?
    && Replay(p, max, run.Writes()).Some?
    && (run.own.Some? ==> run.own.value.Transition? && run.own.value.req == req)
    && (run.own.Some? ==> run.result.Committed? || run.result.ApiError?)
    && (run.result.Committed? ==>
          run.own.Some? && Replay(p, max, run.Writes()).value.rs == run.result.rs)
  }

  /** Whatever others commit in between, the object ends as a sequential run of pure steps in
      which this call takes part at most once, last, and on the object as it then is; the
      caller is told Committed only with the status that its own commit stored. */
  lemma {:induction false} AttemptsAreSequential(p: Profile, max: nat, req: Request, rounds: seq<Round>)
    ensures SequentialRun(p, max, req, Attempts(p, max, req, rounds))
    decreases |rounds|
  {
    hide Try, Apply, Accepted, Replay;
    if rounds == [] {
      ReplayEmpty(p, max);
    } else {
      TryIsSequential(p, max, req, rounds[0]);
      match Try(p, max, req, rounds[0])
      case Ends(_) =>
      case Conflicts(others) =>
        var q := Replay(p, max, others).value;
        var rest := Attempts(q, max, req, rounds[1..]);
        AttemptsAreSequential(q, max, req, rounds[1..]);
        ReplayConcat(p, max, others, rest.others);
        ReplayConcat(p, max, others, rest.Writes());
        assert rest.own.Some? ==> others + rest.others + [rest.own.value] == others + rest.Writes();
    }
  }

  /** The first attempt reads, meets no other writer and is answered. */
  predicate Undisturbed(rounds: seq<Round>) {
    rounds != [] && !rounds[0].readFails && rounds[0].others == [] && rounds[0].network.Answers?
  }

  /** Undisturbed, a call is its one commit. */
  lemma UndisturbedCommits(p: Profile, max: nat, req: Request, rounds: seq<Round>)
    requires Undisturbed(rounds)
    ensures var own := Transition(req, rounds[0].now, rounds[0].id);
            Apply(p, max, own).Some? ==>
              && Attempts(p, max, req, rounds) == Run([], Some(own), Committed(Apply(p, max, own).value.rs))
              && Replay(p, max, Attempts(p, max, req, rounds).Writes()) == Apply(p, max, own)
  {
    ReplayEmpty(p, max);
    ReplayAppend(p, max, [], Transition(req, rounds[0].now, rounds[0].id));
    assert [] + [Transition(req, rounds[0].now, rounds[0].id)] == [Transition(req, rounds[0].now, rounds[0].id)];
    hide Replay, Apply;
  }

  /** Writes that follow from one another are all stored, and some write is stored as soon as one
      of them fits the object as it is. */
  lemma {:induction false} AcceptedIs(p: Profile, max: nat, ws: seq<Write>)
    ensures Replay(p, max, ws).Some? ==> Accepted(p, max, ws) == ws
    ensures Accepted(p, max, ws) != [] <==> exists w :: w in ws && Apply(p, max, w).Some?
  {
    hide Apply, Replay;
    if ws != [] {
      var front, w := ws[..|ws| - 1], ws[|ws| - 1];
      AcceptedIs(p, max, front);
      ReplayEmpty(p, max);
      ReplaySplits(p, max, ws);
      assert forall v :: v in ws <==> v in front || v == w;
    }
  }

  lemma ReplaySplits(p: Profile, max: nat, ws: seq<Write>)
    requires ws != []
    ensures var front, w := ws[..|ws| - 1], ws[|ws| - 1];
            && front + [w] == ws
            && (Replay(p, max, ws).Some? ==> Replay(p, max, front).Some? && Apply(Replay(p, max, front).value, max, w).Some?)
  {
    hide Apply;
  }

  /** The object when round `i` begins: after the commits of others in the rounds before. */
  function ObjectAt(p: Profile, max: nat, rounds: seq<Round>, i: nat): Profile
    requires i <= |rounds|
    decreases i
  {
    if i == 0 then p else ObjectAt(After(p, max, rounds[0].others), max, rounds[1..], i - 1)
  }

  lemma {:induction false} ObjectAtNext(p: Profile, max: nat, rounds: seq<Round>, i: nat)
    requires i < |rounds|
    ensures ObjectAt(p, max, rounds, i + 1) == After(ObjectAt(p, max, rounds, i), max, rounds[i].others)
    decreases i
  {
    hide After;
    if i > 0 { ObjectAtNext(After(p, max, rounds[0].others), max, rounds[1..], i - 1); }
  }

  /** The round reads, has a valid update to make, and loses it to another writer's commit. */
  ghost predicate LosesRace(p: Profile, max: nat, req: Request, round: Round) {
    && !round.readFails && !round.network.FailsBefore?
    && Apply(p, max, Transition(req, round.now, round.id)).Some?
    && exists w :: w in round.others && Apply(p, max, w).Some?
  }

  ghost predicate AllLose(p: Profile, max: nat, req: Request, rounds: seq<Round>, k: nat)
    requires k <= |rounds|
  {
    forall i :: 0 <= i < k ==> LosesRace(ObjectAt(p, max, rounds, i), max, req, rounds[i])
  }

  /** How a round that loses no race ends the call, on the object as it then is. */
  predicate EndedBy(p: Profile, max: nat, req: Request, round: Round, own: Option<Write>, result: TransitionResult) {
    var w := Transition(req, round.now, round.id);
    if round.readFails then own == None && result == ApiError
    else if Apply(p, max, w).None? then own == None && result == Refused
    else if round.network.FailsBefore? then own == None && result == ApiError
    else own == Some(w) && result == if round.network.FailsAfter? then ApiError else Committed(Apply(p, max, w).value.rs)
  }

  lemma TryGoesRound(p: Profile, max: nat, req: Request, round: Round)
    ensures LosesRace(p, max, req, round) ==> Try(p, max, req, round) == Conflicts(Accepted(p, max, round.others))
    ensures !LosesRace(p, max, req, round) ==>
              && Try(p, max, req, round).Ends?
              && var run := Try(p, max, req, round).run; EndedBy(p, max, req, round, run.own, run.result)
  {
    AcceptedIs(p, max, round.others);
    hide Apply, Accepted;
  }

  /** Every lost race is retried on the object it left, until a round loses none: that one alone
      decides what is committed and answered. */
  lemma {:induction false} FirstUnlostRoundDecides(p: Profile, max: nat, req: Request, rounds: seq<Round>, k: nat)
    requires k < |rounds| && AllLose(p, max, req, rounds, k)
    requires !LosesRace(ObjectAt(p, max, rounds, k), max, req, rounds[k])
    ensures var run := Attempts(p, max, req, rounds);
            EndedBy(ObjectAt(p, max, rounds, k), max, req, rounds[k], run.own, run.result)
    decreases k
  {
    hide Try, Apply, Accepted, LosesRace, EndedBy, Replay;
    TryGoesRound(p, max, req, rounds[0]);
    if k > 0 {
      var q, rest := After(p, max, rounds[0].others), rounds[1..];
      assert ObjectAt(p, max, rounds, 0) == p;
      LaterRounds(p, max, req, rounds, k);
      FirstUnlostRoundDecides(q, max, req, rest, k - 1);
    }
  }

  lemma LaterRounds(p: Profile, max: nat, req: Request, rounds: seq<Round>, k: nat)
    requires 0 < k <= |rounds| && AllLose(p, max, req, rounds, k)
    ensures AllLose(After(p, max, rounds[0].others), max, req, rounds[1..], k - 1)
  {
    hide After, LosesRace;
    var q, rest := After(p, max, rounds[0].others), rounds[1..];
    forall i | 0 <= i < k - 1
      ensures LosesRace(ObjectAt(q, max, rest, i), max, req, rest[i])
    {
      assert ObjectAt(p, max, rounds, i + 1) == ObjectAt(q, max, rest, i) && rounds[i + 1] == rest[i];
    }
  }

  /** The call gives up if and only if it loses the race in every round. */
  lemma {:induction false} ExhaustedIff(p: Profile, max: nat, req: Request, rounds: seq<Round>)
    ensures Attempts(p, max, req, rounds).result == Exhausted <==> AllLose(p, max, req, rounds, |rounds|)
    ensures Attempts(p, max, req, rounds).result == Exhausted ==> Attempts(p, max, req, rounds).own == None
    decreases |rounds|
  {
    hide Try, Apply, Accepted, LosesRace, Replay;
    if rounds != [] {
      TryGoesRound(p, max, req, rounds[0]);
      assert ObjectAt(p, max, rounds, 0) == p;
      var q, rest := After(p, max, rounds[0].others), rounds[1..];
      ExhaustedIff(q, max, req, rest);
      if AllLose(p, max, req, rounds, |rounds|) {
        LaterRounds(p, max, req, rounds, |rounds|);
      } else if LosesRace(p, max, req, rounds[0]) && AllLose(q, max, req, rest, |rest|) {
        forall i | 0 <= i < |rounds|
          ensures LosesRace(ObjectAt(p, max, rounds, i), max, req, rounds[i])
        {
          if i > 0 { assert ObjectAt(p, max, rounds, i) == ObjectAt(q, max, rest, i - 1) && rounds[i] == rest[i - 1]; }
        }
      }
    }
  }

  /** One profile object on the API server. `log` holds every write committed to it. */
  class ApiObject {
    const max: nat
    var profile: Profile
    var version: nat
    ghost const initial: Profile
    ghost var log: seq<Write>

    /** The object is the sequential run of its committed writes; its version counts them. */
    ghost predicate Valid()
      reads this
    {
      Replay(initial, max, log) == Some(profile) && version == |log|
    }

    constructor (max: nat, profile: Profile)
      ensures Valid() && this.max == max && this.profile == profile && log == []
    {
      this.max := max;
      this.profile := profile;
      this.version := 0;
      this.initial := profile;
      this.log := [];
    }

    /** Stores `next` only if the object is still at the version the caller read. */
    method UpdateStatus(read: nat, next: Profile, ghost write: Write) returns (r: Reply)
      requires Valid()
      requires version == read ==> Apply(profile, max, write) == Some(next)
      modifies this
      ensures Valid()
      ensures r == if old(version) == read then Stored else Conflict
      ensures r.Stored? ==> profile == next && log == old(log) + [write]
      ensures r.Conflict? ==> profile == old(profile) && log == old(log)
    {
      if version != read { return Conflict; }
      ReplayAppend(initial, max, log, write);
      profile, version := next, version + 1;
      log := log + [write];
      return Stored;
    }

    /** Other clients of the object, each reading it and storing what it computed. */
    method OthersCommit(ws: seq<Write>)
      requires Valid()
      modifies this
      ensures Valid()
      ensures var accepted := Accepted(old(profile), max, ws);
              log == old(log) + accepted && Some(profile) == Replay(old(profile), max, accepted)
    {
      hide Apply, Replay;
      var i := 0;
      ghost var p := profile;
      ReplayEmpty(p, max);
      assert ws[..0] == [];
      assert log + [] == log;
      while i < |ws|
        invariant 0 <= i <= |ws|
        invariant Valid()
        invariant log == old(log) + Accepted(p, max, ws[..i])
        invariant Some(profile) == Replay(p, max, Accepted(p, max, ws[..i]))
      {
        assert ws[..i + 1][..i] == ws[..i];
        ghost var before := Accepted(p, max, ws[..i]);
        ReplayAppend(p, max, before, ws[i]);
        assert old(log) + (before + [ws[i]]) == old(log) + before + [ws[i]];
        var next := Apply(profile, max, ws[i]);
        if next.Some? {
          var reply := UpdateStatus(version, next.value, ws[i]);
        }
        i := i + 1;
      }
      assert ws[..|ws|] == ws;
    }
  }

  /** The placement reconciler's update: it writes back the whole status it once read, from a
      copy that may be out of date, and on a conflict leaves the rest to its next run. */
  method UpdatePlacement(stored: ApiObject, cached: Profile, version: nat, content: nat, others: seq<Write>) returns (requeue: bool)
    requires stored.Valid() && version <= stored.version
    requires version == stored.version ==> cached == stored.profile
    modifies stored
    ensures stored.Valid()
    ensures var p, max := old(stored.profile), stored.max;
            var met := Accepted(p, max, others);
            if version == old(stored.version) && met == [] then
              !requeue && stored.profile == p.(placement := content) && stored.log == old(stored.log) + [Placement(content)]
            else
              requeue && Some(stored.profile) == Replay(p, max, met) && stored.log == old(stored.log) + met
  {
    stored.OthersCommit(others);
    var mutated := cached.(placement := content);
    var reply := stored.UpdateStatus(version, mutated, Placement(content));
    return reply.Conflict?;
  }

  /** The single component that writes the rebalancing status. */
  class StateWriter {
    const stored: ApiObject

    constructor (stored: ApiObject)
      ensures this.stored == stored
    {
      this.stored := stored;
    }

    /** The fields every accepted transition sets, one after another. */
    method Enter(current: Status, req: Request, now: int, id: nat) returns (rs: Status)
      ensures rs == if req.to.Triggered? then Started(current, req, now, id) else Advanced(current, req, now)
    {
      rs := current;
      if req.to == Triggered {
        rs := rs.(decisionId := id);
        rs := rs.(startedAt := now);
        rs := rs.(action := NoAction);
        rs := rs.(details := "");
      }
      rs := rs.(state := req.to);
      rs := rs.(reason := req.reason);
      rs := rs.(lastTransitionAt := now);
      if req.action != NoAction { rs := rs.(action := req.action); }
      if req.details != "" { rs := rs.(details := req.details); }
    }

    /** The fields only a terminal transition sets: streak, escalation, cooldown, history. */
    method Finish(spec: Spec, entered: Status, req: Request, now: int) returns (rs: Status)
      requires req.outcome.Some?
      ensures var streak := Streak(entered.consecutiveFailures, req.outcome.value);
              var outcome := Recorded(spec, streak, req.outcome.value);
              rs == entered.(
                consecutiveFailures := streak,
                escalated := entered.escalated || outcome.Escalated?,
                cooldownUntil := if req.cooldown > 0 then now + req.cooldown else entered.cooldownUntil,
                recentDecisions := Prepend(
                  Decision(entered.decisionId, outcome, entered.action, req.reason, entered.details, entered.startedAt, now),
                  entered.recentDecisions, stored.max))
    {
      rs := entered;
      var effective := req.outcome.value;
      if effective == Failed || effective == Deferred {
        rs := rs.(consecutiveFailures := rs.consecutiveFailures + 1);
      } else {
        rs := rs.(consecutiveFailures := 0);
      }
      var threshold := spec.escalationThreshold;
      if threshold <= 0 { threshold := DEFAULT_ESCALATION_THRESHOLD; }
      if req.outcome.value != Escalated && rs.consecutiveFailures >= threshold {
        effective := Escalated;
        rs := rs.(escalated := true);
      } else if req.outcome.value == Escalated {
        rs := rs.(escalated := true);
      }
      if req.cooldown > 0 { rs := rs.(cooldownUntil := now + req.cooldown); }
      var record := Decision(rs.decisionId, effective, rs.action, req.reason, rs.details, rs.startedAt, now);
      var updated := [record] + rs.recentDecisions;
      if |updated| > stored.max { updated := updated[..stored.max]; }
      rs := rs.(recentDecisions := updated);
    }

    method Mutate(spec: Spec, current: Status, req: Request, now: int, id: nat) returns (r: Option<Status>)
      ensures r == StepStatus(spec, current, stored.max, req, now, id)
    {
      if !IsValidTransition(current.state, req.to) { return None; }
      var rs := Enter(current, req, now, id);
      if req.to == Watching {
        if req.outcome == None { return None; }
        rs := Finish(spec, rs, req, now);
      }
      return Some(rs);
    }

    /** One run of the closure: read, validate, mutate, conditionally update. None is a conflict. */
    method Once(req: Request, round: Round) returns (result: Option<TransitionResult>)
      requires stored.Valid()
      modifies stored
      ensures stored.Valid()
      ensures var attempt := Try(old(stored.profile), stored.max, req, round);
              && result == (if attempt.Ends? then Some(attempt.run.result) else None)
              && stored.log == old(stored.log) + attempt.Writes()
              && Replay(old(stored.profile), stored.max, attempt.Writes()) == Some(stored.profile)
    {
      assert stored.log + [] == stored.log;
      if round.readFails { return Some(ApiError); }
      var profile, version := stored.profile, stored.version;
      var mutated := Mutate(profile.spec, profile.rs, req, round.now, round.id);
      if mutated.None? { return Some(Refused); }
      stored.OthersCommit(round.others);
      if round.network.FailsBefore? { return Some(ApiError); }
      ghost var own := Write.Transition(req, round.now, round.id);
      ReplayAppend(profile, stored.max, [], own);
      assert [] + [own] == [own];
      var reply := stored.UpdateStatus(version, profile.(rs := mutated.value), own);
      if reply.Conflict? { return None; }
      if round.network.FailsAfter? { return Some(ApiError); }
      return Some(Committed(mutated.value));
    }

    /** RetryOnConflict around the closure, one round of the environment per attempt. */
    method Transition(req: Request, rounds: seq<Round>) returns (result: TransitionResult)
      requires stored.Valid()
      modifies stored
      ensures stored.Valid()
      ensures var run := Attempts(old(stored.profile), stored.max, req, rounds);
              && result == run.result
              && stored.log == old(stored.log) + run.Writes()
              && Replay(old(stored.profile), stored.max, run.Writes()) == Some(stored.profile)
    {
      hide Try, Apply, Accepted, Replay;
      var attempt := 0;
      ghost var p0, max, met := stored.profile, stored.max, [];
      assert Replay(p0, max, []) == Some(p0) by { ReplayEmpty(p0, max); }
      assert rounds[0..] == rounds && stored.log + [] == stored.log;
      while attempt < |rounds|
        invariant 0 <= attempt <= |rounds|
        invariant stored.Valid() && stored.log == old(stored.log) + met
        invariant Replay(p0, max, met) == Some(stored.profile)
        invariant var rest := Attempts(stored.profile, max, req, rounds[attempt..]);
                  Attempts(p0, max, req, rounds) == rest.(others := met + rest.others)
      {
        ghost var p, before := stored.profile, stored.log;
        ghost var writes := Try(p, max, req, rounds[attempt]).Writes();
        assert rounds[attempt..][1..] == rounds[attempt + 1..];
        var outcome := Once(req, rounds[attempt]);
        ReplayConcat(p0, max, met, writes);
        assert old(stored.log) + met + writes == old(stored.log) + (met + writes);
        if outcome.Some? {
          ghost var run := Try(p, max, req, rounds[attempt]).run;
          assert run.own.Some? ==> met + (run.others + [run.own.value]) == met + run.others + [run.own.value];
          return outcome.value;
        }
        ghost var rest := Attempts(stored.profile, max, req, rounds[attempt + 1..]);
        assert met + (writes + rest.others) == (met + writes) + rest.others;
        met := met + writes;
        attempt := attempt + 1;
      }
      assert met + [] == met;
      return Exhausted;
    }
  }
}
