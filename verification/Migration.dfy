/** The one-off tool that brings profiles of the earlier status model to the present one. */
module Migration {
  import opened Profile
  import opened StateMachine
  import opened Step
  import opened StateWriter

  /** A profile still on the earlier status model: no transition is possible until the
      migration, which files the outcome it was listed with and rests the profile. */
  lemma LegacyNeedsMigration(p: Profile, max: nat, req: Request, outcome: Outcome, now: int, id: nat)
    requires p.rs.state in {Legacy(Enacted), Legacy(NoOp), Legacy(Rejected), Legacy(Deferred), Legacy(Failed)}
    ensures Apply(p, max, Transition(req, now, id)).None? && Apply(p, max, Migrate(outcome, now)).Some?
    ensures LegacyOutcome(p.rs.state) == Some(p.rs.state.was)
    ensures var q := Apply(p, max, Migrate(outcome, now)).value;
            && q.rs.state.Watching?
            && |q.rs.recentDecisions| == |p.rs.recentDecisions| + 1
            && q.rs.recentDecisions[0].outcome == outcome
            && q.rs.recentDecisions[1..] == p.rs.recentDecisions
            && Apply(q, max, Migrate(outcome, now)).None?
  {
  }

  /** The migration does not trim: it keeps the history bound exactly when there was room. */
  lemma MigrationKeepsBoundIff(p: Profile, max: nat, outcome: Outcome, at: int)
    requires LegacyOutcome(p.rs.state).Some? && |p.rs.recentDecisions| <= max
    ensures |Apply(p, max, Migrate(outcome, at)).value.rs.recentDecisions| <= max <==> |p.rs.recentDecisions| < max
  {
  }

  /** A legacy state stands until a migration replaces it, so what is filed is the state that
      was stored, however old the listing; and no writer ever brings one back. */
  lemma {:induction false} LegacyStands(p: Profile, max: nat, log: seq<Write>)
    requires Replay(p, max, log).Some?
    ensures var q := Replay(p, max, log).value;
            && (LegacyOutcome(q.rs.state).Some? ==> q.rs.state == p.rs.state)
            && (LegacyOutcome(p.rs.state).Some? ==>
                  (q.rs.state == p.rs.state <==> forall w :: w in log ==> !w.Migrate?))
  {
    if log != [] {
      var front, w := log[..|log| - 1], log[|log| - 1];
      LegacyStands(p, max, front);
      assert forall v :: v in log <==> v in front || v == w;
      var before := Replay(p, max, front).value;
      if w.Transition? { TableByRank(before.rs.state, w.req.to); }
    }
  }

  predicate IsLegacy(p: Profile) { p.rs.state in {Legacy(Enacted), Legacy(NoOp), Legacy(Rejected), Legacy(Deferred), Legacy(Failed)} }

  /** The round reads a legacy profile and loses the update to another writer's commit. */
  ghost predicate Loses(p: Profile, max: nat, round: Round) {
    && !round.readFails && !round.network.FailsBefore? && IsLegacy(p)
    && exists w :: w in round.others && Apply(p, max, w).Some?
  }

  /** Round `k` is the first that loses no race, on the object as it then is. */
  ghost predicate FirstUnlost(p: Profile, max: nat, rounds: seq<Round>, k: nat) {
    && k < |rounds| && !Loses(ObjectAt(p, max, rounds, k), max, rounds[k])
    && forall i :: 0 <= i < k ==> Loses(ObjectAt(p, max, rounds, i), max, rounds[i])
  }

  /** It reads, and finds the profile migrated or gets its update answered. */
  predicate Succeeds(p: Profile, round: Round) {
    !round.readFails && (!IsLegacy(p) || round.network == Answers)
  }

  /** One run of the closure: read, check, rewrite, conditionally update. None is a conflict. */
  method MigrateOnce(stored: ApiObject, outcome: Outcome, round: Round) returns (r: Option<bool>)
    requires stored.Valid()
    modifies stored
    ensures stored.Valid() && old(stored.log) <= stored.log
    ensures r == if Loses(old(stored.profile), stored.max, round) then None else Some(Succeeds(old(stored.profile), round))
    ensures r == None ==> stored.profile == After(old(stored.profile), stored.max, round.others)
    ensures r == Some(true) ==> !IsLegacy(stored.profile)
    ensures var w := Migrate(outcome, round.now);
            Undisturbed([round]) && Apply(old(stored.profile), stored.max, w).Some? ==>
              stored.log == old(stored.log) + [w] && Some(stored.profile) == Apply(old(stored.profile), stored.max, w)
    ensures Undisturbed([round]) && !IsLegacy(old(stored.profile)) ==> stored.log == old(stored.log)
  {
    if round.readFails { return Some(false); }
    var profile, version := stored.profile, stored.version;
    if LegacyOutcome(profile.rs.state).None? { return Some(true); }
    AcceptedIs(profile, stored.max, round.others);
    stored.OthersCommit(round.others);
    if round.network.FailsBefore? { return Some(false); }
    var rs := profile.rs;
    var record := Decision(rs.decisionId, outcome, rs.action, rs.reason, rs.details, rs.startedAt, rs.lastTransitionAt);
    rs := rs.(recentDecisions := [record] + rs.recentDecisions);
    rs := rs.(state := Watching);
    rs := rs.(lastTransitionAt := round.now);
    var reply := stored.UpdateStatus(version, profile.(rs := rs), Migrate(outcome, round.now));
    if reply.Conflict? { return None; }
    return Some(!round.network.FailsAfter?);
  }

  /** RetryOnConflict around it, until a round loses no race: that one decides. A success means that
      the profile is no longer on the earlier model; undisturbed, it is one commit. */
  method MigrateProfile(stored: ApiObject, outcome: Outcome, rounds: seq<Round>) returns (ok: bool)
    requires stored.Valid()
    modifies stored
    ensures stored.Valid() && old(stored.log) <= stored.log
    ensures ok ==> !IsLegacy(stored.profile)
    ensures forall k: nat :: FirstUnlost(old(stored.profile), stored.max, rounds, k) ==>
              ok == Succeeds(ObjectAt(old(stored.profile), stored.max, rounds, k), rounds[k])
    ensures ok ==> exists k: nat :: FirstUnlost(old(stored.profile), stored.max, rounds, k)
    ensures var w := Migrate(outcome, if rounds == [] then 0 else rounds[0].now);
            Undisturbed(rounds) && Apply(old(stored.profile), stored.max, w).Some? ==>
              ok && stored.log == old(stored.log) + [w] && Some(stored.profile) == Apply(old(stored.profile), stored.max, w)
    ensures Undisturbed(rounds) && !IsLegacy(old(stored.profile)) ==> ok && stored.log == old(stored.log)
  {
    hide Apply, Replay, After, Loses, IsLegacy, ApiObject.Valid;
    var attempt := 0;
    ghost var p, max := stored.profile, stored.max;
    while attempt < |rounds|
      invariant 0 <= attempt <= |rounds|
      invariant stored.Valid() && old(stored.log) <= stored.log
      invariant stored.profile == ObjectAt(p, max, rounds, attempt)
      invariant forall i :: 0 <= i < attempt ==> Loses(ObjectAt(p, max, rounds, i), max, rounds[i])
      invariant attempt == 0 ==> stored.log == old(stored.log)
      invariant attempt > 0 ==> !Undisturbed(rounds)
    {
      ObjectAtNext(p, max, rounds, attempt);
      if attempt == 0 { UndisturbedLosesNothing(p, max, outcome, rounds); }
      var result := MigrateOnce(stored, outcome, rounds[attempt]);
      if result.Some? {
        assert FirstUnlost(p, max, rounds, attempt);
        return result.value;
      }
      attempt := attempt + 1;
    }
    return false;
  }

  lemma UndisturbedLosesNothing(p: Profile, max: nat, outcome: Outcome, rounds: seq<Round>)
    requires rounds != []
    ensures Undisturbed(rounds) ==> !Loses(p, max, rounds[0]) && Succeeds(p, rounds[0]) && Undisturbed([rounds[0]])
    ensures Apply(p, max, Migrate(outcome, rounds[0].now)).Some? <==> IsLegacy(p)
  {
  }

  function Legacies(listed: seq<State>): nat {
    if listed == [] then 0 else (if LegacyOutcome(listed[|listed| - 1]).Some? then 1 else 0) + Legacies(listed[..|listed| - 1])
  }

  /** The tool over all profiles, each with the state it was listed with. A dry run writes
      nothing; otherwise every profile listed with a legacy state is migrated or counted failed. */
  method MigrateAll(listed: seq<State>, objects: seq<ApiObject>, rounds: seq<seq<Round>>, dryRun: bool)
    returns (migrated: nat, skipped: nat, failed: nat)
    requires |listed| == |objects| == |rounds|
    requires forall i :: 0 <= i < |objects| ==> objects[i].Valid()
    requires forall i, j :: 0 <= i < j < |objects| ==> objects[i] != objects[j]
    modifies set o | o in objects
    ensures forall i :: 0 <= i < |objects| ==> objects[i].Valid()
    ensures migrated + failed == Legacies(listed) && skipped == |listed| - Legacies(listed)
    ensures forall i :: 0 <= i < |objects| && (dryRun || LegacyOutcome(listed[i]).None?) ==>
              objects[i].profile == old(objects[i].profile) && objects[i].log == old(objects[i].log)
    ensures failed == 0 && !dryRun ==>
              forall i :: 0 <= i < |objects| && LegacyOutcome(listed[i]).Some? ==> !IsLegacy(objects[i].profile)
  {
    hide Apply, Replay, LegacyOutcome, IsLegacy, ApiObject.Valid;
    migrated, skipped, failed := 0, 0, 0;
    var i := 0;
    while i < |listed|
      invariant 0 <= i <= |listed|
      invariant forall k :: 0 <= k < |objects| ==> objects[k].Valid()
      invariant migrated + failed == Legacies(listed[..i]) && skipped == i - Legacies(listed[..i])
      invariant forall k :: 0 <= k < |objects| && (k >= i || dryRun || LegacyOutcome(listed[k]).None?) ==>
                  objects[k].profile == old(objects[k].profile) && objects[k].log == old(objects[k].log)
      invariant failed == 0 && !dryRun ==>
                  forall k :: 0 <= k < i && LegacyOutcome(listed[k]).Some? ==> !IsLegacy(objects[k].profile)
    {
      assert listed[..i + 1][..i] == listed[..i];
      var outcome := LegacyOutcome(listed[i]);
      if outcome.None? {
        skipped := skipped + 1;
      } else if dryRun {
        migrated := migrated + 1;
      } else {
        var ok := MigrateProfile(objects[i], outcome.value, rounds[i]);
        if ok { migrated := migrated + 1; } else { failed := failed + 1; }
      }
      i := i + 1;
    }
    assert listed[..|listed|] == listed;
  }
}
