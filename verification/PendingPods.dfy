/**
 The bypass for pods stuck Pending: the test that triggers it, the enactor that deletes
 them, and why the two do not chase each other without cooldown.
 */
module PendingPods {
  import opened Profile
  import opened Effects

  const MIN_PENDING_POD_AGE := 10

  /** What the enactor deletes. */
  predicate Stuck(p: Pod) { p.phase.Pending? && p.node == "" }

  /** What the trigger looks for. */
  predicate Ripe(p: Pod, now: int) { Stuck(p) && now - p.created >= MIN_PENDING_POD_AGE }

  method HasPendingPod(pods: seq<Pod>, now: int) returns (r: bool)
    ensures r <==> exists p :: p in pods && Ripe(p, now)
    ensures r <==> exists p :: p in pods && p.phase == Pending && p.node == "" && now - p.created >= 10
  {
    var i := 0;
    while i < |pods|
      invariant 0 <= i <= |pods|
      invariant forall j :: 0 <= j < i ==> !Ripe(pods[j], now)
    {
      if Ripe(pods[i], now) { return true; }
      i := i + 1;
    }
    return false;
  }

  datatype DeleteReply = Accepted | NotFound | DeleteFailed
  datatype Listed = Listed(pod: Pod, reply: DeleteReply)

  /** The listing the retry enactor gets, with the answer each pod's delete would get. */
  datatype RetryRun = RetryRun(pods: Option<seq<Listed>>)

  predicate RetrySucceeds(run: RetryRun) {
    && run.pods.Some?
    && (exists l :: l in run.pods.value && Stuck(l.pod))
    && (forall l :: l in run.pods.value && Stuck(l.pod) ==> !l.reply.DeleteFailed?)
  }

  /** The deletes issued: every stuck pod in list order, up to and including a failing one. */
  function Deletes(pods: seq<Listed>): seq<Effect> {
    if pods == [] then []
    else if !Stuck(pods[0].pod) then Deletes(pods[1..])
    else if pods[0].reply.DeleteFailed? then [DeletePod(pods[0].pod.name)]
    else [DeletePod(pods[0].pod.name)] + Deletes(pods[1..])
  }

  function RetryEffects(run: RetryRun): seq<Effect> {
    if run.pods.Some? then Deletes(run.pods.value) else []
  }

  /** The deletes still to come when the loop is at `i`, and after this step. */
  lemma DeletesFrom(effects: seq<Effect>, pods: seq<Listed>, i: nat)
    requires i < |pods|
    ensures var here, rest := effects + Deletes(pods[i..]), Deletes(pods[i + 1..]);
            if !Stuck(pods[i].pod) then here == effects + rest
            else if pods[i].reply.DeleteFailed? then here == effects + [DeletePod(pods[i].pod.name)]
            else here == (effects + [DeletePod(pods[i].pod.name)]) + rest
  {
    assert pods[i..][0] == pods[i] && pods[i..][1..] == pods[i + 1..];
    var one, rest := [DeletePod(pods[i].pod.name)], Deletes(pods[i + 1..]);
    assert effects + (one + rest) == (effects + one) + rest;
  }

  method RetryPendingSchedule(run: RetryRun) returns (ok: bool, ghost effects: seq<Effect>)
    ensures ok <==> RetrySucceeds(run)
    ensures effects == RetryEffects(run)
    ensures ok <==> && run.pods.Some? && (exists l :: l in run.pods.value && l.pod.phase == Pending && l.pod.node == "")
                    && (forall l :: l in run.pods.value && l.pod.phase == Pending && l.pod.node == "" ==> l.reply != DeleteFailed)
  {
    effects := [];
    if run.pods.None? { return false, effects; }
    var pods, deleted, i := run.pods.value, 0, 0;
    assert pods[0..] == pods && [] + Deletes(pods) == Deletes(pods);
    while i < |pods|
      invariant 0 <= i <= |pods|
      invariant effects + Deletes(pods[i..]) == Deletes(pods)
      invariant deleted >= 0
      invariant deleted > 0 <==> exists j :: 0 <= j < i && Stuck(pods[j].pod)
      invariant forall j :: 0 <= j < i && Stuck(pods[j].pod) ==> !pods[j].reply.DeleteFailed?
    {
      DeletesFrom(effects, pods, i);
      if Stuck(pods[i].pod) {
        effects := effects + [DeletePod(pods[i].pod.name)];
        if pods[i].reply.DeleteFailed? {
          assert pods[i] in pods;
          return false, effects;
        }
        deleted := deleted + 1;
      }
      i := i + 1;
    }
    assert effects + [] == effects;
    return deleted > 0, effects;
  }

  function PodsOf(listed: seq<Listed>): (r: seq<Pod>)
    ensures |r| == |listed| && forall i :: 0 <= i < |r| ==> r[i] == listed[i].pod
  {
    seq(|listed|, i requires 0 <= i < |listed| => listed[i].pod)
  }

  lemma {:induction false} DeletesAreOfStuckPods(pods: seq<Listed>)
    ensures forall e :: e in Deletes(pods) ==> exists l :: l in pods && Stuck(l.pod) && e == DeletePod(l.pod.name)
    ensures (forall l :: l in pods && Stuck(l.pod) ==> !l.reply.DeleteFailed?) ==>
              forall l :: l in pods && Stuck(l.pod) ==> DeletePod(l.pod.name) in Deletes(pods)
    ensures (exists l :: l in pods && Stuck(l.pod)) ==> Deletes(pods) != []
  {
    if pods != [] {
      DeletesAreOfStuckPods(pods[1..]);
      assert forall l :: l in pods[1..] ==> l in pods;
      assert forall l :: l in pods ==> l == pods[0] || l in pods[1..];
    }
  }

  predicate Fails(l: Listed) { l.pod.phase == Pending && l.pod.node == "" && l.reply == DeleteFailed }

  /** The deletes go through the listing in order, one for each pod that is Pending and unscheduled,
      and stop after the first that fails. */
  lemma {:induction false} DeletesInOrder(done: seq<Listed>, l: Listed, more: seq<Listed>)
    requires forall d :: d in done ==> !Fails(d)
    ensures var here := if l.pod.phase == Pending && l.pod.node == "" then [DeletePod(l.pod.name)] else [];
            Deletes(done + [l] + more) == Deletes(done) + (here + if Fails(l) then [] else Deletes(more))
  {
    var all := done + [l] + more;
    if done == [] {
      assert all[1..] == more && all[0] == l;
      assert [DeletePod(l.pod.name)] + [] == [DeletePod(l.pod.name)];
    } else {
      DeletesInOrder(done[1..], l, more);
      assert all[1..] == done[1..] + [l] + more && all[0] == done[0] && !Fails(done[0]);
      var rest := (if l.pod.phase == Pending && l.pod.node == "" then [DeletePod(l.pod.name)] else [])
                  + if Fails(l) then [] else Deletes(more);
      var first := [DeletePod(done[0].pod.name)];
      assert first + (Deletes(done[1..]) + rest) == (first + Deletes(done[1..])) + rest;
    }
  }

  /** A bypass match on the pods the retry then lists always leads to a delete; only stuck pods
      are ever deleted; and with no failing delete the retry succeeds. */
  lemma MatchFindsWork(run: RetryRun, now: int)
    requires run.pods.Some?
    requires exists p :: p in PodsOf(run.pods.value) && Ripe(p, now)
    ensures RetryEffects(run) != []
    ensures forall e :: e in RetryEffects(run) ==> exists l :: l in run.pods.value && Stuck(l.pod) && e == DeletePod(l.pod.name)
    ensures (forall l :: l in run.pods.value ==> !l.reply.DeleteFailed?) ==> RetrySucceeds(run)
  {
    var pods := run.pods.value;
    DeletesAreOfStuckPods(pods);
    var p :| p in PodsOf(pods) && Ripe(p, now);
    var i :| 0 <= i < |pods| && PodsOf(pods)[i] == p;
    assert pods[i] in pods && Stuck(pods[i].pod);
  }

  /** The comments promise that the two select the same pods; they do exactly when no stuck
      pod is younger than the floor. */
  lemma SelectionsAgreeIff(pods: set<Pod>, now: int)
    ensures var stuck, ripe := set p | p in pods && Stuck(p), set p | p in pods && Ripe(p, now);
            stuck == ripe <==> (forall p :: p in stuck ==> now - p.created >= MIN_PENDING_POD_AGE)
  {
    var stuck, ripe := set p | p in pods && Stuck(p), set p | p in pods && Ripe(p, now);
    if stuck == ripe {
      assert forall p :: p in stuck ==> p in ripe;
    } else if forall p :: p in stuck ==> now - p.created >= MIN_PENDING_POD_AGE {
      assert forall p :: p in stuck <==> p in ripe;
    }
  }

  /** The application's pods over time, as the scheduler, kubelets and owners change them. */
  datatype Cluster = Cluster(pods: map<string, Pod>, now: int)

  datatype Change =
    | Pass(seconds: nat)
    | Create(pod: Pod)
    | Bind(name: string, node: string)
    | LeavePending(name: string, phase: Phase)
    | DeleteAccepted(name: string)
    | Vanish(name: string)

  /** A pod is created now, keeps its node once bound, and never returns to Pending. */
  predicate Possible(c: Cluster, change: Change) {
    match change
    case Pass(_) => true
    case Create(pod) => pod.name !in c.pods && pod.created == c.now
    case Bind(name, node) => name in c.pods && c.pods[name].node == "" && node != ""
    case LeavePending(name, phase) => name in c.pods && !phase.Pending?
    case DeleteAccepted(_) => true
    case Vanish(name) => name in c.pods
  }

  /** A delete removes the object at once unless finalizers hold it. */
  function Changed(c: Cluster, change: Change): Cluster {
    match change
    case Pass(seconds) => c.(now := c.now + seconds)
    case Create(pod) => c.(pods := c.pods[pod.name := pod])
    case Bind(name, node) => if name in c.pods then c.(pods := c.pods[name := c.pods[name].(node := node)]) else c
    case LeavePending(name, phase) => if name in c.pods then c.(pods := c.pods[name := c.pods[name].(phase := phase)]) else c
    case DeleteAccepted(name) => if name in c.pods && !c.pods[name].held then c.(pods := c.pods - {name}) else c
    case Vanish(name) => c.(pods := c.pods - {name})
  }

  predicate AllPossible(c: Cluster, changes: seq<Change>)
    decreases |changes|
  {
    changes == [] || (Possible(c, changes[0]) && AllPossible(Changed(c, changes[0]), changes[1..]))
  }

  function Evolved(c: Cluster, changes: seq<Change>): Cluster
    decreases |changes|
  {
    if changes == [] then c else Evolved(Changed(c, changes[0]), changes[1..])
  }

  /** Every pod stuck since before `t` is free of finalizers and still to be deleted. */
  ghost predicate OldOnesDoomed(c: Cluster, t: int, changes: seq<Change>) {
    forall n :: n in c.pods && Stuck(c.pods[n]) && c.pods[n].created < t ==>
      !c.pods[n].held && DeleteAccepted(n) in changes
  }

  lemma {:induction false} OnlyYoungOnesLeft(c: Cluster, t: int, changes: seq<Change>)
    requires t <= c.now && AllPossible(c, changes) && OldOnesDoomed(c, t, changes)
    ensures var end := Evolved(c, changes);
            end.now >= t && forall n :: n in end.pods && Stuck(end.pods[n]) ==> end.pods[n].created >= t
    decreases |changes|
  {
    if changes != [] {
      var next := Changed(c, changes[0]);
      forall n | n in next.pods && Stuck(next.pods[n]) && next.pods[n].created < t
        ensures !next.pods[n].held && DeleteAccepted(n) in changes[1..]
      {
        assert n in c.pods && Stuck(c.pods[n]) && c.pods[n].created < t && c.pods[n].held == next.pods[n].held;
        assert changes == [changes[0]] + changes[1..];
      }
      OnlyYoungOnesLeft(next, t, changes[1..]);
    }
  }

  /** The retry's listing shows the pods as they are. */
  ghost predicate ListedFrom(run: RetryRun, c: Cluster) {
    && run.pods.Some?
    && (forall l :: l in run.pods.value ==> l.pod.name in c.pods && c.pods[l.pod.name] == l.pod)
    && (forall n :: n in c.pods ==> exists l :: l in run.pods.value && l.pod == c.pods[n] && l.pod.name == n)
  }

  /** A successful retry deletes exactly the stuck pods. */
  lemma RetryDeletesStuck(run: RetryRun, c: Cluster)
    requires ListedFrom(run, c) && RetrySucceeds(run)
    ensures forall e :: e in RetryEffects(run) ==> e.DeletePod?
    ensures forall n :: DeletePod(n) in RetryEffects(run) <==> n in c.pods && Stuck(c.pods[n])
  {
    DeletesAreOfStuckPods(run.pods.value);
    forall n | n in c.pods && Stuck(c.pods[n])
      ensures DeletePod(n) in RetryEffects(run)
    {
      var l :| l in run.pods.value && l.pod == c.pods[n] && l.pod.name == n;
    }
  }

  /** After a successful retry that listed the pods now, and whose deletes are carried out
      among the changes, no bypass can match before the floor has passed, whatever else happens
      to the pods, if no finalizers hold a pod that was already stuck before now. */
  lemma NoMatchWithinFloor(run: RetryRun, c: Cluster, changes: seq<Change>)
    requires ListedFrom(run, c) && RetrySucceeds(run) && AllPossible(c, changes)
    requires forall n :: DeletePod(n) in RetryEffects(run) ==> DeleteAccepted(n) in changes
    requires forall n :: n in c.pods && Stuck(c.pods[n]) && c.pods[n].created < c.now ==> !c.pods[n].held
    ensures var end := Evolved(c, changes);
            end.now < c.now + MIN_PENDING_POD_AGE ==> forall n :: n in end.pods ==> !Ripe(end.pods[n], end.now)
  {
    RetryDeletesStuck(run, c);
    OnlyYoungOnesLeft(c, c.now, changes);
  }

  function DeleteChanges(effects: seq<Effect>): (r: seq<Change>)
    requires forall e :: e in effects ==> e.DeletePod?
    ensures |r| == |effects| && forall i :: 0 <= i < |r| ==> r[i] == DeleteAccepted(effects[i].podName)
  {
    seq(|effects|, i requires 0 <= i < |effects| => DeleteAccepted(effects[i].podName))
  }

  lemma {:induction false} DeletedAre(c: Cluster, effects: seq<Effect>)
    requires forall e :: e in effects ==> e.DeletePod?
    ensures var end := Evolved(c, DeleteChanges(effects));
            && end.now == c.now
            && (forall n :: n in end.pods <==> n in c.pods && (DeletePod(n) in effects ==> c.pods[n].held))
            && (forall n :: n in end.pods ==> end.pods[n] == c.pods[n])
    decreases |effects|
  {
    if effects != [] {
      var rest := effects[1..];
      assert DeleteChanges(effects)[1..] == DeleteChanges(rest);
      DeletedAre(Changed(c, DeleteAccepted(effects[0].podName)), rest);
      assert forall e :: e in effects <==> e == effects[0] || e in rest;
    }
  }

  /** The pods right after a successful retry when nothing else happens to them. */
  ghost function AfterRetry(run: RetryRun, c: Cluster): Cluster
    requires ListedFrom(run, c) && RetrySucceeds(run)
  {
    RetryDeletesStuck(run, c);
    Evolved(c, DeleteChanges(RetryEffects(run)))
  }

  /** On otherwise unchanged pods a bypass can match within the floor if and only if finalizers
      hold a pod that was stuck before the listing; and at once if and only if that pod was ripe,
      in which case nothing paces the loop. */
  lemma RematchIff(run: RetryRun, c: Cluster)
    requires ListedFrom(run, c) && RetrySucceeds(run)
    ensures var end := AfterRetry(run, c);
            (exists d: nat, n :: d < MIN_PENDING_POD_AGE && n in end.pods && Ripe(end.pods[n], Changed(end, Pass(d)).now))
            <==> exists n :: n in c.pods && Stuck(c.pods[n]) && c.pods[n].held && c.pods[n].created < c.now
    ensures var end := AfterRetry(run, c);
            (exists n :: n in end.pods && Ripe(end.pods[n], end.now))
            <==> exists n :: n in c.pods && Ripe(c.pods[n], c.now) && c.pods[n].held
  {
    RetryDeletesStuck(run, c);
    DeletedAre(c, RetryEffects(run));
    var end := AfterRetry(run, c);
    if n :| n in c.pods && Stuck(c.pods[n]) && c.pods[n].held && c.pods[n].created < c.now {
      assert n in end.pods && Ripe(end.pods[n], Changed(end, Pass(MIN_PENDING_POD_AGE - 1)).now);
    }
  }

  /** Such a pod, with nothing to match at once: stuck for five seconds when the retry lists it,
      ripe five seconds later. */
  lemma HeldPodRipensWithinFloor()
    ensures exists run, c :: ListedFrom(run, c) && RetrySucceeds(run)
              && var end := AfterRetry(run, c);
                 && (forall n :: n in end.pods ==> !Ripe(end.pods[n], end.now))
                 && (exists n :: n in end.pods && Ripe(end.pods[n], Changed(end, Pass(5)).now))
  {
    hide Evolved, DeleteChanges, RetryEffects;
    var held, free := Pod("held", Pending, "", 95, true), Pod("free", Pending, "", 50, false);
    var c := Cluster(map["held" := held, "free" := free], 100);
    var run := RetryRun(Some([Listed(held, Accepted), Listed(free, Accepted)]));
    assert Listed(held, Accepted) in run.pods.value && Listed(free, Accepted) in run.pods.value;
    assert forall l :: l in run.pods.value ==> l == Listed(held, Accepted) || l == Listed(free, Accepted);
    assert ListedFrom(run, c) && RetrySucceeds(run);
    RetryDeletesStuck(run, c);
    DeletedAre(c, RetryEffects(run));
    assert "held" in AfterRetry(run, c).pods && "free" !in AfterRetry(run, c).pods;
  }
}
