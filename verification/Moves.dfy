/** The enactor of Move: put a hint, evict, wait for the replacement, take the hint back. */
module Moves {
  import opened Profile
  import opened Effects
  import opened EnergyGate
  import opened DecisionStore

  datatype EvictReply = Evicted | TooManyRequests | EvictFailed

  /** One poll for the replacement: the times at which the placement server scored pods of
      this workload since the poll before, and what the list call then returns. */
  datatype Poll = Poll(scoredAt: seq<int>, pods: Option<seq<Pod>>)

  /** How the cluster answers one move. */
  datatype MoveRun = MoveRun(
    before: Option<seq<Pod>>,
    putAt: int,
    eviction: EvictReply,
    polls: seq<Poll>,
    eaos: Option<seq<Eao>>)

  function Names(pods: seq<Pod>): set<string> {
    set i | 0 <= i < |pods| :: pods[i].name
  }

  predicate IsReplacement(pod: Pod, before: set<string>) { pod.name !in before && pod.node != "" }

  function FirstReplacement(pods: seq<Pod>, before: set<string>): Option<Pod> {
    if pods == [] then None
    else if IsReplacement(pods[0], before) then Some(pods[0])
    else FirstReplacement(pods[1..], before)
  }

  function Observed(polls: seq<Poll>, before: set<string>): Option<Pod> {
    if polls == [] then None
    else
      var here := if polls[0].pods.Some? then FirstReplacement(polls[0].pods.value, before) else None;
      if here.Some? then here else Observed(polls[1..], before)
  }

  /** The pod to move is among the application's pods, so a hint was put. */
  predicate Starts(run: MoveRun, podName: string) {
    run.before.Some? && podName in Names(run.before.value)
  }

  function MoveAnswer(spec: Spec, run: MoveRun, podName: string, target: string): EnactorResult {
    if !Starts(run, podName) || run.eviction.EvictFailed? then EnactorError
    else if run.eviction.TooManyRequests? then Reported(Deferred)
    else
      var replacement := Observed(run.polls, Names(run.before.value));
      if replacement.None? then Reported(ClassifyScheduleTimeout(spec, run.eaos))
      else if replacement.value.node == target then Reported(Enacted) else Reported(Failed)
  }

  function MoveEffects(run: MoveRun, key: string, podName: string, target: string): seq<Effect> {
    if !Starts(run, podName) then []
    else if run.eviction.Evicted? then [PutHint(key, podName, target), Evict(podName), DropHint(key)]
    else [PutHint(key, podName, target), DropHint(key)]
  }

  lemma {:induction false} FirstReplacementIsOne(pods: seq<Pod>, before: set<string>)
    ensures FirstReplacement(pods, before).Some? ==>
              FirstReplacement(pods, before).value in pods && IsReplacement(FirstReplacement(pods, before).value, before)
    ensures FirstReplacement(pods, before).None? ==> forall p :: p in pods ==> !IsReplacement(p, before)
  {
    if pods != [] { FirstReplacementIsOne(pods[1..], before); }
  }

  lemma {:induction false} ObservedIsSeen(polls: seq<Poll>, before: set<string>)
    ensures Observed(polls, before).Some? ==>
              exists i :: 0 <= i < |polls| && polls[i].pods.Some? && Observed(polls, before).value in polls[i].pods.value
                          && IsReplacement(Observed(polls, before).value, before)
  {
    if polls != [] {
      if polls[0].pods.Some? { FirstReplacementIsOne(polls[0].pods.value, before); }
      ObservedIsSeen(polls[1..], before);
      var rest := Observed(polls[1..], before);
      if rest.Some? && Observed(polls, before) == rest {
        var i :| 0 <= i < |polls[1..]| && polls[1..][i].pods.Some? && rest.value in polls[1..][i].pods.value;
        assert polls[i + 1] == polls[1..][i];
      }
    }
  }

  /** A move reported Enacted really put a pod on the target that was not there before the
      eviction, and the pod it was asked to move was evicted. */
  lemma EnactedMeansMoved(spec: Spec, run: MoveRun, key: string, podName: string, target: string)
    requires MoveAnswer(spec, run, podName, target) == Reported(Enacted)
    ensures Evict(podName) in MoveEffects(run, key, podName, target)
    ensures exists i, p :: 0 <= i < |run.polls| && run.polls[i].pods.Some? && p in run.polls[i].pods.value
                           && p.node == target && p.name !in Names(run.before.value)
  {
    ObservedIsSeen(run.polls, Names(run.before.value));
  }

  /** Pod `j` of listing `i` is the first listed with a node that was not there before. */
  ghost predicate FirstNew(polls: seq<Poll>, before: set<string>, i: nat, j: nat) {
    && i < |polls| && polls[i].pods.Some? && j < |polls[i].pods.value| && IsNew(polls[i].pods.value[j], before)
    && (forall k :: 0 <= k < j ==> !IsNew(polls[i].pods.value[k], before))
    && (forall h, k :: 0 <= h < i && polls[h].pods.Some? && 0 <= k < |polls[h].pods.value| ==> !IsNew(polls[h].pods.value[k], before))
  }

  predicate IsNew(p: Pod, before: set<string>) { p.node != "" && p.name !in before }

  lemma {:induction false} FirstReplacementIsFirst(pods: seq<Pod>, before: set<string>) returns (j: nat)
    ensures FirstReplacement(pods, before).Some? ==>
              && j < |pods| && IsNew(pods[j], before) && FirstReplacement(pods, before) == Some(pods[j])
              && forall k :: 0 <= k < j ==> !IsNew(pods[k], before)
    ensures FirstReplacement(pods, before).None? ==> forall k :: 0 <= k < |pods| ==> !IsNew(pods[k], before)
  {
    j := 0;
    if pods != [] && !IsNew(pods[0], before) {
      var k := FirstReplacementIsFirst(pods[1..], before);
      assert forall i :: 0 < i < |pods| ==> pods[i] == pods[1..][i - 1];
      j := k + 1;
    }
  }

  lemma {:induction false} ObservedIsFirst(polls: seq<Poll>, before: set<string>) returns (i: nat, j: nat)
    ensures Observed(polls, before).Some? ==> FirstNew(polls, before, i, j) && Observed(polls, before) == Some(polls[i].pods.value[j])
    ensures Observed(polls, before).None? ==>
              forall h, k :: 0 <= h < |polls| && polls[h].pods.Some? && 0 <= k < |polls[h].pods.value| ==> !IsNew(polls[h].pods.value[k], before)
  {
    i, j := 0, 0;
    if polls != [] {
      var rest := polls[1..];
      assert forall h :: 0 < h < |polls| ==> polls[h] == rest[h - 1];
      if polls[0].pods.Some? { j := FirstReplacementIsFirst(polls[0].pods.value, before); }
      if polls[0].pods.None? || FirstReplacement(polls[0].pods.value, before).None? {
        var a, b := ObservedIsFirst(rest, before);
        i, j := a + 1, b;
      }
    }
  }

  /** The answer of a move by what the cluster answered it: an error when the pods cannot be listed,
      the pod is not among them, or the eviction fails; Deferred when the eviction is refused for
      too many requests; otherwise by the first new pod with a node, or the timeout. */
  lemma MoveDecides(spec: Spec, run: MoveRun, podName: string, target: string) returns (i: nat, j: nat)
    ensures var answer := MoveAnswer(spec, run, podName, target);
            if run.before == None || (forall p :: p in run.before.value ==> p.name != podName) || run.eviction == EvictFailed
            then answer == EnactorError
            else if run.eviction == TooManyRequests then answer == Reported(Deferred)
            else if exists a: nat, b: nat :: FirstNew(run.polls, Names(run.before.value), a, b)
            then && FirstNew(run.polls, Names(run.before.value), i, j)
                 && answer == Reported(if run.polls[i].pods.value[j].node == target then Enacted else Failed)
            else answer == Reported(ClassifyScheduleTimeout(spec, run.eaos))
  {
    i, j := 0, 0;
    if run.before.Some? {
      i, j := ObservedIsFirst(run.polls, Names(run.before.value));
      var pods := run.before.value;
      if podName in Names(pods) {
        var k :| 0 <= k < |pods| && pods[k].name == podName;
        assert pods[k] in pods;
      }
      if p :| p in pods && p.name == podName {
        var k :| 0 <= k < |pods| && pods[k] == p;
      }
    }
  }

  ghost predicate ListedNew(polls: seq<Poll>, before: set<string>) {
    exists i, p :: 0 <= i < |polls| && polls[i].pods.Some? && p in polls[i].pods.value && IsReplacement(p, before)
  }

  lemma {:induction false} ObservedIff(polls: seq<Poll>, before: set<string>)
    ensures Observed(polls, before).Some? <==> ListedNew(polls, before)
  {
    ObservedIsSeen(polls, before);
    if polls != [] {
      if polls[0].pods.Some? { FirstReplacementIsOne(polls[0].pods.value, before); }
      ObservedIff(polls[1..], before);
      assert forall i :: 0 < i < |polls| ==> polls[i] == polls[1..][i - 1];
      if ListedNew(polls[1..], before) {
        var i, p :| 0 <= i < |polls[1..]| && polls[1..][i].pods.Some? && p in polls[1..][i].pods.value && IsReplacement(p, before);
        assert polls[i + 1] == polls[1..][i];
      }
    }
  }

  /** An evicted pod's move is decided by where its replacement is exactly when some listing
      shows a pod with a new name and a node. A replacement that keeps the old name, as a
      StatefulSet's does, is never seen, on whatever node it runs. */
  lemma MoveNeedsNewName(spec: Spec, run: MoveRun, podName: string, target: string)
    requires Starts(run, podName) && run.eviction.Evicted?
    ensures !ListedNew(run.polls, Names(run.before.value)) <==> Observed(run.polls, Names(run.before.value)).None?
    ensures (forall i, p :: 0 <= i < |run.polls| && run.polls[i].pods.Some? && p in run.polls[i].pods.value ==>
               p.name in Names(run.before.value))
            ==> MoveAnswer(spec, run, podName, target) == Reported(ClassifyScheduleTimeout(spec, run.eaos))
  {
    ObservedIff(run.polls, Names(run.before.value));
  }

  /** Between the two histories lie the put of the hint, then lookups of its key, then its delete. */
  ghost predicate PutThenDropped(before: seq<Op>, after: seq<Op>, key: string, hint: Hint, at: int) {
    && |after| >= |before| + 2 && after[..|before|] == before
    && after[|before|] == Op.Put(key, hint, at) && after[|after| - 1] == Op.Delete(key)
    && OnlyLookups(after, |before| + 1, |after| - 1, key)
  }

  ghost predicate OnlyLookups(ops: seq<Op>, lo: nat, hi: nat, key: string)
    requires hi <= |ops|
  {
    forall i :: lo <= i < hi ==> ops[i].Lookup? && ops[i].key == key
  }

  /** The placement server scoring pods of the workload while the enactor waits. */
  method ServeScorings(store: DecisionStore, key: string, times: seq<int>)
    requires store.Valid()
    modifies store
    ensures store.Valid() && store.entries - {key} == old(store.entries) - {key}
    ensures old(store.ops) <= store.ops && OnlyLookups(store.ops, |old(store.ops)|, |store.ops|, key)
  {
    var i := 0;
    while i < |times|
      invariant 0 <= i <= |times|
      invariant store.Valid() && store.entries - {key} == old(store.entries) - {key}
      invariant old(store.ops) <= store.ops && OnlyLookups(store.ops, |old(store.ops)|, |store.ops|, key)
    {
      var hit := store.Lookup(key, times[i]);
      assert store.entries - {key} == old(store.entries) - {key};
      i := i + 1;
    }
  }

  method FindPodByName(pods: seq<Pod>, name: string) returns (found: bool)
    ensures found <==> name in Names(pods)
  {
    var i := 0;
    while i < |pods|
      invariant 0 <= i <= |pods|
      invariant forall j :: 0 <= j < i ==> pods[j].name != name
    {
      if pods[i].name == name { return true; }
      i := i + 1;
    }
    return false;
  }

  method AwaitReplacement(store: DecisionStore, key: string, before: set<string>, polls: seq<Poll>) returns (found: Option<Pod>)
    requires store.Valid()
    modifies store
    ensures store.Valid() && store.entries - {key} == old(store.entries) - {key}
    ensures old(store.ops) <= store.ops && OnlyLookups(store.ops, |old(store.ops)|, |store.ops|, key)
    ensures found == Observed(polls, before)
  {
    var i := 0;
    while i < |polls|
      invariant 0 <= i <= |polls|
      invariant store.Valid() && store.entries - {key} == old(store.entries) - {key}
      invariant old(store.ops) <= store.ops && OnlyLookups(store.ops, |old(store.ops)|, |store.ops|, key)
      invariant Observed(polls, before) == Observed(polls[i..], before)
    {
      ServeScorings(store, key, polls[i].scoredAt);
      assert polls[i..][1..] == polls[i + 1..];
      if polls[i].pods.Some? {
        var pods, j := polls[i].pods.value, 0;
        while j < |pods|
          invariant 0 <= j <= |pods|
          invariant FirstReplacement(pods, before) == FirstReplacement(pods[j..], before)
        {
          var p := pods[j];
          if !(p.name in before || p.node == "") { return Some(p); }
          j := j + 1;
        }
      }
      i := i + 1;
    }
    return None;
  }

  /** Every way out leaves the store as it was, minus the entry of this workload. */
  method MoveEnactor(store: DecisionStore, key: string, spec: Spec, podName: string, target: string, reason: string,
                     decisionId: nat, run: MoveRun)
    returns (r: EnactorResult, ghost effects: seq<Effect>)
    requires store.Valid()
    modifies store
    ensures store.Valid()
    ensures r == MoveAnswer(spec, run, podName, target)
    ensures effects == MoveEffects(run, key, podName, target)
    ensures store.entries == if Starts(run, podName) then old(store.entries) - {key} else old(store.entries)
    ensures if Starts(run, podName)
            then PutThenDropped(old(store.ops), store.ops, key, Hint(podName, Move, target, reason, decisionId), run.putAt)
            else store.ops == old(store.ops)
  {
    effects := [];
    if run.before.None? { return EnactorError, effects; }
    var found := FindPodByName(run.before.value, podName);
    if !found { return EnactorError, effects; }

    var beforeNames, i := {}, 0;
    while i < |run.before.value|
      invariant 0 <= i <= |run.before.value|
      invariant beforeNames == Names(run.before.value[..i])
    {
      beforeNames := beforeNames + {run.before.value[i].name};
      i := i + 1;
    }
    assert run.before.value[..i] == run.before.value;

    store.Put(key, Hint(podName, Move, target, reason, decisionId), run.putAt);
    effects := [PutHint(key, podName, target)];
    if !run.eviction.Evicted? {
      store.Delete(key);
      effects := effects + [DropHint(key)];
      return if run.eviction.TooManyRequests? then Reported(Deferred) else EnactorError, effects;
    }
    effects := effects + [Evict(podName)];
    var replacement := AwaitReplacement(store, key, beforeNames, run.polls);
    ghost var waited := store.entries;
    store.Delete(key);
    effects := effects + [DropHint(key)];
    if replacement.None? { return Reported(ClassifyScheduleTimeout(spec, run.eaos)), effects; }
    if replacement.value.node != target { return Reported(Failed), effects; }
    return Reported(Enacted), effects;
  }
}
