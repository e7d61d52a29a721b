/** Which declared trigger condition, if any, holds now. */
module Triggers {
  import opened Profile
  import opened EnergyGate
  import opened PendingPods

  /** A pressure check of one node: metrics may be unavailable, which counts as no match. */
  datatype Check = Hot | Cool | Unavailable

  datatype NodeCondition = NodeCondition(isReady: bool, isTrue: bool)

  /** Everything an evaluation reads from the cluster. */
  datatype World = World(
    now: int,
    pods: Option<seq<Pod>>,
    cpu: string -> Check,
    memory: string -> Check,
    nodes: string -> Option<seq<NodeCondition>>,
    eaos: Option<seq<Eao>>)

  datatype Verdict = EvaluationFailed | NoMatch | Matched(condition: string, bypass: Action)

  predicate NotReady(node: Option<seq<NodeCondition>>) {
    node.Some? && exists c :: c in node.value && c.isReady && !c.isTrue
  }

  predicate SomeNode(pods: seq<Pod>, bad: string -> bool) {
    exists p :: p in pods && p.node != "" && bad(p.node)
  }

  datatype EnergySignal = Quiet | Problem | WindowReached

  function EnergySignalOf(app: ApplicationRef, w: World, pods: seq<Pod>): EnergySignal {
    var eao := FindEaoForApp(w.eaos, app);
    if eao.None? then Quiet
    else if eao.value.sufficient == Some(false) then Problem
    else if eao.value.action == "Delayed" || eao.value.action == "Waiting" then Problem
    else if (eao.value.action == "DeployImmediately" || eao.value.action == "Scheduled")
            && exists p :: p in pods && Ripe(p, w.now) then WindowReached
    else Quiet
  }

  predicate Holds(condition: string, app: ApplicationRef, w: World, pods: seq<Pod>) {
    if condition == "EnergyThreshold" then !EnergySignalOf(app, w, pods).Quiet?
    else if condition == "CPUThreshold" then SomeNode(pods, n => w.cpu(n).Hot?)
    else if condition == "MemoryThreshold" then SomeNode(pods, n => w.memory(n).Hot?)
    else if condition == "NodeFailure" then SomeNode(pods, n => NotReady(w.nodes(n)))
    else condition == "Scheduled"
  }

  /** The first declared condition that holds; only the energy window asks for the bypass. */
  function FirstHolding(conditions: seq<string>, app: ApplicationRef, w: World, pods: seq<Pod>): Verdict {
    if conditions == [] then NoMatch
    else if !Holds(conditions[0], app, w, pods) then FirstHolding(conditions[1..], app, w, pods)
    else Matched(conditions[0],
                 if conditions[0] == "EnergyThreshold" && EnergySignalOf(app, w, pods).WindowReached?
                 then Retry else NoAction)
  }

  function VerdictOf(conditions: seq<string>, app: ApplicationRef, w: World): Verdict {
    if w.pods.None? then EvaluationFailed else FirstHolding(conditions, app, w, w.pods.value)
  }

  ghost predicate IsFirst(conditions: seq<string>, app: ApplicationRef, w: World, pods: seq<Pod>, i: nat) {
    && i < |conditions|
    && Holds(conditions[i], app, w, pods)
    && forall j :: 0 <= j < i ==> !Holds(conditions[j], app, w, pods)
  }

  lemma {:induction false} FirstHoldingIsFirst(conditions: seq<string>, app: ApplicationRef, w: World, pods: seq<Pod>)
    ensures var v := FirstHolding(conditions, app, w, pods);
            && (v.NoMatch? <==> forall c :: c in conditions ==> !Holds(c, app, w, pods))
            && (v.Matched? ==> exists i: nat :: IsFirst(conditions, app, w, pods, i) && conditions[i] == v.condition)
  {
    if conditions != [] {
      FirstHoldingIsFirst(conditions[1..], app, w, pods);
      var v := FirstHolding(conditions[1..], app, w, pods);
      assert forall c :: c in conditions <==> c == conditions[0] || c in conditions[1..];
      if !Holds(conditions[0], app, w, pods) && v.Matched? {
        var i: nat :| IsFirst(conditions[1..], app, w, pods, i) && conditions[1..][i] == v.condition;
        assert forall j :: 0 < j <= i + 1 ==> conditions[j] == conditions[1..][j - 1];
        assert IsFirst(conditions, app, w, pods, i + 1);
      }
    }
  }

  /** The condition asks for the bypass: an energy window reached with a pod to retry, and the
      energy not reported insufficient. */
  predicate AtEnergyWindow(conditions: seq<string>, app: ApplicationRef, w: World, pods: seq<Pod>, i: nat)
    requires i < |conditions|
  {
    conditions[i] == "EnergyThreshold" && EnergySignalOf(app, w, pods).WindowReached?
  }

  /** The first condition that holds alone gives the verdict. */
  lemma {:induction false} VerdictAtFirst(conditions: seq<string>, app: ApplicationRef, w: World, pods: seq<Pod>, i: nat)
    requires IsFirst(conditions, app, w, pods, i)
    ensures FirstHolding(conditions, app, w, pods)
            == Matched(conditions[i], if AtEnergyWindow(conditions, app, w, pods, i) then Retry else NoAction)
  {
    if i > 0 {
      var rest := conditions[1..];
      assert forall j :: 0 <= j < |rest| ==> rest[j] == conditions[j + 1];
      assert IsFirst(rest, app, w, pods, i - 1);
      VerdictAtFirst(rest, app, w, pods, i - 1);
    }
  }

  /** A bypass is never asked for but by the energy condition, with the window reached, and a
      pod the retry can delete. */
  lemma {:induction false} BypassOnlyFromEnergy(conditions: seq<string>, app: ApplicationRef, w: World, pods: seq<Pod>)
    requires FirstHolding(conditions, app, w, pods).Matched?
    ensures var v := FirstHolding(conditions, app, w, pods);
            v.bypass != NoAction ==> && v == Matched("EnergyThreshold", Retry)
                                     && exists p :: p in pods && Ripe(p, w.now)
  {
    if !Holds(conditions[0], app, w, pods) {
      BypassOnlyFromEnergy(conditions[1..], app, w, pods);
    }
  }

  predicate OldPending(pods: seq<Pod>, now: int) {
    exists p :: p in pods && p.phase == Pending && p.node == "" && now - p.created >= 10
  }

  /** The energy is not insufficient, its window is reached and an old pod waits unscheduled. */
  predicate OpensWindow(e: Eao, pods: seq<Pod>, now: int) {
    e.sufficient != Some(false) && e.action in {"DeployImmediately", "Scheduled"} && OldPending(pods, now)
  }

  predicate CallsForRebalance(e: Eao, pods: seq<Pod>, now: int) {
    e.sufficient == Some(false) || e.action in {"Delayed", "Waiting"} || OpensWindow(e, pods, now)
  }

  /** The energy condition, by the fields of the first resource for the application; only an open
      window asks for the bypass. */
  lemma EnergyConditionIff(app: ApplicationRef, w: World, pods: seq<Pod>)
    ensures Holds("EnergyThreshold", app, w, pods) <==>
              w.eaos.Some? && exists i: nat :: FirstNaming(w.eaos.value, app, i) && CallsForRebalance(w.eaos.value[i], pods, w.now)
    ensures EnergySignalOf(app, w, pods).WindowReached? <==>
              w.eaos.Some? && exists i: nat :: FirstNaming(w.eaos.value, app, i) && OpensWindow(w.eaos.value[i], pods, w.now)
  {
    if w.eaos.Some? { FindsFirstNaming(w.eaos.value, app); }
    assert (exists p :: p in pods && Ripe(p, w.now)) <==> OldPending(pods, w.now);
    hide FirstNaming, FindEaoForApp;
  }

  /** The other conditions, by the answers of the nodes that the pods are on. */
  lemma OtherConditionsIff(condition: string, app: ApplicationRef, w: World, pods: seq<Pod>)
    requires condition != "EnergyThreshold"
    ensures Holds(condition, app, w, pods) <==>
              if condition == "CPUThreshold" then exists p :: p in pods && p.node != "" && w.cpu(p.node) == Hot
              else if condition == "MemoryThreshold" then exists p :: p in pods && p.node != "" && w.memory(p.node) == Hot
              else if condition == "NodeFailure" then exists p :: p in pods && p.node != "" && SomeReadyIsFalse(w.nodes(p.node))
              else condition == "Scheduled"
  {
  }

  predicate SomeReadyIsFalse(node: Option<seq<NodeCondition>>) {
    node != None && exists c :: c in node.value && c.isReady && !c.isTrue
  }

  ghost predicate Distinct(s: seq<string>) {
    forall i, j :: 0 <= i < j < |s| ==> s[i] != s[j]
  }

  /** Checks each distinct node the pods are on, until one is hot. */
  method EvaluateNodeResource(pods: seq<Pod>, check: string -> Check) returns (matched: bool, ghost consulted: seq<string>)
    ensures matched <==> SomeNode(pods, n => check(n).Hot?)
    ensures matched <==> exists p :: p in pods && p.node != "" && check(p.node) == Hot
    ensures Distinct(consulted) && forall n :: n in consulted ==> n != "" && exists p :: p in pods && p.node == n
  {
    var seen, i := {}, 0;
    consulted := [];
    while i < |pods|
      invariant 0 <= i <= |pods|
      invariant Distinct(consulted) && (forall n :: n in consulted <==> n in seen)
      invariant forall n :: n in seen ==> n != "" && !check(n).Hot? && exists p :: p in pods && p.node == n
      invariant forall j :: 0 <= j < i && pods[j].node != "" ==> pods[j].node in seen
    {
      var node := pods[i].node;
      if node != "" && node !in seen {
        seen := seen + {node};
        consulted := consulted + [node];
        if check(node) == Hot {
          assert pods[i] in pods;
          return true, consulted;
        }
      }
      i := i + 1;
    }
    return false, consulted;
  }

  method HasReadyFalse(conditions: seq<NodeCondition>) returns (r: bool)
    ensures r <==> exists c :: c in conditions && c.isReady && !c.isTrue
  {
    var i := 0;
    while i < |conditions|
      invariant 0 <= i <= |conditions|
      invariant forall j :: 0 <= j < i ==> !(conditions[j].isReady && !conditions[j].isTrue)
    {
      if conditions[i].isReady && !conditions[i].isTrue { return true; }
      i := i + 1;
    }
    return false;
  }

  method EvaluateNodeFailure(pods: seq<Pod>, nodes: string -> Option<seq<NodeCondition>>)
    returns (matched: bool, ghost consulted: seq<string>)
    ensures matched <==> SomeNode(pods, n => NotReady(nodes(n)))
    ensures matched <==> exists p :: p in pods && p.node != "" && SomeReadyIsFalse(nodes(p.node))
    ensures Distinct(consulted) && forall n :: n in consulted ==> n != "" && exists p :: p in pods && p.node == n
  {
    var seen, i := {}, 0;
    consulted := [];
    while i < |pods|
      invariant 0 <= i <= |pods|
      invariant Distinct(consulted) && (forall n :: n in consulted <==> n in seen)
      invariant forall n :: n in seen ==> n != "" && !NotReady(nodes(n)) && exists p :: p in pods && p.node == n
      invariant forall j :: 0 <= j < i && pods[j].node != "" ==> pods[j].node in seen
    {
      var node := pods[i].node;
      if node != "" && node !in seen {
        seen := seen + {node};
        consulted := consulted + [node];
        var fetched := nodes(node);
        if fetched.Some? {
          var bad := HasReadyFalse(fetched.value);
          if bad {
            assert pods[i] in pods;
            return true, consulted;
          }
        }
      }
      i := i + 1;
    }
    return false, consulted;
  }

  method EvaluateEnergyThreshold(app: ApplicationRef, w: World, pods: seq<Pod>) returns (matched: bool, bypass: Action)
    ensures matched <==> !EnergySignalOf(app, w, pods).Quiet?
    ensures bypass == if EnergySignalOf(app, w, pods).WindowReached? then Retry else NoAction
  {
    var eao := FindEaoForApp(w.eaos, app);
    if eao.None? { return false, NoAction; }
    if eao.value.sufficient == Some(false) { return true, NoAction; }
    var action := eao.value.action;
    if action == "Delayed" || action == "Waiting" { return true, NoAction; }
    if action == "DeployImmediately" || action == "Scheduled" {
      var pending := HasPendingPod(pods, w.now);
      if pending { return true, Retry; }
    }
    return false, NoAction;
  }

  method Evaluate(conditions: seq<string>, app: ApplicationRef, w: World) returns (v: Verdict)
    ensures v == VerdictOf(conditions, app, w)
  {
    if w.pods.None? { return EvaluationFailed; }
    var pods, i := w.pods.value, 0;
    while i < |conditions|
      invariant 0 <= i <= |conditions|
      invariant FirstHolding(conditions, app, w, pods) == FirstHolding(conditions[i..], app, w, pods)
    {
      var cond, ok, bypass := conditions[i], false, NoAction;
      ghost var consulted;
      if cond == "EnergyThreshold" {
        ok, bypass := EvaluateEnergyThreshold(app, w, pods);
      } else if cond == "CPUThreshold" {
        ok, consulted := EvaluateNodeResource(pods, w.cpu);
      } else if cond == "MemoryThreshold" {
        ok, consulted := EvaluateNodeResource(pods, w.memory);
      } else if cond == "NodeFailure" {
        ok, consulted := EvaluateNodeFailure(pods, w.nodes);
      } else if cond == "Scheduled" {
        ok := true;
      }
      assert ok <==> Holds(cond, app, w, pods);
      if ok { return Matched(cond, bypass); }
      assert conditions[i..][1..] == conditions[i + 1..];
      i := i + 1;
    }
    return NoMatch;
  }
}
