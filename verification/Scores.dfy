/**
 The scores a scheduler gets for a pod: the placement server's answer, from the decision
 store before the agent, and the two adapters it goes through, the extender's 0 to 10
 priorities and the scheduler plugin's clamped 0 to 100.
 */
module Scores {
  import opened Profile
  import opened DecisionStore

  const NEUTRAL := 50.0
  const MIN_NODE_SCORE := 0
  const MAX_NODE_SCORE := 100

  datatype NodeScore = NodeScore(node: string, score: real)
  datatype HostPriority = HostPriority(host: string, score: int)

  function NormalizeScore(score: real): int {
    if score <= 0.0 then 0 else if score >= 100.0 then 10 else (score / 10.0).Floor
  }

  /** The conversion to an integer drops the fraction, toward zero. */
  function Truncated(score: real): int {
    if score >= 0.0 then score.Floor else -(-score).Floor
  }

  function Clamped(score: real): int {
    var s := if Truncated(score) < MAX_NODE_SCORE then Truncated(score) else MAX_NODE_SCORE;
    if s > MIN_NODE_SCORE then s else MIN_NODE_SCORE
  }

  /** The score an answer gives a node: the last one naming it. */
  function LastScore(scores: seq<NodeScore>, node: string): (r: Option<real>)
    ensures r.None? <==> forall s :: s in scores ==> s.node != node
  {
    if scores == [] then None
    else if scores[|scores| - 1].node == node then Some(scores[|scores| - 1].score)
    else LastScore(scores[..|scores| - 1], node)
  }

  /** Of several scores for one node the last one counts, and only for that node. */
  lemma LastDuplicateWins(scores: seq<NodeScore>, s: NodeScore, node: string)
    ensures LastScore(scores + [s], node) == if node == s.node then Some(s.score) else LastScore(scores, node)
  {
    assert (scores + [s])[..|scores|] == scores;
  }

  function OrElse(score: Option<real>, default: real): real {
    if score.Some? then score.value else default
  }

  function HostPriorities(scores: seq<NodeScore>, nodes: seq<string>): (r: seq<HostPriority>)
    ensures |r| == |nodes|
    ensures forall i :: 0 <= i < |r| ==> r[i].host == nodes[i]
  {
    seq(|nodes|, i requires 0 <= i < |nodes| => HostPriority(nodes[i], NormalizeScore(OrElse(LastScore(scores, nodes[i]), NEUTRAL))))
  }

  function PluginScore(scores: seq<NodeScore>, node: string): int {
    var s := LastScore(scores, node);
    if s.Some? then Clamped(s.value) else 0
  }

  method NodeScoresToHostPriorities(scores: seq<NodeScore>, nodes: seq<string>) returns (priorities: array<HostPriority>)
    ensures fresh(priorities) && priorities[..] == HostPriorities(scores, nodes)
  {
    hide LastScore, NormalizeScore;
    var scoreMap, k := map[], 0;
    assert forall n :: LastScore([], n) == None;
    while k < |scores|
      invariant 0 <= k <= |scores|
      invariant forall n :: LastScore(scores[..k], n) == if n in scoreMap then Some(scoreMap[n]) else None
    {
      assert scores[..k + 1] == scores[..k] + [scores[k]];
      forall n ensures LastScore(scores[..k] + [scores[k]], n)
                       == if n == scores[k].node then Some(scores[k].score) else LastScore(scores[..k], n)
      {
        LastDuplicateWins(scores[..k], scores[k], n);
      }
      scoreMap := scoreMap[scores[k].node := scores[k].score];
      k := k + 1;
    }
    assert scores[..|scores|] == scores;
    priorities := new HostPriority[|nodes|](_ => HostPriority("", 0));
    var i := 0;
    while i < |nodes|
      invariant 0 <= i <= |nodes|
      invariant forall j :: 0 <= j < i ==> priorities[j] == HostPriorities(scores, nodes)[j]
    {
      var score := NEUTRAL;
      if nodes[i] in scoreMap { score := scoreMap[nodes[i]]; }
      priorities[i] := HostPriority(nodes[i], NormalizeScore(score));
      i := i + 1;
    }
  }

  method EqualPriorities(nodes: seq<string>) returns (priorities: array<HostPriority>)
    ensures fresh(priorities) && priorities[..] == HostPriorities([], nodes)
  {
    priorities := new HostPriority[|nodes|](_ => HostPriority("", 0));
    var i := 0;
    while i < |nodes|
      invariant 0 <= i <= |nodes|
      invariant forall j :: 0 <= j < i ==> priorities[j] == HostPriority(nodes[j], 5)
    {
      priorities[i] := HostPriority(nodes[i], 5);
      i := i + 1;
    }
  }

  /** Both adapters stay in range, keep the order of scores, and lose less than one step. */
  lemma AdaptersAreMonotone(low: real, high: real)
    requires low <= high
    ensures 0 <= NormalizeScore(low) <= NormalizeScore(high) <= 10
    ensures 0 <= Clamped(low) <= Clamped(high) <= 100
    ensures 0.0 <= low <= 100.0 ==> (10 * NormalizeScore(low)) as real <= low < (10 * NormalizeScore(low) + 10) as real || low == 100.0
    ensures 0.0 <= low <= 100.0 ==> Clamped(low) as real <= low < (Clamped(low) + 1) as real
  {
    if 0.0 < low && high < 100.0 {
      assert low / 10.0 <= high / 10.0;
    }
  }

  /** In a list of priorities: a node the answer ranks no lower gets no lower priority, a node
      the answer leaves out gets the middle one, and without an answer all get it. */
  lemma PrioritiesFollowScores(scores: seq<NodeScore>, nodes: seq<string>, i: nat, j: nat)
    requires i < |nodes| && j < |nodes|
    ensures var r := HostPriorities(scores, nodes);
            && 0 <= r[i].score <= 10
            && (forall s :: LastScore(scores, nodes[i]) == Some(s) && 0.0 <= s < 100.0 ==>
                  (10 * r[i].score) as real <= s < (10 * r[i].score + 10) as real)
            && (forall s :: LastScore(scores, nodes[i]) == Some(s) && s >= 100.0 ==> r[i].score == 10)
            && (LastScore(scores, nodes[i]).None? ==> r[i].score == 5)
            && (OrElse(LastScore(scores, nodes[i]), NEUTRAL) <= OrElse(LastScore(scores, nodes[j]), NEUTRAL) ==> r[i].score <= r[j].score)
    ensures HostPriorities([], nodes)[i].score == 5
  {
    var a, b := OrElse(LastScore(scores, nodes[i]), NEUTRAL), OrElse(LastScore(scores, nodes[j]), NEUTRAL);
    AdaptersAreMonotone(a, a);
    if a <= b { AdaptersAreMonotone(a, b); }
  }

  // ----- the scheduler plugin -----

  /** One scheduling cycle of the plugin: PreScore fills the map, Score reads it. `answered` is
      what the placement server said, if PreScore has run and could ask it. */
  class ScoringCycle {
    var scores: map<string, int>
    ghost var answered: Option<seq<NodeScore>>

    ghost predicate Valid()
      reads this
    {
      forall n :: (if n in scores then scores[n] else 0) == if answered.Some? then PluginScore(answered.value, n) else 0
    }

    constructor ()
      ensures Valid() && answered == None
    {
      scores := map[];
      answered := None;
    }

    /** `answer` is None when the placement server could not be asked. */
    method PreScore(answer: Option<seq<NodeScore>>)
      modifies this
      ensures Valid() && answered == answer
    {
      answered := answer;
      if answer.None? {
        scores := map[];
        return;
      }
      var given, filled, k := answer.value, map[], 0;
      while k < |given|
        invariant 0 <= k <= |given|
        invariant forall n :: n in filled <==> LastScore(given[..k], n).Some?
        invariant forall n :: n in filled ==> filled[n] == Clamped(LastScore(given[..k], n).value)
      {
        assert given[..k + 1][..k] == given[..k];
        filled := filled[given[k].node := Clamped(given[k].score)];
        k := k + 1;
      }
      assert given[..|given|] == given;
      scores := filled;
    }

    /** The clamped last score the server gave the node, 0 where it gave none. */
    method Score(node: string) returns (r: int)
      requires Valid()
      ensures r == if answered.Some? then PluginScore(answered.value, node) else 0
    {
      return if node in scores then scores[node] else 0;
    }
  }

  // ----- the placement server -----

  /** What a looked-up entry says about the candidates; None is no opinion. */
  function StoreResponse(hit: Option<Entry>, candidates: seq<string>): Option<seq<NodeScore>> {
    if hit.None? || !hit.value.hint.action.Move? || hit.value.hint.targetNode == "" || hit.value.hint.targetNode !in candidates
    then None
    else Some(seq(|candidates|, i requires 0 <= i < |candidates| =>
                NodeScore(candidates[i], if candidates[i] == hit.value.hint.targetNode then 100.0 else 0.0)))
  }

  /** The store has an opinion if and only if a live entry moves a pod to one of the candidates. */
  lemma OpinionIff(hit: Option<Entry>, candidates: seq<string>)
    ensures StoreResponse(hit, candidates) != None <==>
              hit != None && hit.value.hint.action == Move && hit.value.hint.targetNode != "" && hit.value.hint.targetNode in candidates
    ensures StoreResponse(hit, candidates) != None ==>
              var scores := StoreResponse(hit, candidates).value;
              |scores| == |candidates| && forall i :: 0 <= i < |scores| ==> scores[i].node == candidates[i]
  {
  }

  /** `key` is None when no profile governs the pod. A lookup consumes the entry even when it
      is then not used. */
  method DecisionStoreResponse(store: DecisionStore, key: Option<string>, candidates: seq<string>, now: int)
    returns (resp: Option<seq<NodeScore>>)
    requires store.Valid()
    modifies store
    ensures store.Valid()
    ensures key.None? ==> resp.None? && store.ops == old(store.ops) && store.entries == old(store.entries)
    ensures key.Some? ==>
              && resp == StoreResponse(Answer(old(store.ops), store.ttl, key.value, now), candidates)
              && store.ops == old(store.ops) + [Lookup(key.value, now)]
              && store.entries == old(store.entries) - {key.value}
  {
    if key.None? { return None; }
    var entry := store.Lookup(key.value, now);
    if entry.None? || entry.value.hint.action != Move || entry.value.hint.targetNode == "" { return None; }
    var target := entry.value.hint.targetNode;
    var nodeScores, found, i := [], false, 0;
    while i < |candidates|
      invariant 0 <= i <= |candidates| && |nodeScores| == i
      invariant found <==> target in candidates[..i]
      invariant forall j :: 0 <= j < i ==> nodeScores[j] == NodeScore(candidates[j], if candidates[j] == target then 100.0 else 0.0)
    {
      var score := 0.0;
      if candidates[i] == target {
        score := 100.0;
        found := true;
      }
      nodeScores := nodeScores + [NodeScore(candidates[i], score)];
      i := i + 1;
    }
    assert candidates[..i] == candidates;
    if !found { return None; }
    assert nodeScores == StoreResponse(entry, candidates).value;
    return Some(nodeScores);
  }

  /** The store is asked first; the agent only when the store has no opinion. */
  method Score(store: DecisionStore, key: Option<string>, candidates: seq<string>, now: int, agent: Option<seq<NodeScore>>)
    returns (answer: Option<seq<NodeScore>>, asked: bool)
    requires store.Valid()
    modifies store
    ensures store.Valid()
    ensures var hint := if key.Some? then StoreResponse(Answer(old(store.ops), store.ttl, key.value, now), candidates) else None;
            asked == hint.None? && answer == if hint.Some? then hint else agent
    ensures store.ops == old(store.ops) + if key.Some? then [Lookup(key.value, now)] else []
  {
    var hint := DecisionStoreResponse(store, key, candidates, now);
    if hint.Some? { return hint, false; }
    return agent, true;
  }

  // ----- what the scheduler may do with it -----

  datatype Form = Extender | Plugin

  /** The rank a node gets in either form; with no answer all nodes get the same. */
  function Rank(form: Form, answer: Option<seq<NodeScore>>, node: string): int {
    match form
    case Extender => if answer.Some? then NormalizeScore(OrElse(LastScore(answer.value, node), NEUTRAL)) else 5
    case Plugin => if answer.Some? then PluginScore(answer.value, node) else 0
  }

  function Tops(form: Form, answer: Option<seq<NodeScore>>, candidates: seq<string>): set<string> {
    set i | 0 <= i < |candidates| && (forall n :: n in candidates ==> Rank(form, answer, n) <= Rank(form, answer, candidates[i]))
      :: candidates[i]
  }

  lemma {:induction false} LastOfEqual(scores: seq<NodeScore>, node: string, score: real)
    requires exists s :: s in scores && s.node == node
    requires forall s :: s in scores && s.node == node ==> s.score == score
    ensures LastScore(scores, node) == Some(score)
  {
    if scores[|scores| - 1].node != node {
      var s :| s in scores && s.node == node;
      assert s in scores[..|scores| - 1];
      LastOfEqual(scores[..|scores| - 1], node, score);
    }
  }

  /** A store hit gives the target the greatest score there is and everyone else the least, in
      both forms: the target is the only top there is. */
  lemma StoreHitSinglesOutTarget(form: Form, hit: Entry, candidates: seq<string>)
    requires StoreResponse(Some(hit), candidates).Some?
    ensures var answer, target := StoreResponse(Some(hit), candidates), hit.hint.targetNode;
            && target in candidates
            && (forall n :: n in candidates ==>
                  Rank(form, answer, n) == if n != target then 0 else if form.Extender? then 10 else 100)
            && Tops(form, answer, candidates) == {target}
  {
    var answer, target := StoreResponse(Some(hit), candidates), hit.hint.targetNode;
    var scores := answer.value;
    forall n | n in candidates
      ensures LastScore(scores, n) == Some(if n == target then 100.0 else 0.0)
    {
      var i :| 0 <= i < |candidates| && candidates[i] == n;
      assert scores[i] in scores;
      LastOfEqual(scores, n, if n == target then 100.0 else 0.0);
    }
    hide StoreResponse, LastScore;
    var i :| 0 <= i < |candidates| && candidates[i] == target;
    assert forall n :: n in Tops(form, answer, candidates) ==> n == target;
    assert candidates[i] in Tops(form, answer, candidates);
  }

  /** With distinct candidate names exactly one place in the list is on top. */
  lemma OnePlaceOnTop(form: Form, hit: Entry, candidates: seq<string>)
    requires StoreResponse(Some(hit), candidates).Some?
    requires forall i, j :: 0 <= i < j < |candidates| ==> candidates[i] != candidates[j]
    ensures var answer := StoreResponse(Some(hit), candidates);
            exists i :: 0 <= i < |candidates| && candidates[i] == hit.hint.targetNode
                        && forall j :: 0 <= j < |candidates| && j != i ==>
                             Rank(form, answer, candidates[j]) < Rank(form, answer, candidates[i])
  {
    StoreHitSinglesOutTarget(form, hit, candidates);
    hide StoreResponse, Rank, Tops;
    var i :| 0 <= i < |candidates| && candidates[i] == hit.hint.targetNode;
  }
}
