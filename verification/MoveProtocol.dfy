/**
 A Move from the put of its hint to the replacement's landing: the enactor, the decision
 store, the placement server, the scheduler, the owner of the pods and the clock, as
 interleaved steps, for one workload and any number of moves one after another.

 The scheduler is taken to bind a pod to a top of its last scoring; of everything else that
 happens to pods nothing is assumed.
 */
module MoveProtocol {
  import opened Profile
  import opened Effects
  import opened EnergyGate
  import opened DecisionStore
  import opened Moves
  import opened Scores

  datatype Pc = Idle | Ready | Listed | Hinted | Waiting | Over(result: EnactorResult)

  /** One scoring of a pod; `hinted` when the move's hint had been put and not taken back,
      `steered` when the answer came from the store. */
  datatype Scoring = Scoring(pod: string, at: int, candidates: seq<string>, hinted: bool, steered: bool, tops: set<string>)

  /** `run` is what the enactor has seen so far, `since` the scorings since it listed the pods. */
  datatype Protocol = Protocol(
    spec: Spec,
    key: string,
    ttl: int,
    now: int,
    ops: seq<Op>,
    pods: map<string, Pod>,
    ranked: map<string, set<string>>,
    pc: Pc,
    hint: Hint,
    run: MoveRun,
    since: seq<Scoring>)
  {
    function Before(): set<string> { if run.before.Some? then Names(run.before.value) else {} }

    predicate HintOut() { pc.Hinted? || pc.Waiting? }
  }

  datatype Event =
    | Pass(seconds: nat)
    | Start(hint: Hint)
    | ListBefore(listed: Option<seq<Pod>>)
    | PutHint
    | Evict(reply: EvictReply)
    | PollPods(listed: Option<seq<Pod>>)
    | Stop(eaos: Option<seq<Eao>>)
    | Create(name: string)
    | Score(name: string, form: Form, candidates: seq<string>, agent: Option<seq<NodeScore>>)
    | Bind(name: string, node: string)
    | Vanish(name: string)

  /** A list call that succeeds returns the pods as they are, in some order. */
  predicate Lists(pods: map<string, Pod>, listed: Option<seq<Pod>>) {
    listed.Some? ==>
      && (forall p :: p in listed.value ==> p.name in pods && pods[p.name] == p)
      && (forall n :: n in pods ==> pods[n] in listed.value)
  }

  predicate Unbound(s: Protocol, name: string) { name in s.pods && s.pods[name].node == "" }

  predicate Enabled(s: Protocol, e: Event) {
    match e
    case Pass(_) => true
    case Start(hint) => (s.pc.Idle? || s.pc.Over?) && hint.action.Move? && hint.targetNode != ""
    case ListBefore(listed) => s.pc.Ready? && Lists(s.pods, listed)
    case PutHint => s.pc.Listed?
    case Evict(_) => s.pc.Hinted?
    case PollPods(listed) => s.pc.Waiting? && Observed(s.run.polls, s.Before()).None? && Lists(s.pods, listed)
    case Stop(_) => s.pc.Waiting?
    case Create(name) => name !in s.pods
    case Score(name, _, _, _) => Unbound(s, name)
    case Bind(name, node) => Unbound(s, name) && node != "" && name in s.ranked && node in s.ranked[name]
    case Vanish(name) => name in s.pods
  }

  /** The placement server's answer: the store before the agent. */
  function AnswerTo(s: Protocol, candidates: seq<string>, agent: Option<seq<NodeScore>>): Option<seq<NodeScore>> {
    var stored := StoreResponse(Answer(s.ops, s.ttl, s.key, s.now), candidates);
    if stored.Some? then stored else agent
  }

  function ScoringOf(s: Protocol, name: string, form: Form, candidates: seq<string>, agent: Option<seq<NodeScore>>): Scoring {
    Scoring(name, s.now, candidates, s.HintOut(),
            StoreResponse(Answer(s.ops, s.ttl, s.key, s.now), candidates).Some?,
            Tops(form, AnswerTo(s, candidates, agent), candidates))
  }

  function Finish(s: Protocol, run: MoveRun): Protocol {
    s.(run := run, ops := s.ops + [Delete(s.key)],
       pc := Over(MoveAnswer(s.spec, run, s.hint.podName, s.hint.targetNode)))
  }

  function Next(s: Protocol, e: Event): Protocol
    requires Enabled(s, e)
  {
    match e
    case Pass(seconds) => s.(now := s.now + seconds)
    case Start(hint) => s.(hint := hint, run := MoveRun(None, 0, EvictFailed, [], None), since := [], pc := Ready)
    case ListBefore(listed) =>
      var run := s.run.(before := listed);
      s.(run := run, since := [],
         pc := if Starts(run, s.hint.podName) then Listed else Over(MoveAnswer(s.spec, run, s.hint.podName, s.hint.targetNode)))
    case PutHint =>
      s.(ops := s.ops + [Put(s.key, s.hint, s.now)], run := s.run.(putAt := s.now), pc := Hinted)
    case Evict(reply) =>
      var run := s.run.(eviction := reply);
      if reply.Evicted? then s.(run := run, pc := Waiting) else Finish(s, run)
    case PollPods(listed) => s.(run := s.run.(polls := s.run.polls + [Poll([], listed)]))
    case Stop(eaos) => Finish(s, s.run.(eaos := eaos))
    case Create(name) => s.(pods := s.pods[name := Pod(name, Pending, "", s.now, false)])
    case Score(name, form, candidates, agent) =>
      var scoring := ScoringOf(s, name, form, candidates, agent);
      s.(ops := s.ops + [Lookup(s.key, s.now)], ranked := s.ranked[name := scoring.tops], since := s.since + [scoring])
    case Bind(name, node) => s.(pods := s.pods[name := s.pods[name].(node := node)])
    case Vanish(name) => s.(pods := s.pods - {name}, ranked := s.ranked - {name})
  }

  ghost predicate Init(s: Protocol) {
    && s.ttl > 0 && s.ops == [] && s.pc.Idle? && s.ranked == map[] && s.since == []
    && s.run == MoveRun(None, 0, EvictFailed, [], None)
    && forall n :: n in s.pods ==> s.pods[n].name == n
  }

  ghost predicate Run(trace: seq<Protocol>, events: seq<Event>) {
    && |trace| == |events| + 1
    && Init(trace[0])
    && forall i :: 0 <= i < |events| ==> Enabled(trace[i], events[i]) && trace[i + 1] == Next(trace[i], events[i])
  }

  // ----- what holds in every reachable state -----

  /** The hint waits in the store from its put until the first scoring or the cleanup. */
  ghost predicate HintRight(s: Protocol) {
    && (s.pc.Ready? || s.pc.Listed? || s.HintOut() ==> s.hint.action.Move? && s.hint.targetNode != "")
    && PendingPut(s.ops, s.key)
       == (if s.HintOut() && NoneHinted(s.since) then Some(Put(s.key, s.hint, s.run.putAt)) else None)
  }

  predicate NoneHinted(since: seq<Scoring>) {
    forall j :: 0 <= j < |since| ==> !since[j].hinted
  }

  ghost predicate EnactorRight(s: Protocol) {
    && (s.pc.Idle? || s.pc.Ready? ==> s.run.before.None? && s.run.polls == [])
    && (s.pc.Listed? || s.HintOut() ==> Starts(s.run, s.hint.podName))
    && (s.pc.Listed? || s.pc.Hinted? ==> s.run.polls == [])
    && (s.pc.Listed? ==> NoneHinted(s.since))
    && (s.pc.Waiting? ==> s.run.eviction.Evicted?)
    && (s.pc.Over? ==> s.pc.result == MoveAnswer(s.spec, s.run, s.hint.podName, s.hint.targetNode))
  }

  /** The scoring finds the hint out and alive, and the target among its candidates. */
  predicate InTime(s: Protocol, scoring: Scoring) {
    scoring.hinted && scoring.at <= s.run.putAt + s.ttl && s.hint.targetNode in scoring.candidates
  }

  /** Exactly the first scoring with the hint out is steered, if it finds the hint alive and the
      target among its candidates; it leaves the scheduler no other node. */
  ghost predicate ScoringsRight(s: Protocol) {
    forall j :: 0 <= j < |s.since| ==>
      && (s.since[j].steered <==> NoneHinted(s.since[..j]) && InTime(s, s.since[j]))
      && (s.since[j].steered ==> s.since[j].tops <= {s.hint.targetNode})
  }

  ghost predicate Scored(since: seq<Scoring>, name: string, tops: set<string>) {
    exists j :: 0 <= j < |since| && since[j].pod == name && since[j].tops == tops
  }

  ghost predicate Placed(since: seq<Scoring>, p: Pod) {
    exists j :: 0 <= j < |since| && since[j].pod == p.name && p.node in since[j].tops
  }

  /** Every pod that came after the listing got where it is through a scoring since. */
  ghost predicate PodsRight(s: Protocol) {
    && (forall n :: n in s.pods ==> s.pods[n].name == n)
    && (forall n :: n in s.ranked ==> n in s.pods)
    && (s.run.before.Some? ==>
          && (forall n :: n in s.ranked && n !in s.Before() ==> Scored(s.since, n, s.ranked[n]))
          && (forall n :: n in s.pods && n !in s.Before() && s.pods[n].node != "" ==> Placed(s.since, s.pods[n]))
          && (Observed(s.run.polls, s.Before()).Some? ==>
                && Placed(s.since, Observed(s.run.polls, s.Before()).value)))
  }

  ghost predicate Inv(s: Protocol) {
    s.ttl > 0 && HintRight(s) && EnactorRight(s) && ScoringsRight(s) && PodsRight(s)
  }

  lemma SinceGrows(since: seq<Scoring>, x: Scoring)
    ensures NoneHinted(since + [x]) <==> NoneHinted(since) && !x.hinted
    ensures forall n, tops :: Scored(since, n, tops) ==> Scored(since + [x], n, tops)
    ensures forall p :: Placed(since, p) ==> Placed(since + [x], p)
    ensures Scored(since + [x], x.pod, x.tops)
    ensures forall j :: 0 <= j <= |since| ==> (since + [x])[..j] == since[..j]
  {
    var all := since + [x];
    assert all[|since|] == x && forall j :: 0 <= j < |since| ==> all[j] == since[j];
    if NoneHinted(all) {
      assert forall j :: 0 <= j < |since| ==> !all[j].hinted;
    }
  }

  lemma ScoreKeepsScorings(s: Protocol, name: string, form: Form, candidates: seq<string>, agent: Option<seq<NodeScore>>)
    requires Inv(s) && Unbound(s, name)
    ensures HintRight(Next(s, Score(name, form, candidates, agent)))
    ensures ScoringsRight(Next(s, Score(name, form, candidates, agent)))
  {
    hide Tops, PendingPut, NoneHinted, EnactorRight, PodsRight;
    SinceGrows(s.since, ScoringOf(s, name, form, candidates, agent));
    Extend(s.ops, Lookup(s.key, s.now));
    var hit := Answer(s.ops, s.ttl, s.key, s.now);
    if StoreResponse(hit, candidates).Some? {
      StoreHitSinglesOutTarget(form, hit.value, candidates);
    }
    assert s.since[..|s.since|] == s.since;
  }

  lemma ScoreKeepsPods(s: Protocol, name: string, form: Form, candidates: seq<string>, agent: Option<seq<NodeScore>>)
    requires Inv(s) && Unbound(s, name)
    ensures EnactorRight(Next(s, Score(name, form, candidates, agent)))
    ensures PodsRight(Next(s, Score(name, form, candidates, agent)))
  {
    hide HintRight, ScoringsRight, ScoringOf, MoveAnswer, Scored, Placed, NoneHinted, Observed;
    var x := ScoringOf(s, name, form, candidates, agent);
    ScoredNow(s, name, form, candidates, agent);
    SinceGrows(s.since, x);
  }

  lemma ScoredNow(s: Protocol, name: string, form: Form, candidates: seq<string>, agent: Option<seq<NodeScore>>)
    ensures ScoringOf(s, name, form, candidates, agent).pod == name
    ensures ScoringOf(s, name, form, candidates, agent).hinted == s.HintOut()
  {
  }

  lemma {:induction false} ObservedExtends(polls: seq<Poll>, poll: Poll, before: set<string>)
    requires Observed(polls, before).None?
    ensures Observed(polls + [poll], before)
            == if poll.pods.Some? then FirstReplacement(poll.pods.value, before) else None
  {
    if polls != [] {
      assert (polls + [poll])[1..] == polls[1..] + [poll];
      ObservedExtends(polls[1..], poll, before);
    }
  }

  lemma PollKeeps(s: Protocol, listed: Option<seq<Pod>>)
    requires Inv(s) && Enabled(s, PollPods(listed))
    ensures Inv(Next(s, PollPods(listed)))
  {
    hide PendingPut, Observed, FirstReplacement, Scored, NoneHinted;
    ObservedExtends(s.run.polls, Poll([], listed), s.Before());
    if listed.Some? { FirstReplacementIsOne(listed.value, s.Before()); }
  }

  lemma ListKeeps(s: Protocol, listed: Option<seq<Pod>>)
    requires Inv(s) && Enabled(s, ListBefore(listed))
    ensures Inv(Next(s, ListBefore(listed)))
  {
    if listed.Some? {
      forall n | n in s.pods
        ensures n in Names(listed.value)
      {
        var i :| 0 <= i < |listed.value| && listed.value[i] == s.pods[n];
      }
    }
    hide PendingPut, Scored, Placed;
  }

  lemma HintStepsKeepPods(s: Protocol, e: Event)
    requires Inv(s) && Enabled(s, e)
    requires e.Start? || e.PutHint? || e.Evict? || e.Stop?
    ensures PodsRight(Next(s, e))
  {
    hide HintRight, ScoringsRight, MoveAnswer, Scored, Placed;
  }

  lemma HintStepsKeep(s: Protocol, e: Event)
    requires Inv(s) && Enabled(s, e)
    requires e.Start? || e.PutHint? || e.Evict? || e.Stop?
    ensures Inv(Next(s, e))
  {
    hide PendingPut, PodsRight, MoveAnswer, Names, Observed;
    Extend(s.ops, Delete(s.key));
    Extend(s.ops, Put(s.key, s.hint, s.now));
    HintStepsKeepPods(s, e);
  }

  lemma StepsOfPodsKeep(s: Protocol, e: Event)
    requires Inv(s) && Enabled(s, e)
    requires e.Pass? || e.Create? || e.Bind? || e.Vanish?
    ensures Inv(Next(s, e))
  {
    hide PendingPut, MoveAnswer, NoneHinted, Observed;
  }

  lemma {:induction false} EveryRunKeepsInv(trace: seq<Protocol>, events: seq<Event>, n: nat)
    requires Run(trace, events) && n < |trace|
    ensures Inv(trace[n])
  {
    if n > 0 {
      EveryRunKeepsInv(trace, events, n - 1);
      assert Enabled(trace[n - 1], events[n - 1]) && trace[n] == Next(trace[n - 1], events[n - 1]);
      hide Run, Inv, Enabled, Next;
      match events[n - 1]
      case Score(name, form, candidates, agent) =>
        assert Unbound(trace[n - 1], name) by { assert Enabled(trace[n - 1], events[n - 1]); }
        ScoreKeepsScorings(trace[n - 1], name, form, candidates, agent);
        ScoreKeepsPods(trace[n - 1], name, form, candidates, agent);
      case PollPods(listed) => PollKeeps(trace[n - 1], listed);
      case Pass(_) => StepsOfPodsKeep(trace[n - 1], events[n - 1]);
      case Create(_) => StepsOfPodsKeep(trace[n - 1], events[n - 1]);
      case Bind(_, _) => StepsOfPodsKeep(trace[n - 1], events[n - 1]);
      case Vanish(_) => StepsOfPodsKeep(trace[n - 1], events[n - 1]);
      case ListBefore(listed) => ListKeeps(trace[n - 1], listed);
      case _ => HintStepsKeep(trace[n - 1], events[n - 1]);
    }
  }

  // ----- the move's intent -----

  /** Scoring `j` is the first since the listing that finds the hint out, is in time, and is the
      only one of its pod. Before the put and after this one any pod may be scored. */
  ghost predicate FirstToFindHint(s: Protocol, j: nat) {
    && j < |s.since|
    && NoneHinted(s.since[..j]) && InTime(s, s.since[j])
    && forall k :: 0 <= k < |s.since| && k != j ==> s.since[k].pod != s.since[j].pod
  }

  /** The pod was evicted and a new one was then listed with a node. */
  predicate SawReplacement(s: Protocol) {
    && Starts(s.run, s.hint.podName) && s.run.eviction.Evicted?
    && Observed(s.run.polls, s.Before()).Some?
  }

  /** At most one scoring since the listing is steered. */
  lemma OneSteered(s: Protocol, i: nat, j: nat)
    requires ScoringsRight(s) && i < j < |s.since|
    ensures !(s.since[i].steered && s.since[j].steered)
  {
    assert s.since[..j][i] == s.since[i];
  }

  /** Then the pod scored can be bound only to the target: it lands there if it lands at all, and
      a move that sees it first has been enacted. A move that fails all the same saw another new
      pod first, one whose own scoring since the listing was not steered. */
  lemma SteeredPodLandsOnTarget(trace: seq<Protocol>, events: seq<Event>, n: nat, j: nat)
    requires Run(trace, events) && n < |trace| && FirstToFindHint(trace[n], j)
    ensures var s := trace[n];
            var r := s.since[j].pod;
            && s.since[j].steered
            && (r in s.pods && s.run.before.Some? && IsReplacement(s.pods[r], s.Before()) ==> s.pods[r].node == s.hint.targetNode)
            && (s.pc.Over? && SawReplacement(s) ==>
                  || s.pc.result == Reported(Enacted)
                  || (Observed(s.run.polls, s.Before()).value.name != r
                      && exists k :: 0 <= k < |s.since| && k != j && s.since[k].pod == Observed(s.run.polls, s.Before()).value.name
                                     && !s.since[k].steered))
  {
    EveryRunKeepsInv(trace, events, n);
    var s := trace[n];
    hide Run, Observed;
    assert s.since[j].tops <= {s.hint.targetNode};
    assert forall p :: Placed(s.since, p) && p.name == s.since[j].pod ==> p.node == s.hint.targetNode;
    if s.pc.Over? && SawReplacement(s) && s.pc.result != Reported(Enacted) {
      var p := Observed(s.run.polls, s.Before()).value;
      var k :| 0 <= k < |s.since| && s.since[k].pod == p.name && p.node in s.since[k].tops;
      assert k != j;
      if j < k { OneSteered(s, j, k); } else { OneSteered(s, k, j); }
    }
  }

  /** A scoring is answered from the store if and only if it is the first since the listing to find
      the hint out, not later than its time to live after the put, and has the target among its
      candidates. */
  lemma SteeredIff(trace: seq<Protocol>, events: seq<Event>, n: nat, j: nat)
    requires Run(trace, events) && n < |trace| && j < |trace[n].since|
    ensures var s := trace[n];
            s.since[j].steered <==>
              && (forall i :: 0 <= i < j ==> !s.since[i].hinted) && s.since[j].hinted
              && s.since[j].at <= s.run.putAt + s.ttl && s.hint.targetNode in s.since[j].candidates
  {
    EveryRunKeepsInv(trace, events, n);
    hide Run;
    var s := trace[n];
    assert forall i :: 0 <= i < j ==> s.since[..j][i] == s.since[i];
  }

  /** With no other scoring at all since the listing, the pod scored is the only replacement
      there can be, and a move that sees one has been enacted. */
  lemma ReplacementLandsOnTarget(trace: seq<Protocol>, events: seq<Event>, n: nat)
    requires Run(trace, events) && n < |trace| && |trace[n].since| == 1 && InTime(trace[n], trace[n].since[0])
    ensures var s := trace[n];
            && s.since[0].steered
            && (forall m :: m in s.pods && s.run.before.Some? && IsReplacement(s.pods[m], s.Before()) ==>
                  m == s.since[0].pod && s.pods[m].node == s.hint.targetNode)
            && (s.pc.Over? && SawReplacement(s) ==> s.pc.result == Reported(Enacted))
  {
    EveryRunKeepsInv(trace, events, n);
    var s := trace[n];
    hide Run, Observed;
    assert s.since[..0] == [] && NoneHinted(s.since[..0]) && FirstToFindHint(s, 0);
    SteeredPodLandsOnTarget(trace, events, n, 0);
  }

  /** Whatever happens, a move reported Enacted saw on the target a pod that was not there
      before, and that pod had been scored since; of the pods seen the first decides; at most one
      scoring was steered by the hint. */
  lemma EnactedIsReal(trace: seq<Protocol>, events: seq<Event>, n: nat)
    requires Run(trace, events) && n < |trace|
    ensures var s := trace[n];
            && (s.pc == Over(Reported(Enacted)) ==>
                  exists p: Pod :: p.node == s.hint.targetNode && p.name !in s.Before() && Placed(s.since, p))
            && (s.pc.Over? && SawReplacement(s) ==>
                  (s.pc.result == Reported(Enacted) <==> Observed(s.run.polls, s.Before()).value.node == s.hint.targetNode))
            && (forall i, j :: 0 <= i < j < |s.since| ==> !(s.since[i].steered && s.since[j].steered))
  {
    EveryRunKeepsInv(trace, events, n);
    var s := trace[n];
    hide Run, Placed, Scored;
    forall i, j | 0 <= i < j < |s.since|
      ensures !(s.since[i].steered && s.since[j].steered)
    {
      OneSteered(s, i, j);
    }
    if s.pc == Over(Reported(Enacted)) {
      ObservedIsSeen(s.run.polls, s.Before());
      var p := Observed(s.run.polls, s.Before()).value;
      hide Observed, PendingPut;
      assert p.node == s.hint.targetNode && p.name !in s.Before() && Placed(s.since, p);
    }
  }

  // ----- where the intent fails -----

  lemma OneMore(trace: seq<Protocol>, events: seq<Event>, s: Protocol, e: Event)
    requires Run(trace, events) && trace[|trace| - 1] == s && Enabled(s, e)
    ensures Run(trace + [Next(s, e)], events + [e])
  {
  }

  const NODES := ["a", "b"]

  function PodNamed(name: string, node: string): Pod { Pod(name, Pending, node, 0, false) }

  function Intent(): Hint { Hint("old", Move, "b", "", 0) }

  function ScoredEarly(): Scoring { Scoring("early", 0, NODES, false, false, Tops(Extender, None, NODES)) }

  function ScoredNew(): Scoring { Scoring("new", 0, NODES, true, true, {"b"}) }

  /** The hint is out; a pod that came after the listing was scored before, and bound to `a`. */
  function HintOutTooLate(spec: Spec, key: string): Protocol {
    Protocol(spec, key, 60, 0, [Lookup(key, 0), Put(key, Intent(), 0)],
             map["old" := PodNamed("old", "a"), "early" := PodNamed("early", "a")],
             map["early" := ScoredEarly().tops], Hinted, Intent(),
             MoveRun(Some([PodNamed("old", "a")]), 0, EvictFailed, [], None), [ScoredEarly()])
  }

  /** The replacement is where the hint wanted it, and the enactor has not looked yet. */
  function BothLanded(spec: Spec, key: string): Protocol {
    HintOutTooLate(spec, key).(
      ops := [Lookup(key, 0), Put(key, Intent(), 0), Lookup(key, 0)],
      pods := map["early" := PodNamed("early", "a"), "new" := PodNamed("new", "b")],
      ranked := map["early" := ScoredEarly().tops, "new" := {"b"}],
      pc := Waiting, run := MoveRun(Some([PodNamed("old", "a")]), 0, Evicted, [], None),
      since := [ScoredEarly(), ScoredNew()])
  }

  lemma RunToHint(spec: Spec, key: string) returns (trace: seq<Protocol>, events: seq<Event>)
    ensures Run(trace, events) && trace[|trace| - 1] == HintOutTooLate(spec, key)
  {
    var old0 := PodNamed("old", "a");
    var s0 := Protocol(spec, key, 60, 0, [], map["old" := old0], map[], Idle, Intent(), MoveRun(None, 0, EvictFailed, [], None), []);
    trace, events := [s0], [];
    OneMore(trace, events, s0, Start(Intent()));
    var s1 := s0.(pc := Ready);
    trace, events := trace + [s1], events + [Start(Intent())];
    assert old0 in [old0];
    assert Names([old0]) == {"old"};
    OneMore(trace, events, s1, ListBefore(Some([old0])));
    var s2 := s1.(pc := Listed, run := s1.run.(before := Some([old0])));
    trace, events := trace + [s2], events + [ListBefore(Some([old0]))];
    OneMore(trace, events, s2, Create("early"));
    var s3 := s2.(pods := s2.pods["early" := PodNamed("early", "")]);
    trace, events := trace + [s3], events + [Create("early")];
    var score := Score("early", Extender, NODES, None);
    OneMore(trace, events, s3, score);
    var s4 := s3.(ops := [Lookup(key, 0)], ranked := map["early" := ScoredEarly().tops], since := [ScoredEarly()]);
    assert Next(s3, score) == s4;
    trace, events := trace + [s4], events + [score];
    assert NODES[0] in ScoredEarly().tops;
    OneMore(trace, events, s4, Bind("early", "a"));
    var s5 := s4.(pods := map["old" := old0, "early" := PodNamed("early", "a")]);
    assert Next(s4, Bind("early", "a")) == s5;
    trace, events := trace + [s5], events + [Bind("early", "a")];
    OneMore(trace, events, s5, Event.PutHint);
    assert Next(s5, Event.PutHint) == HintOutTooLate(spec, key);
    trace, events := trace + [HintOutTooLate(spec, key)], events + [Event.PutHint];
  }

  /** The evicted pod is gone and its replacement is there, not yet scored. */
  function Replaced(spec: Spec, key: string): Protocol {
    HintOutTooLate(spec, key).(
      pods := map["early" := PodNamed("early", "a"), "new" := PodNamed("new", "")],
      pc := Waiting, run := MoveRun(Some([PodNamed("old", "a")]), 0, Evicted, [], None))
  }

  lemma RunToReplacement(spec: Spec, key: string) returns (trace: seq<Protocol>, events: seq<Event>)
    ensures Run(trace, events) && trace[|trace| - 1] == Replaced(spec, key)
  {
    hide Tops, Run;
    trace, events := RunToHint(spec, key);
    var s0 := HintOutTooLate(spec, key);
    OneMore(trace, events, s0, Event.Evict(Evicted));
    var s1 := s0.(pc := Waiting, run := s0.run.(eviction := Evicted));
    trace, events := trace + [s1], events + [Event.Evict(Evicted)];
    OneMore(trace, events, s1, Vanish("old"));
    var s2 := s1.(pods := map["early" := PodNamed("early", "a")]);
    assert Next(s1, Vanish("old")) == s2;
    trace, events := trace + [s2], events + [Vanish("old")];
    OneMore(trace, events, s2, Create("new"));
    assert Next(s2, Create("new")) == Replaced(spec, key);
    trace, events := trace + [Replaced(spec, key)], events + [Create("new")];
  }

  lemma NewPodIsSteered(spec: Spec, key: string)
    ensures ScoringOf(Replaced(spec, key), "new", Extender, NODES, None) == ScoredNew()
  {
    var s := Replaced(spec, key);
    Extend([Lookup(key, 0)], Put(key, Intent(), 0));
    assert s.ops == [Lookup(key, 0)] + [Put(key, Intent(), 0)];
    assert NODES[1] in NODES;
    StoreHitSinglesOutTarget(Extender, EntryOf(Put(key, Intent(), 0), 60), NODES);
  }

  lemma RunToLanding(spec: Spec, key: string) returns (trace: seq<Protocol>, events: seq<Event>)
    ensures Run(trace, events) && trace[|trace| - 1] == BothLanded(spec, key)
  {
    hide Tops, Run, ScoringOf;
    trace, events := RunToReplacement(spec, key);
    NewPodIsSteered(spec, key);
    var score, s := Score("new", Extender, NODES, None), Replaced(spec, key);
    OneMore(trace, events, s, score);
    var scored := BothLanded(spec, key).(pods := s.pods);
    assert Next(s, score) == scored;
    trace, events := trace + [scored], events + [score];
    OneMore(trace, events, scored, Bind("new", "b"));
    assert Next(scored, Bind("new", "b")) == BothLanded(spec, key);
    trace, events := trace + [BothLanded(spec, key)], events + [Bind("new", "b")];
  }

  /** A pod of the workload created and scored between the listing and the put may be seen first:
      then the move is recorded Failed, although the hint steered the evicted pod's replacement
      and that landed on the target. */
  lemma EarlyPodMakesMoveFail(spec: Spec, key: string) returns (trace: seq<Protocol>, events: seq<Event>)
    ensures Run(trace, events)
    ensures var s := trace[|trace| - 1];
            && FirstToFindHint(s, 1) && s.since[1].pod in s.pods
            && s.pods[s.since[1].pod].node == s.hint.targetNode
            && s.pc == Over(Reported(Failed))
  {
    trace, events := RunToLanding(spec, key);
    var s := BothLanded(spec, key);
    var early, new0 := PodNamed("early", "a"), PodNamed("new", "b");
    assert early in [early, new0] && new0 in [early, new0];
    OneMore(trace, events, s, PollPods(Some([early, new0])));
    var t := Next(s, PollPods(Some([early, new0])));
    trace, events := trace + [t], events + [PollPods(Some([early, new0]))];
    OneMore(trace, events, t, Stop(None));
    trace, events := trace + [Next(t, Stop(None))], events + [Stop(None)];
    var end := Next(t, Stop(None));
    assert "old" in Names([PodNamed("old", "a")]) by { assert [PodNamed("old", "a")][0].name == "old"; }
    assert Observed(t.run.polls, t.Before()) == Some(early);
    assert end.since[..1] == [ScoredEarly()];
    assert FirstToFindHint(end, 1);
    assert trace[|trace| - 1] == end;
  }

  /** A scoring that reaches the hint spends it even when the target is not among its
      candidates and the answer is left to the agent: the move is then on its own. */
  lemma UnusableHintIsSpent(trace: seq<Protocol>, events: seq<Event>, n: nat)
    requires Run(trace, events) && n < |events| && events[n].Score? && trace[n].HintOut()
    requires trace[n].hint.targetNode !in events[n].candidates
    ensures PendingPut(trace[n + 1].ops, trace[n].key).None?
    ensures AnswerTo(trace[n], events[n].candidates, events[n].agent) == events[n].agent
  {
    EveryRunKeepsInv(trace, events, n);
    assert Enabled(trace[n], events[n]) && trace[n + 1] == Next(trace[n], events[n]);
    Extend(trace[n].ops, Lookup(trace[n].key, trace[n].now));
    hide Run, Tops;
  }
}
