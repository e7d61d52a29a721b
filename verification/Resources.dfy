/**
 Resource bounds, the template patch, and the in-place resize of AdjustResources.
 Quantities are integers in thousandths of a unit; 0 means unspecified.
 */
module Resources {
  import opened Profile
  import opened Effects
  import opened Scale

  const DEFAULT_MIN_CPU := 50
  const DEFAULT_MAX_CPU := 2_000
  const DEFAULT_MIN_MEMORY := 64 * 1024 * 1024 * 1000
  const DEFAULT_MAX_MEMORY := 2 * 1024 * 1024 * 1024 * 1000

  const CPU := "cpu"
  const MEMORY := "memory"

  type ResourceList = map<string, int>

  datatype Container = Container(name: string, requests: ResourceList, limits: ResourceList)

  datatype ResourceBounds = ResourceBounds(minCpu: int, maxCpu: int, minMemory: int, maxMemory: int)
  {
    function OrDefaults(): ResourceBounds {
      ResourceBounds(
        if minCpu == 0 then DEFAULT_MIN_CPU else minCpu, if maxCpu == 0 then DEFAULT_MAX_CPU else maxCpu,
        if minMemory == 0 then DEFAULT_MIN_MEMORY else minMemory, if maxMemory == 0 then DEFAULT_MAX_MEMORY else maxMemory)
    }

    predicate Check(cpu: int, memory: int) {
      && (cpu != 0 ==> minCpu <= cpu <= maxCpu)
      && (memory != 0 ==> minMemory <= memory <= maxMemory)
    }
  }

  /** A target is in bounds if it is 0 or within the configured range, by default 50m to 2 cores and
      64Mi to 2Gi. */
  lemma InBoundsIff(b: ResourceBounds, cpu: int, memory: int)
    ensures b.OrDefaults().Check(cpu, memory) <==>
              && (cpu == 0 || (if b.minCpu == 0 then 50 else b.minCpu) <= cpu <= (if b.maxCpu == 0 then 2000 else b.maxCpu))
              && (memory == 0 || (if b.minMemory == 0 then 67_108_864_000 else b.minMemory) <= memory
                                 <= (if b.maxMemory == 0 then 2_147_483_648_000 else b.maxMemory))
  {
  }

  function Find(containers: seq<Container>, name: string): (r: Option<nat>)
    ensures r.Some? ==> r.value < |containers| && containers[r.value].name == name
                        && forall j :: 0 <= j < r.value ==> containers[j].name != name
    ensures r.None? ==> forall j :: 0 <= j < |containers| ==> containers[j].name != name
  {
    if containers == [] then None
    else if containers[0].name == name then Some(0)
    else
      var rest := Find(containers[1..], name);
      assert forall j :: 0 < j < |containers| ==> containers[j] == containers[1..][j - 1];
      if rest.None? then None else Some(rest.value + 1)
  }

  predicate HasCpuOrMemory(list: ResourceList) { CPU in list || MEMORY in list }

  predicate HasExistingLimits(c: Container) { HasCpuOrMemory(c.requests) || HasCpuOrMemory(c.limits) }

  function Overlay(cpu: int, memory: int): ResourceList {
    (if cpu != 0 then map[CPU := cpu] else map[]) + (if memory != 0 then map[MEMORY := memory] else map[])
  }

  /** The named container with requests and limits overlaid by the targets that are given. */
  function Patched(containers: seq<Container>, name: string, cpu: int, memory: int): seq<Container> {
    var i := Find(containers, name);
    if i.None? then containers
    else
      var c := containers[i.value];
      containers[i.value := c.(requests := c.requests + Overlay(cpu, memory), limits := c.limits + Overlay(cpu, memory))]
  }

  /** Sets the lists of one container in place. */
  method ApplyTargetResources(template: array<Container>, i: nat, cpu: int, memory: int)
    requires i < template.Length
    modifies template
    ensures var c := old(template[i]);
            template[..] == old(template[..])[i := c.(requests := c.requests + Overlay(cpu, memory),
                                                      limits := c.limits + Overlay(cpu, memory))]
  {
    var requests, limits := template[i].requests, template[i].limits;
    if cpu != 0 {
      requests := requests[CPU := cpu];
      limits := limits[CPU := cpu];
    }
    if memory != 0 {
      requests := requests[MEMORY := memory];
      limits := limits[MEMORY := memory];
    }
    assert requests == template[i].requests + Overlay(cpu, memory);
    assert limits == template[i].limits + Overlay(cpu, memory);
    template[i] := template[i].(requests := requests, limits := limits);
  }

  method PatchTemplate(template: array<Container>, name: string, cpu: int, memory: int) returns (found: bool)
    modifies template
    ensures found <==> Find(old(template[..]), name).Some?
    ensures template[..] == Patched(old(template[..]), name, cpu, memory)
  {
    var i := 0;
    while i < template.Length && template[i].name != name
      invariant 0 <= i <= template.Length
      invariant forall j :: 0 <= j < i ==> template[j].name != name
    {
      i := i + 1;
    }
    if i == template.Length { return false; }
    ApplyTargetResources(template, i, cpu, memory);
    return true;
  }

  /** Exactly the given targets of exactly the first container of that name are set, in
      requests and limits alike; patching again changes nothing more. */
  lemma PatchSetsExactlyTheTargets(containers: seq<Container>, name: string, cpu: int, memory: int)
    ensures var after := Patched(containers, name, cpu, memory);
            && |after| == |containers|
            && Patched(after, name, cpu, memory) == after
            && (forall j :: 0 <= j < |after| ==> after[j].name == containers[j].name)
            && (forall j :: 0 <= j < |after| && Find(containers, name) != Some(j) ==> after[j] == containers[j])
            && (Find(containers, name).Some? ==>
                  var i := Find(containers, name).value;
                  && (cpu != 0 ==> after[i].requests[CPU] == after[i].limits[CPU] == cpu)
                  && (memory != 0 ==> after[i].requests[MEMORY] == after[i].limits[MEMORY] == memory)
                  && (forall r :: !(r == CPU && cpu != 0) && !(r == MEMORY && memory != 0) ==>
                        && (r in after[i].requests <==> r in containers[i].requests)
                        && (r in after[i].requests ==> after[i].requests[r] == containers[i].requests[r])
                        && (r in after[i].limits <==> r in containers[i].limits)
                        && (r in after[i].limits ==> after[i].limits[r] == containers[i].limits[r])))
  {
    var i := Find(containers, name);
    if i.Some? {
      var c := containers[i.value];
      FirstStaysFirst(containers, Patched(containers, name, cpu, memory), name);
      OverlaySetsExactly(c.requests, cpu, memory);
      OverlaySetsExactly(c.limits, cpu, memory);
    }
    hide Find, Overlay;
  }

  lemma OverlaySetsExactly(list: ResourceList, cpu: int, memory: int)
    ensures var after := list + Overlay(cpu, memory);
            && after + Overlay(cpu, memory) == after
            && (cpu != 0 ==> CPU in after && after[CPU] == cpu)
            && (memory != 0 ==> MEMORY in after && after[MEMORY] == memory)
            && (forall r :: !(r == CPU && cpu != 0) && !(r == MEMORY && memory != 0) ==>
                  (r in after <==> r in list) && (r in after ==> after[r] == list[r]))
  {
    assert CPU != MEMORY;
  }

  lemma {:induction false} FirstStaysFirst(a: seq<Container>, b: seq<Container>, name: string)
    requires |a| == |b| && forall j :: 0 <= j < |a| ==> a[j].name == b[j].name
    ensures Find(a, name) == Find(b, name)
  {
    if a != [] && a[0].name != name {
      FirstStaysFirst(a[1..], b[1..], name);
    }
  }

  /** A patch can change a template if and only if one of its targets is given. */
  lemma PatchChangesIff(cpu: int, memory: int)
    ensures (exists cs, name :: Patched(cs, name, cpu, memory) != cs) <==> cpu != 0 || memory != 0
  {
    if cpu != 0 || memory != 0 {
      var c := Container("", map[], map[]);
      var after := Patched([c], "", cpu, memory);
      PatchSetsExactlyTheTargets([c], "", cpu, memory);
      assert after[0].requests != c.requests;
    } else {
      forall cs, name ensures Patched(cs, name, cpu, memory) == cs { ZeroTargetsPatchNothing(ResourceBounds(0, 0, 0, 0), cs, name); }
    }
  }

  /** Answers of zero or empty targets pass every bound and patch nothing. */
  lemma ZeroTargetsPatchNothing(bounds: ResourceBounds, containers: seq<Container>, name: string)
    ensures bounds.Check(0, 0)
    ensures Patched(containers, name, 0, 0) == containers
  {
    var i := Find(containers, name);
    if i.Some? {
      var c := containers[i.value];
      assert c.requests + Overlay(0, 0) == c.requests && c.limits + Overlay(0, 0) == c.limits;
    }
  }

  /** What the kubelet reports for one container; None while it reports no resources. */
  datatype ContainerStatus = ContainerStatus(name: string, requests: Option<ResourceList>)

  datatype Read = ReadFailed | ReadPod(rejected: bool, statuses: seq<ContainerStatus>)

  /** One listed pod and what the cluster answers when it is resized: whether the resize is
      accepted, what is read while the budget lasts, whether the budget is spent afterwards. */
  datatype PodRun = PodRun(name: string, containers: seq<Container>, accepted: bool, polls: seq<Read>, budgetSpent: bool)

  predicate Meets(list: ResourceList, cpu: int, memory: int) {
    && (cpu != 0 ==> CPU in list && list[CPU] == cpu)
    && (memory != 0 ==> MEMORY in list && list[MEMORY] == memory)
  }

  /** The first status of that container that carries resources decides. */
  predicate ResourcesConverged(statuses: seq<ContainerStatus>, name: string, cpu: int, memory: int) {
    if statuses == [] then false
    else if statuses[0].name != name || statuses[0].requests.None? then ResourcesConverged(statuses[1..], name, cpu, memory)
    else Meets(statuses[0].requests.value, cpu, memory)
  }

  predicate Confirms(read: Read, name: string, cpu: int, memory: int) {
    read.ReadPod? && !read.rejected && ResourcesConverged(read.statuses, name, cpu, memory)
  }

  /** Some read confirms the resize and no read before it rejects it. */
  predicate Converges(polls: seq<Read>, name: string, cpu: int, memory: int) {
    exists i :: 0 <= i < |polls| && Confirms(polls[i], name, cpu, memory)
                && forall j :: 0 <= j < i ==> !(polls[j].ReadPod? && polls[j].rejected)
  }

  /** Status `i` is the first of that container that carries resources. */
  ghost predicate FirstReporting(statuses: seq<ContainerStatus>, name: string, i: nat) {
    && i < |statuses| && statuses[i].name == name && statuses[i].requests != None
    && forall j :: 0 <= j < i ==> !(statuses[j].name == name && statuses[j].requests != None)
  }

  predicate Has(list: ResourceList, resource: string, target: int) { resource in list && list[resource] == target }

  /** Converged means that it reports every given target. */
  lemma {:induction false} ConvergedIff(statuses: seq<ContainerStatus>, name: string, cpu: int, memory: int)
    ensures ResourcesConverged(statuses, name, cpu, memory) <==>
              exists i: nat :: FirstReporting(statuses, name, i)
                && (cpu == 0 || Has(statuses[i].requests.value, "cpu", cpu))
                && (memory == 0 || Has(statuses[i].requests.value, "memory", memory))
  {
    if statuses != [] {
      ConvergedIff(statuses[1..], name, cpu, memory);
      assert forall j :: 0 < j < |statuses| ==> statuses[j] == statuses[1..][j - 1];
      if statuses[0].name == name && statuses[0].requests != None {
        assert FirstReporting(statuses, name, 0);
      } else {
        assert forall i: nat :: FirstReporting(statuses[1..], name, i) ==> FirstReporting(statuses, name, i + 1);
        assert forall i: nat :: FirstReporting(statuses, name, i) ==> i > 0 && FirstReporting(statuses[1..], name, i - 1);
      }
    }
  }

  method AwaitResizeConvergence(polls: seq<Read>, name: string, cpu: int, memory: int) returns (converged: bool)
    ensures converged <==> Converges(polls, name, cpu, memory)
  {
    var i := 0;
    while i < |polls|
      invariant 0 <= i <= |polls|
      invariant forall j :: 0 <= j < i ==> !Confirms(polls[j], name, cpu, memory) && !(polls[j].ReadPod? && polls[j].rejected)
    {
      if polls[i].ReadPod? {
        if polls[i].rejected { return false; }
        if ResourcesConverged(polls[i].statuses, name, cpu, memory) {
          assert Confirms(polls[i], name, cpu, memory);
          return true;
        }
      }
      i := i + 1;
    }
    return false;
  }

  /** The listed pods that have the container, in list order. */
  function Matching(pods: seq<PodRun>, name: string): seq<PodRun> {
    if pods == [] then []
    else if Find(pods[0].containers, name).Some? then [pods[0]] + Matching(pods[1..], name)
    else Matching(pods[1..], name)
  }

  /** The pods a resize reaches: up to and including the first that spends the budget. */
  function Reached(pods: seq<PodRun>): seq<PodRun> {
    if pods == [] then [] else if pods[0].budgetSpent then [pods[0]] else [pods[0]] + Reached(pods[1..])
  }

  predicate Resizes(pod: PodRun, name: string, cpu: int, memory: int) {
    pod.accepted && Converges(pod.polls, name, cpu, memory)
  }

  function CountResized(pods: seq<PodRun>, name: string, cpu: int, memory: int): nat {
    if pods == [] then 0
    else (if Resizes(pods[0], name, cpu, memory) then 1 else 0) + CountResized(pods[1..], name, cpu, memory)
  }

  function ResizeEffects(pods: seq<PodRun>): (r: seq<Effect>)
    ensures |r| == |pods|
    ensures forall i :: 0 <= i < |r| ==> r[i] == ResizePod(pods[i].name)
  {
    if pods == [] then [] else [ResizePod(pods[0].name)] + ResizeEffects(pods[1..])
  }

  predicate HasContainer(pod: PodRun, name: string) { exists c :: c in pod.containers && c.name == name }

  lemma FindIff(containers: seq<Container>, name: string)
    ensures Find(containers, name).Some? <==> exists c :: c in containers && c.name == name
  {
    if c :| c in containers && c.name == name {
      var i :| 0 <= i < |containers| && containers[i] == c;
    }
  }

  /** A pod alone is matching if and only if it has the container. */
  lemma MatchingOne(p: PodRun, name: string)
    ensures Matching([p], name) == if HasContainer(p, name) then [p] else []
  {
    FindIff(p.containers, name);
    assert [p][1..] == [];
  }

  /** The matching pods are the listed ones that have the container, each as often as listed and
      in list order. */
  lemma {:induction false} MatchingAre(pods: seq<PodRun>, more: seq<PodRun>, name: string)
    ensures Matching(pods + more, name) == Matching(pods, name) + Matching(more, name)
    ensures forall p :: p in Matching(pods, name) <==> p in pods && HasContainer(p, name)
  {
    if pods == [] {
      assert pods + more == more;
    } else {
      hide Find;
      FindIff(pods[0].containers, name);
      MatchingAre(pods[1..], more, name);
      assert (pods + more)[1..] == pods[1..] + more && (pods + more)[0] == pods[0];
      assert forall p :: p in pods <==> p == pods[0] || p in pods[1..];
    }
  }

  /** The pods reached are a prefix of the matching ones, all of them unless one spent the
      budget, and then only the last of the prefix did. */
  lemma {:induction false} ReachedIsPrefix(pods: seq<PodRun>)
    ensures Reached(pods) <= pods
    ensures forall i :: 0 <= i < |Reached(pods)| - 1 ==> !Reached(pods)[i].budgetSpent
    ensures |Reached(pods)| < |pods| ==> Reached(pods) != [] && Reached(pods)[|Reached(pods)| - 1].budgetSpent
  {
    if pods != [] && !pods[0].budgetSpent {
      ReachedIsPrefix(pods[1..]);
      assert Reached(pods) == [pods[0]] + Reached(pods[1..]);
      assert Reached(pods)[1..] == Reached(pods[1..]);
    }
  }

  lemma {:induction false} ResizedAtMostReached(pods: seq<PodRun>, name: string, cpu: int, memory: int)
    ensures CountResized(pods, name, cpu, memory) <= |pods|
    ensures CountResized(pods, name, cpu, memory) == |pods| <==>
              forall i :: 0 <= i < |pods| ==> Resizes(pods[i], name, cpu, memory)
  {
    if pods != [] {
      ResizedAtMostReached(pods[1..], name, cpu, memory);
      assert forall i :: 0 < i < |pods| ==> pods[i] == pods[1..][i - 1];
    }
  }

  lemma {:induction false} OneMoreReached(done: seq<PodRun>, pod: PodRun, name: string, cpu: int, memory: int)
    ensures CountResized(done + [pod], name, cpu, memory)
            == CountResized(done, name, cpu, memory) + if Resizes(pod, name, cpu, memory) then 1 else 0
    ensures ResizeEffects(done + [pod]) == ResizeEffects(done) + [ResizePod(pod.name)]
  {
    if done != [] {
      OneMoreReached(done[1..], pod, name, cpu, memory);
      assert (done + [pod])[1..] == done[1..] + [pod];
    }
  }

  /** The pods still to be reached when the loop is at `i`, and after this step. */
  lemma ReachedFrom(done: seq<PodRun>, pods: seq<PodRun>, i: nat, name: string)
    requires i < |pods|
    ensures var here, rest := Reached(Matching(pods[i..], name)), Reached(Matching(pods[i + 1..], name));
            if Find(pods[i].containers, name).None? then here == rest
            else if pods[i].budgetSpent then done + here == done + [pods[i]]
            else done + here == (done + [pods[i]]) + rest
  {
    var here, rest := pods[i..], Matching(pods[i + 1..], name);
    assert here[0] == pods[i] && here[1..] == pods[i + 1..];
    assert ([pods[i]] + rest)[1..] == rest;
    assert done + ([pods[i]] + Reached(rest)) == (done + [pods[i]]) + Reached(rest);
  }

  method ResizeRunningPods(pods: seq<PodRun>, name: string, cpu: int, memory: int)
    returns (resized: nat, attempted: nat, ghost effects: seq<Effect>)
    ensures attempted == |Reached(Matching(pods, name))|
    ensures resized == CountResized(Reached(Matching(pods, name)), name, cpu, memory)
    ensures effects == ResizeEffects(Reached(Matching(pods, name)))
  {
    resized, attempted, effects := 0, 0, [];
    ghost var done: seq<PodRun>, all := [], Reached(Matching(pods, name));
    assert pods[0..] == pods && [] + all == all;
    assert CountResized([], name, cpu, memory) == 0 && ResizeEffects([]) == [];
    hide Find, Converges, CountResized, ResizeEffects;
    var i := 0;
    while i < |pods|
      invariant 0 <= i <= |pods|
      invariant done + Reached(Matching(pods[i..], name)) == all
      invariant attempted == |done| && resized == CountResized(done, name, cpu, memory) && effects == ResizeEffects(done)
    {
      var pod := pods[i];
      ReachedFrom(done, pods, i, name);
      if Find(pod.containers, name).Some? {
        OneMoreReached(done, pod, name, cpu, memory);
        attempted, effects := attempted + 1, effects + [ResizePod(pod.name)];
        if pod.accepted {
          var converged := AwaitResizeConvergence(pod.polls, name, cpu, memory);
          if converged { resized := resized + 1; }
        }
        done := done + [pod];
        if pod.budgetSpent { return; }
      }
      i := i + 1;
    }
    assert done + [] == done;
  }

  predicate IsResized(pod: PodRun, name: string, cpu: int, memory: int) {
    pod.accepted && exists i :: 0 <= i < |pod.polls| && ConfirmedAt(pod.polls, i, name, cpu, memory)
  }

  /** Read `i` shows the targets, and neither it nor a read before it a rejection. */
  predicate ConfirmedAt(polls: seq<Read>, i: nat, name: string, cpu: int, memory: int)
    requires i < |polls|
  {
    && polls[i].ReadPod? && ResourcesConverged(polls[i].statuses, name, cpu, memory)
    && forall j :: 0 <= j <= i ==> polls[j] == ReadFailed || !polls[j].rejected
  }

  function ResizedAt(pods: seq<PodRun>, name: string, cpu: int, memory: int): set<int> {
    set i | 0 <= i < |pods| && IsResized(pods[i], name, cpu, memory)
  }

  lemma OneMorePod(pods: seq<PodRun>, pod: PodRun, name: string, cpu: int, memory: int)
    ensures |ResizedAt(pods + [pod], name, cpu, memory)|
            == |ResizedAt(pods, name, cpu, memory)| + if IsResized(pod, name, cpu, memory) then 1 else 0
  {
    hide IsResized;
    var all := pods + [pod];
    assert all[|pods|] == pod && forall i :: 0 <= i < |pods| ==> all[i] == pods[i];
    assert ResizedAt(all, name, cpu, memory)
           == ResizedAt(pods, name, cpu, memory) + if IsResized(pod, name, cpu, memory) then {|pods|} else {};
  }

  /** Resized is the number of pods whose resize was accepted and then read back. */
  lemma {:induction false} ResizedCounts(pods: seq<PodRun>, name: string, cpu: int, memory: int)
    ensures CountResized(pods, name, cpu, memory) == |ResizedAt(pods, name, cpu, memory)|
  {
    if pods != [] {
      hide CountResized, Resizes, IsResized, ResizeEffects, ResizedAt;
      var front, last := pods[..|pods| - 1], pods[|pods| - 1];
      assert front + [last] == pods;
      ResizedCounts(front, name, cpu, memory);
      OneMoreReached(front, last, name, cpu, memory);
      OneMorePod(front, last, name, cpu, memory);
      ResizesIff(last, name, cpu, memory);
    }
  }

  lemma ResizesIff(pod: PodRun, name: string, cpu: int, memory: int)
    ensures Resizes(pod, name, cpu, memory) <==> IsResized(pod, name, cpu, memory)
  {
    hide ResourcesConverged;
    if i :| 0 <= i < |pod.polls| && ConfirmedAt(pod.polls, i, name, cpu, memory) {
      assert Confirms(pod.polls[i], name, cpu, memory);
    }
    if Converges(pod.polls, name, cpu, memory) {
      var i :| 0 <= i < |pod.polls| && Confirms(pod.polls[i], name, cpu, memory)
               && forall j :: 0 <= j < i ==> !(pod.polls[j].ReadPod? && pod.polls[j].rejected);
      assert ConfirmedAt(pod.polls, i, name, cpu, memory);
    }
  }

  /** How the cluster answers the enactor; `pods` is None when there is no selector to list by
      or the list call fails. */
  datatype ResourceRun = ResourceRun(fetched: bool, template: seq<Container>, patched: bool, pods: Option<seq<PodRun>>)

  predicate ResourcePatches(spec: Spec, name: string, run: ResourceRun) {
    Scalable(spec.app.kind) && run.fetched && Find(run.template, name).Some? && run.patched
  }

  /** Once the template is patched the outcome is Enacted, however the resizes went. */
  function ResourceAnswer(spec: Spec, name: string, run: ResourceRun): EnactorResult {
    if ResourcePatches(spec, name, run) then Reported(Enacted) else EnactorError
  }

  function ResourceEffects(spec: Spec, name: string, cpu: int, memory: int, run: ResourceRun): seq<Effect> {
    if !ResourcePatches(spec, name, run) then []
    else if run.pods.None? then [SetResources(name, cpu, memory)]
    else [SetResources(name, cpu, memory)] + ResizeEffects(Reached(Matching(run.pods.value, name)))
  }

  /** The template is stored, and the cycle Enacted, if and only if the workload is a Deployment or
      StatefulSet with that container that can be fetched and stored; the template comes before the
      pods, and only the pods that are reached are resized. */
  lemma ResourceOutcomes(spec: Spec, name: string, cpu: int, memory: int, run: ResourceRun)
    ensures var patches := (spec.app.kind == "Deployment" || spec.app.kind == "StatefulSet") && run.fetched && run.patched
                           && exists c :: c in run.template && c.name == name;
            var effects := ResourceEffects(spec, name, cpu, memory, run);
            && ResourceAnswer(spec, name, run) == (if patches then Reported(Enacted) else EnactorError)
            && (!patches ==> effects == [])
            && (patches ==>
                  && effects != [] && effects[0] == SetResources(name, cpu, memory)
                  && effects[1..] == if run.pods.None? then [] else ResizeEffects(Reached(Matching(run.pods.value, name))))
  {
    var found := Find(run.template, name);
    if c :| c in run.template && c.name == name {
      var i :| 0 <= i < |run.template| && run.template[i] == c;
    }
    hide Reached, Matching;
  }

  lemma ResourceEffectKinds(spec: Spec, name: string, cpu: int, memory: int, run: ResourceRun)
    ensures forall e :: e in ResourceEffects(spec, name, cpu, memory, run) ==>
              e == SetResources(name, cpu, memory) || e.ResizePod?
  {
    hide Reached, Matching;
  }

  method ResourceEnactor(spec: Spec, name: string, cpu: int, memory: int, run: ResourceRun)
    returns (r: EnactorResult, ghost effects: seq<Effect>, stored: seq<Container>)
    ensures r == ResourceAnswer(spec, name, run)
    ensures effects == ResourceEffects(spec, name, cpu, memory, run)
    ensures stored == if r.EnactorError? then run.template else Patched(run.template, name, cpu, memory)
  {
    effects, stored := [], run.template;
    if !Scalable(spec.app.kind) || !run.fetched { return EnactorError, effects, stored; }
    var template := new Container[|run.template|](i requires 0 <= i < |run.template| => run.template[i]);
    assert template[..] == run.template;
    var found := PatchTemplate(template, name, cpu, memory);
    if !found || !run.patched { return EnactorError, effects, stored; }
    effects, stored := [SetResources(name, cpu, memory)], template[..];
    if run.pods.Some? {
      ghost var resizes;
      var resized, attempted;
      resized, attempted, resizes := ResizeRunningPods(run.pods.value, name, cpu, memory);
      effects := effects + resizes;
    }
    return Reported(Enacted), effects, stored;
  }
}
