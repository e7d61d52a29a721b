/** Replica bounds and the enactor of AdjustReplicas. */
module Scale {
  import opened Profile
  import opened Effects
  import opened EnergyGate

  const DEFAULT_MIN_REPLICAS := 1
  const DEFAULT_MAX_REPLICAS := 10

  datatype Owner = Owner(kind: string, apiVersion: string, name: string)

  datatype Hpa = Hpa(targetKind: string, targetName: string, minReplicas: Option<int>, maxReplicas: int, owners: seq<Owner>)

  datatype ReplicaBounds = ReplicaBounds(min: int, max: int, kedaManaged: bool)

  predicate IsScaledObject(o: Owner) { o.kind == "ScaledObject" && o.apiVersion == "keda.sh/v1alpha1" }

  predicate Targets(h: Hpa, app: ApplicationRef) { h.targetKind == app.kind && h.targetName == app.name }

  /** The first owner that is a ScaledObject gives its name, even if that is empty. */
  function KedaOwner(owners: seq<Owner>): string {
    if owners == [] then ""
    else if IsScaledObject(owners[0]) then owners[0].name
    else KedaOwner(owners[1..])
  }

  function FirstTargeting(hpas: seq<Hpa>, app: ApplicationRef): (r: Option<nat>)
    ensures r.Some? ==> r.value < |hpas| && Targets(hpas[r.value], app)
                        && forall j :: 0 <= j < r.value ==> !Targets(hpas[j], app)
    ensures r.None? ==> forall j :: 0 <= j < |hpas| ==> !Targets(hpas[j], app)
  {
    if hpas == [] then None
    else if Targets(hpas[0], app) then Some(0)
    else
      var rest := FirstTargeting(hpas[1..], app);
      assert forall j :: 0 < j < |hpas| ==> hpas[j] == hpas[1..][j - 1];
      if rest.None? then None else Some(rest.value + 1)
  }

  /** An autoscaler of the workload is authoritative; the configured range is the fallback. */
  function Bounds(hpas: Option<seq<Hpa>>, app: ApplicationRef, fallbackMin: int, fallbackMax: int): ReplicaBounds {
    var found := if hpas.Some? then FirstTargeting(hpas.value, app) else None;
    if found.Some? then
      var h := hpas.value[found.value];
      ReplicaBounds(if h.minReplicas.Some? then h.minReplicas.value else 1, h.maxReplicas, KedaOwner(h.owners) != "")
    else
      ReplicaBounds(if fallbackMin <= 0 then DEFAULT_MIN_REPLICAS else fallbackMin,
                    if fallbackMax <= 0 then DEFAULT_MAX_REPLICAS else fallbackMax, false)
  }

  method KedaScaledObjectOwner(owners: seq<Owner>) returns (name: string)
    ensures name == KedaOwner(owners)
  {
    var i := 0;
    while i < |owners|
      invariant 0 <= i <= |owners|
      invariant KedaOwner(owners) == KedaOwner(owners[i..])
    {
      if IsScaledObject(owners[i]) { return owners[i].name; }
      i := i + 1;
    }
    return "";
  }

  method ResolveReplicaBounds(hpas: Option<seq<Hpa>>, app: ApplicationRef, fallbackMin: int, fallbackMax: int)
    returns (r: ReplicaBounds)
    ensures r == Bounds(hpas, app, fallbackMin, fallbackMax)
  {
    if hpas.Some? {
      var i := 0;
      while i < |hpas.value|
        invariant 0 <= i <= |hpas.value|
        invariant forall j :: 0 <= j < i ==> !Targets(hpas.value[j], app)
      {
        var hpa := hpas.value[i];
        if Targets(hpa, app) {
          var lo := 1;
          if hpa.minReplicas.Some? { lo := hpa.minReplicas.value; }
          var owner := KedaScaledObjectOwner(hpa.owners);
          return ReplicaBounds(lo, hpa.maxReplicas, owner != "");
        }
        i := i + 1;
      }
    }
    return ReplicaBounds(if fallbackMin <= 0 then DEFAULT_MIN_REPLICAS else fallbackMin,
                         if fallbackMax <= 0 then DEFAULT_MAX_REPLICAS else fallbackMax, false);
  }

  /** Autoscaler `i` is the first in the list whose target is the workload. */
  ghost predicate FirstFor(hpas: seq<Hpa>, app: ApplicationRef, i: nat) {
    && i < |hpas| && hpas[i].targetKind == app.kind && hpas[i].targetName == app.name
    && forall j :: 0 <= j < i ==> !(hpas[j].targetKind == app.kind && hpas[j].targetName == app.name)
  }

  /** Owner `i` is the first that is a ScaledObject of KEDA. */
  ghost predicate FirstScaledObject(owners: seq<Owner>, i: nat) {
    && i < |owners| && owners[i].kind == "ScaledObject" && owners[i].apiVersion == "keda.sh/v1alpha1"
    && forall j :: 0 <= j < i ==> !(owners[j].kind == "ScaledObject" && owners[j].apiVersion == "keda.sh/v1alpha1")
  }

  lemma {:induction false} KedaOwnerIff(owners: seq<Owner>, name: string)
    ensures name != "" ==> (KedaOwner(owners) == name <==> exists i: nat :: FirstScaledObject(owners, i) && owners[i].name == name)
  {
    if owners != [] {
      KedaOwnerIff(owners[1..], name);
      assert forall j :: 0 < j < |owners| ==> owners[j] == owners[1..][j - 1];
      if IsScaledObject(owners[0]) {
        assert FirstScaledObject(owners, 0);
      } else {
        assert forall i: nat :: FirstScaledObject(owners[1..], i) ==> FirstScaledObject(owners, i + 1);
        assert forall i: nat :: FirstScaledObject(owners, i) ==> i > 0 && FirstScaledObject(owners[1..], i - 1);
      }
    }
  }

  /** The bounds are the first targeting autoscaler's, a missing minimum being 1, and KEDA's if a
      named ScaledObject owns it; without one, or without a listing, 1 to 10 or as configured. */
  lemma BoundsAre(hpas: Option<seq<Hpa>>, app: ApplicationRef, fallbackMin: int, fallbackMax: int)
    ensures var b := Bounds(hpas, app, fallbackMin, fallbackMax);
            if hpas.Some? && exists i: nat :: FirstFor(hpas.value, app, i) then
              exists i: nat :: FirstFor(hpas.value, app, i)
                && b.min == (if hpas.value[i].minReplicas == None then 1 else hpas.value[i].minReplicas.value)
                && b.max == hpas.value[i].maxReplicas
                && (b.kedaManaged <==> exists k: nat :: FirstScaledObject(hpas.value[i].owners, k) && hpas.value[i].owners[k].name != "")
            else
              b == ReplicaBounds(if fallbackMin <= 0 then 1 else fallbackMin, if fallbackMax <= 0 then 10 else fallbackMax, false)
  {
    if hpas.Some? {
      var found := FirstTargeting(hpas.value, app);
      if i: nat :| FirstFor(hpas.value, app, i) {
        assert Targets(hpas.value[i], app);
      }
      if found.Some? {
        var owners := hpas.value[found.value].owners;
        assert FirstFor(hpas.value, app, found.value);
        KedaOwnerIff(owners, KedaOwner(owners));
        if k: nat :| FirstScaledObject(owners, k) && owners[k].name != "" { KedaOwnerIff(owners, owners[k].name); }
      }
    }
  }

  predicate Scalable(kind: string) { kind == "Deployment" || kind == "StatefulSet" }

  /** How the cluster answers the enactor: the fetch and the patch of the workload, what each
      poll reads as ready replicas, and the energy resources at the time of a timeout. */
  datatype ScaleRun = ScaleRun(fetched: bool, patched: bool, polls: seq<Option<int>>, eaos: Option<seq<Eao>>)

  predicate ScalePatches(spec: Spec, run: ScaleRun) {
    Scalable(spec.app.kind) && run.fetched && run.patched
  }

  /** Patched and then seen ready at exactly the target; otherwise the timeout is classified. */
  function ScaleAnswer(spec: Spec, target: int, run: ScaleRun): EnactorResult {
    if !ScalePatches(spec, run) then EnactorError
    else if Some(target) in run.polls then Reported(Enacted)
    else Reported(ClassifyScheduleTimeout(spec, run.eaos))
  }

  function ScaleEffects(spec: Spec, target: int, run: ScaleRun): seq<Effect> {
    if ScalePatches(spec, run) then [SetReplicas(target)] else []
  }

  /** The workload is patched, to the target, if and only if it is a Deployment or StatefulSet that
      can be fetched and stored; then Enacted if and only if some poll read the target. */
  lemma ScaleOutcomes(spec: Spec, target: int, run: ScaleRun)
    ensures var answer := ScaleAnswer(spec, target, run);
            var patches := (spec.app.kind == "Deployment" || spec.app.kind == "StatefulSet") && run.fetched && run.patched;
            && (answer == EnactorError <==> !patches)
            && ScaleEffects(spec, target, run) == (if patches then [SetReplicas(target)] else [])
            && (answer == Reported(Enacted) <==> patches && exists i :: 0 <= i < |run.polls| && run.polls[i] == Some(target))
            && (patches && answer != Reported(Enacted) ==> answer == Reported(ClassifyScheduleTimeout(spec, run.eaos)))
  {
    DeferredIff(spec, run.eaos);
  }

  method AwaitReadyReplicas(target: int, polls: seq<Option<int>>) returns (ready: bool)
    ensures ready <==> Some(target) in polls
  {
    var lastReady, i := -1, 0;
    while i < |polls|
      invariant 0 <= i <= |polls|
      invariant Some(target) !in polls[..i]
    {
      if polls[i].Some? {
        lastReady := polls[i].value;
        if lastReady == target { return true; }
      }
      i := i + 1;
    }
    return false;
  }

  method ScaleEnactor(spec: Spec, target: int, run: ScaleRun) returns (r: EnactorResult, ghost effects: seq<Effect>)
    ensures r == ScaleAnswer(spec, target, run)
    ensures effects == ScaleEffects(spec, target, run)
  {
    effects := [];
    if !Scalable(spec.app.kind) || !run.fetched || !run.patched { return EnactorError, effects; }
    effects := [SetReplicas(target)];
    var ready := AwaitReadyReplicas(target, run.polls);
    if !ready { return Reported(ClassifyScheduleTimeout(spec, run.eaos)), effects; }
    return Reported(Enacted), effects;
  }
}
