/**
 The energy gate of the scheduler extender, and the classifier by which an enactor decides
 whether a scheduling timeout is explained by that gate being closed.
 */
module EnergyGate {
  import opened Profile

  /** One EnergyAwareOrchestration resource; fields that are absent are None or "". */
  datatype Eao = Eao(
    refKind: string, refName: string, refNamespace: string, ownNamespace: string,
    sufficient: Option<bool>, requiredWatts: Option<real>,
    action: string, reason: string)

  predicate RefersTo(eao: Eao, app: ApplicationRef) {
    && eao.refName == app.name
    && (if eao.refNamespace == "" then eao.ownNamespace else eao.refNamespace) == app.namespace
    && eao.refKind == app.kind
  }

  /** The first resource naming the application; None also when the list call failed. */
  function FindEaoForApp(eaos: Option<seq<Eao>>, app: ApplicationRef): (r: Option<Eao>)
    ensures r.Some? ==> eaos.Some? && r.value in eaos.value && RefersTo(r.value, app)
    ensures r.None? && eaos.Some? ==> forall e :: e in eaos.value ==> !RefersTo(e, app)
    decreases if eaos.Some? then |eaos.value| else 0
  {
    if eaos.None? || eaos.value == [] then None
    else if RefersTo(eaos.value[0], app) then Some(eaos.value[0])
    else FindEaoForApp(Some(eaos.value[1..]), app)
  }

  function ClassifyScheduleTimeout(spec: Spec, eaos: Option<seq<Eao>>): Outcome {
    if !spec.energyAware then Failed
    else
      var eao := FindEaoForApp(eaos, spec.app);
      if eao.None? || eao.value.sufficient.None? || eao.value.sufficient.value then Failed else Deferred
  }

  datatype EnergyMetrics = EnergyMetrics(requiredWatts: real, sufficient: bool)

  /** The energy metrics of the context built from a resource: present as soon as one of its
      two fields is, with the zero value for the other. */
  function MetricsOf(eao: Eao): Option<EnergyMetrics> {
    if eao.requiredWatts.None? && eao.sufficient.None? then None
    else Some(EnergyMetrics(
      if eao.requiredWatts.Some? then eao.requiredWatts.value else 0.0,
      eao.sufficient.Some? && eao.sufficient.value))
  }

  /** The profile governing a pod: the first one indexed under its application's namespace
      and name (the index does not look at the kind). */
  function FindProfileForPod(profiles: seq<Profile>, app: Option<ApplicationRef>): (r: Option<Profile>)
    ensures r.Some? ==> r.value in profiles && app.Some?
                        && r.value.spec.app.namespace == app.value.namespace && r.value.spec.app.name == app.value.name
  {
    if app.None? || profiles == [] then None
    else if profiles[0].spec.app.namespace == app.value.namespace && profiles[0].spec.app.name == app.value.name
    then Some(profiles[0])
    else FindProfileForPod(profiles[1..], app)
  }

  /** Whether a pod of the application is let through to scheduling. */
  predicate CheckEnergyGate(profiles: seq<Profile>, app: Option<ApplicationRef>, eaos: Option<seq<Eao>>) {
    var profile := FindProfileForPod(profiles, app);
    if profile.None? || !profile.value.spec.energyAware then true
    else
      var eao := FindEaoForApp(eaos, app.value);
      if eao.None? then true
      else
        var metrics := MetricsOf(eao.value);
        metrics.None? || metrics.value.sufficient
  }

  /** Resource `i` is the first whose reference, in its own namespace where it gives none, is to
      the application. */
  ghost predicate FirstNaming(eaos: seq<Eao>, app: ApplicationRef, i: nat) {
    i < |eaos| && IsFor(eaos[i], app) && forall j :: 0 <= j < i ==> !IsFor(eaos[j], app)
  }

  predicate IsFor(e: Eao, app: ApplicationRef) {
    && e.refKind == app.kind && e.refName == app.name
    && (e.refNamespace != "" ==> e.refNamespace == app.namespace)
    && (e.refNamespace == "" ==> e.ownNamespace == app.namespace)
  }

  lemma {:induction false} FindsFirstNaming(eaos: seq<Eao>, app: ApplicationRef)
    ensures var r := FindEaoForApp(Some(eaos), app);
            && (r.Some? <==> exists i: nat :: FirstNaming(eaos, app, i))
            && (forall i: nat :: FirstNaming(eaos, app, i) ==> r == Some(eaos[i]))
  {
    if eaos != [] {
      FindsFirstNaming(eaos[1..], app);
      assert forall j :: 0 < j < |eaos| ==> eaos[j] == eaos[1..][j - 1];
      if IsFor(eaos[0], app) {
        assert FirstNaming(eaos, app, 0);
      } else {
        assert forall i: nat :: FirstNaming(eaos[1..], app, i) ==> FirstNaming(eaos, app, i + 1);
        assert forall i: nat :: FirstNaming(eaos, app, i) ==> i > 0 && FirstNaming(eaos[1..], app, i - 1);
      }
    }
  }

  /** A timeout is Deferred if and only if the profile is energy-aware and the first resource for
      its application reports the energy insufficient; otherwise it is Failed. */
  lemma DeferredIff(spec: Spec, eaos: Option<seq<Eao>>)
    ensures var outcome := ClassifyScheduleTimeout(spec, eaos);
            && (outcome == Failed || outcome == Deferred)
            && (outcome == Deferred <==>
                  spec.energyAware && eaos.Some? && exists i: nat :: FirstNaming(eaos.value, spec.app, i) && eaos.value[i].sufficient == Some(false))
  {
    if eaos.Some? { FindsFirstNaming(eaos.value, spec.app); }
  }

  /** The gate is closed if and only if the profile found is energy-aware and the first resource
      reports the energy insufficient, or reports required watts and leaves that open. */
  lemma GateClosedWhen(profiles: seq<Profile>, app: ApplicationRef, eaos: Option<seq<Eao>>)
    ensures var found := FindProfileForPod(profiles, Some(app));
            !CheckEnergyGate(profiles, Some(app), eaos) <==>
              && found.Some? && found.value.spec.energyAware && eaos.Some?
              && exists i: nat :: FirstNaming(eaos.value, app, i)
                                  && (eaos.value[i].sufficient == Some(false)
                                      || (eaos.value[i].sufficient == None && eaos.value[i].requiredWatts.Some?))
  {
    if eaos.Some? { FindsFirstNaming(eaos.value, app); }
  }

  /** The one case the gate closes on and the classifier does not take as an explanation:
      required watts are reported and sufficiency is not. */
  predicate SufficiencyUnreported(spec: Spec, eaos: Option<seq<Eao>>) {
    var eao := FindEaoForApp(eaos, spec.app);
    eao.Some? && eao.value.sufficient.None? && eao.value.requiredWatts.Some?
  }

  /** On one snapshot, for a pod of the profile's own application whose index entry is that
      profile: the gate is closed exactly when the classifier says Deferred or the energy
      metrics lack the sufficiency field. */
  lemma GateClosedIff(profiles: seq<Profile>, p: Profile, eaos: Option<seq<Eao>>)
    requires FindProfileForPod(profiles, Some(p.spec.app)) == Some(p)
    ensures !CheckEnergyGate(profiles, Some(p.spec.app), eaos) <==>
              ClassifyScheduleTimeout(p.spec, eaos).Deferred? || (p.spec.energyAware && SufficiencyUnreported(p.spec, eaos))
  {
  }

  lemma {:induction false} SoleProfileIsFound(profiles: seq<Profile>, p: Profile)
    requires p in profiles
    requires forall q :: q in profiles && q.spec.app.namespace == p.spec.app.namespace && q.spec.app.name == p.spec.app.name ==> q == p
    ensures FindProfileForPod(profiles, Some(p.spec.app)) == Some(p)
  {
    if profiles[0] != p {
      assert p in profiles[1..];
      SoleProfileIsFound(profiles[1..], p);
    }
  }

  /** A timeout reported as Deferred is one the gate really explains, under a sole profile;
      and where sufficiency is reported the converse holds too. */
  lemma DeferredMeansGateClosed(profiles: seq<Profile>, p: Profile, eaos: Option<seq<Eao>>)
    requires p in profiles
    requires forall q :: q in profiles && q.spec.app.namespace == p.spec.app.namespace && q.spec.app.name == p.spec.app.name ==> q == p
    ensures ClassifyScheduleTimeout(p.spec, eaos).Deferred? ==> !CheckEnergyGate(profiles, Some(p.spec.app), eaos)
    ensures !SufficiencyUnreported(p.spec, eaos) && !CheckEnergyGate(profiles, Some(p.spec.app), eaos)
            ==> ClassifyScheduleTimeout(p.spec, eaos).Deferred?
  {
    SoleProfileIsFound(profiles, p);
    GateClosedIff(profiles, p, eaos);
  }

  /** The classifier and the gate do part: a concrete resource that closes the gate while a
      timeout under it is still reported as Failed. */
  lemma GateClosedYetFailed(p: Profile)
    requires p.spec.energyAware
    ensures var eaos := Some([Eao(p.spec.app.kind, p.spec.app.name, p.spec.app.namespace, "", None, Some(120.0), "", "")]);
            && !CheckEnergyGate([p], Some(p.spec.app), eaos)
            && ClassifyScheduleTimeout(p.spec, eaos).Failed?
  {
    var eao := Eao(p.spec.app.kind, p.spec.app.name, p.spec.app.namespace, "", None, Some(120.0), "", "");
    assert RefersTo(eao, p.spec.app);
  }
}
