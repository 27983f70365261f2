/** With a cooperative environment the KubernetesMachine controller settles, and where it settles is
    decided by the state it starts from. */
module MachineConvergence {
  import opened Common
  import opened Pods
  import opened Machine
  import opened MachineRuns
  import MachineOutcomes
  import PodBuilder

  /** Everything is there and every call succeeds. */
  ghost predicate Cooperates(cfg: Config, x: Inputs) {
    && x.owner.Found? && x.owner.value.dataSecretName.Some?
    && x.cluster.Found? && x.cluster.value.infrastructureReady
    && x.infraClusterFound && !x.paused && !x.getPodFails
    && x.createPod == Done && x.deletePod == Done && x.createSecret == Done
    && x.failingClaimGets == {} && x.refusedClaims == {} && x.lostClaims == {}
    && x.bootstrap.Script? && x.installOk && x.patchNodeOk
    && x.controllerPods.Some? && x.controllerPods.value != []
    && IsOrder(x.claimOrder, TemplateNames(cfg.templates))
  }

  /** How far the machine's Pod is from running and ready. */
  function PodStage(p: Pod): nat {
    var status := GetContainerStatus(p.statuses, PodBuilder.KIND);
    if p.deleting then 6
    else if status.None? then 4
    else if status.value.terminated.Some? then 7
    else if !status.value.running then 3
    else if !status.value.ready then 2
    else if !IsPodReady(p) then 1
    else 0
  }

  function Stage(cfg: Config, st: Store): nat {
    if cfg.name !in st.pods then 5
    else if !Owned(cfg, st.pods[cfg.name]) then 8
    else PodStage(st.pods[cfg.name])
  }

  /** Between reconciliations: a terminating Pod goes away, a Pod on its way up gets closer, and
      nothing else happens to the machine's Pod. A running container becomes ready only through its
      bootstrap: unless that has been started it stays as it is. */
  ghost predicate Progress(cfg: Config, st: Store, started: bool, st': Store) {
    if cfg.name !in st.pods || st.pods[cfg.name].deleting then cfg.name !in st'.pods
    else
      var p := st.pods[cfg.name];
      && cfg.name in st'.pods
      && (if PodStage(p) == 7 || PodStage(p) == 0 || (PodStage(p) == 2 && !started) then st'.pods[cfg.name] == p
          else st'.pods[cfg.name].owner == p.owner && PodStage(st'.pods[cfg.name]) < PodStage(p))
  }

  ghost predicate Started(cfg: Config, w: World, r: World) {
    Executed(cfg.name, EnableBootstrap, true) in News(w, r)
  }

  function Rank(cfg: Config, w: World): nat {
    if HasFailed(w.record) then 0
    else 3 * Stage(cfg, w.store) + (if w.record.providerID.None? then 1 else 0) + (if w.record.ready then 0 else 1)
  }

  /** A cooperative reconciliation followed by progress. */
  ghost predicate Round(cfg: Config, w: World, x: Inputs, w': World) {
    && Cooperates(cfg, x)
    && (var r := Reconcile(cfg, w, x, Patch(true, true));
        w'.record == r.record && Progress(cfg, r.store, Started(cfg, w, r), w'.store))
  }

  /** What decides the outcome: no failure yet, no foreign Pod, and without recreation no Pod that is
      already lost. */
  predicate CanSucceed(cfg: Config, w: World) {
    && !HasFailed(w.record)
    && (cfg.name in w.store.pods ==> Owned(cfg, w.store.pods[cfg.name]))
    && (!cfg.allowRecreation ==>
          && Stage(cfg, w.store) < 6
          && (Stage(cfg, w.store) == 5 ==> w.record.providerID.None?))
  }

  // ---- A cooperative reconciliation

  lemma {:induction false} ClaimsSucceed(
    wanted: map<string, NamedClaim>, order: seq<string>, claims: map<string, Claim>, x: Inputs)
    requires x.failingClaimGets == {} && x.refusedClaims == {} && x.lostClaims == {}
    ensures CreateClaims(wanted, order, claims, x).ok
  {
    if order != [] {
      ClaimsSucceed(wanted, order[..|order| - 1], claims, x);
    }
  }

  /** What a cooperative reconciliation makes of its own, non-terminating Pod. */
  lemma ProvisionSucceeds(cfg: Config, m: Record, st: Store, pod: Pod, x: Inputs)
    requires Cooperates(cfg, x) && Claimable(cfg) && !HasFailed(m) && !pod.deleting
    ensures var o := Provision(cfg, m, st, pod, x);
            if PodStage(pod) == 7 then
              if cfg.allowRecreation then o.m == m && o.store.pods == st.pods[cfg.name := pod.(deleting := true)]
              else HasFailed(o.m)
            else
              o.store.pods == st.pods && o.m == if PodStage(pod) == 0 then m.(ready := true) else m
  {
    hide CreateClaims, ClaimsOf, GetContainerStatus, IsPodReady, ProviderID, Claimable;
    ClaimsSucceed(ClaimsOf(cfg.templates, cfg), x.claimOrder, st.claims, x);
  }

  /** The record after a cooperative, patched reconciliation, and the machine's Pod. */
  lemma CooperativeStep(cfg: Config, w: World, x: Inputs)
    requires Cooperates(cfg, x) && Claimable(cfg) && !w.record.deleting && !HasFailed(w.record)
    ensures var r := Reconcile(cfg, w, x, Patch(true, true));
            var m, m' := w.record, r.record;
            && !m'.deleting
            && (cfg.name !in w.store.pods ==>
                  if !cfg.allowRecreation && m.providerID.Some? then HasFailed(m')
                  else && !HasFailed(m') && m'.providerID == m.providerID
                       && m'.ready == (!cfg.allowRecreation && m.ready)
                       && cfg.name in r.store.pods && Owned(cfg, r.store.pods[cfg.name])
                       && PodStage(r.store.pods[cfg.name]) == 4)
            && (cfg.name in w.store.pods ==>
                  var pod := w.store.pods[cfg.name];
                  if !Owned(cfg, pod) then HasFailed(m')
                  else if m.providerID.None? then
                    !HasFailed(m') && m'.providerID.Some? && m'.ready == m.ready && r.store.pods == w.store.pods
                  else if PodStage(pod) >= 6 && !cfg.allowRecreation then HasFailed(m')
                  else
                    && !HasFailed(m') && m'.providerID == m.providerID
                    && m'.ready == (if PodStage(pod) == 6 then false else if PodStage(pod) == 0 then true else m.ready)
                    && r.store.pods == (if PodStage(pod) == 7 then w.store.pods[cfg.name := pod.(deleting := true)]
                                        else w.store.pods))
  {
    hide Provision, NewPod, Claimable, ProviderID, GetContainerStatus, IsPodReady;
    var om, cl := x.owner.value, x.cluster.value;
    NewPodOwned(cfg, cl, om, x.podOrder);
    NewPodStage(NewPod(cfg, cl, om, x.podOrder));
    var m1 := ReconcileVersion(w.record, om);
    var m2 := m1.(finalizers := m1.finalizers + {FINALIZER, FOREGROUND});
    if cfg.name in w.store.pods && !w.store.pods[cfg.name].deleting {
      ProvisionSucceeds(cfg, m2, w.store, w.store.pods[cfg.name], x);
    }
    if cfg.name in w.store.pods {
      StageSix(w.store.pods[cfg.name]);
    }
  }

  lemma NewPodStage(p: Pod)
    requires p.statuses == [] && !p.deleting
    ensures PodStage(p) == 4
  {}

  lemma StageSix(p: Pod)
    ensures PodStage(p) == 6 <==> p.deleting
    ensures PodStage(p) == 7 ==> PodStage(p.(deleting := true)) == 6
    ensures PodStage(p) <= 7 && PodStage(p) != 5
  {
    hide GetContainerStatus, IsPodReady;
  }

  /** A cooperative reconciliation starts the bootstrap of every running container. */
  lemma StartsBootstrap(cfg: Config, w: World, x: Inputs)
    requires Cooperates(cfg, x) && Claimable(cfg) && !w.record.deleting && !HasFailed(w.record)
    requires w.record.providerID.Some? && cfg.name in w.store.pods && Owned(cfg, w.store.pods[cfg.name])
    requires PodStage(w.store.pods[cfg.name]) <= 2
    ensures Started(cfg, w, Reconcile(cfg, w, x, Patch(true, true)))
  {
    MachineOutcomes.ClaimableExact(cfg);
    assert MachineOutcomes.Up(cfg, w, x);
    hide *;
    StartedMeans(cfg, w, Reconcile(cfg, w, x, Patch(true, true)));
    CooperatesMeans(cfg, x);
    MachineOutcomes.BootstrapStarts(cfg, w, x, Patch(true, true));
  }

  lemma StartedMeans(cfg: Config, w: World, r: World)
    ensures Started(cfg, w, r) <==> Executed(cfg.name, EnableBootstrap, true) in News(w, r)
  {
    hide News;
  }

  lemma CooperatesMeans(cfg: Config, x: Inputs)
    requires Cooperates(cfg, x)
    ensures x.installOk && IsOrder(x.claimOrder, TemplateNames(cfg.templates))
  {}

  // ---- Rounds

  /** Each round keeps the answer to whether the machine can succeed, and unless it has failed or is
      at rank zero already, brings the rank down. */
  lemma RoundConverges(cfg: Config, w: World, x: Inputs, w': World)
    requires Claimable(cfg) && !w.record.deleting
    ensures Round(cfg, w, x, w') ==>
              && !w'.record.deleting
              && (HasFailed(w.record) ==> HasFailed(w'.record))
              && (CanSucceed(cfg, w) <==> CanSucceed(cfg, w'))
              && (HasFailed(w'.record) || Rank(cfg, w') < Rank(cfg, w) || Rank(cfg, w) == Rank(cfg, w') == 0)
  {
    if !Round(cfg, w, x, w') {
      return;
    }
    var r := Reconcile(cfg, w, x, Patch(true, true));
    if HasFailed(w.record) {
      BodyHolds(cfg, w.record, w.store, x);
      hide ReconcileBody;
    } else {
      CooperativeStep(cfg, w, x);
      hide Reconcile, Cooperates, Claimable, PodStage, Started;
      if cfg.name in w.store.pods {
        StageSix(w.store.pods[cfg.name]);
        if w.record.providerID.Some? && Owned(cfg, w.store.pods[cfg.name]) && PodStage(w.store.pods[cfg.name]) == 2 {
          StartsBootstrap(cfg, w, x);
        }
      }
      if cfg.name in r.store.pods {
        StageSix(r.store.pods[cfg.name]);
      }
      if cfg.name in w'.store.pods {
        StageSix(w'.store.pods[cfg.name]);
      }
    }
  }

  /** A run of rounds. */
  ghost predicate Rounds(cfg: Config, ws: seq<World>, xs: seq<Inputs>) {
    && |ws| == |xs| + 1
    && forall i :: 0 <= i < |xs| ==> Round(cfg, ws[i], xs[i], ws[i + 1])
  }

  lemma {:induction false} RoundsConverge(cfg: Config, ws: seq<World>, xs: seq<Inputs>, i: nat)
    requires Claimable(cfg) && Rounds(cfg, ws, xs) && !ws[0].record.deleting && i <= |xs|
    ensures !ws[i].record.deleting
    ensures CanSucceed(cfg, ws[0]) <==> CanSucceed(cfg, ws[i])
    ensures HasFailed(ws[i].record) || Rank(cfg, ws[i]) == 0 || Rank(cfg, ws[i]) + i <= Rank(cfg, ws[0])
  {
    hide Round, Rank, CanSucceed, Claimable;
    if i > 0 {
      RoundsConverge(cfg, ws, xs, i - 1);
      assert Round(cfg, ws[i - 1], xs[i - 1], ws[i]);
      RoundConverges(cfg, ws[i - 1], xs[i - 1], ws[i]);
    }
  }

  /** After as many rounds as the starting rank, the machine is ready or has failed, and it is ready
      exactly when it could succeed at the start. */
  lemma Converges(cfg: Config, ws: seq<World>, xs: seq<Inputs>)
    requires Claimable(cfg) && Rounds(cfg, ws, xs) && !ws[0].record.deleting
    requires |xs| >= Rank(cfg, ws[0])
    ensures var last := ws[|xs|];
            if CanSucceed(cfg, ws[0])
            then !HasFailed(last.record) && last.record.ready && last.record.providerID.Some?
                 && Stage(cfg, last.store) == 0
            else HasFailed(last.record)
  {
    RoundsConverge(cfg, ws, xs, |xs|);
    hide Rounds, Stage, Claimable;
  }

  /** In particular a machine that allows recreation, has not failed and meets no foreign Pod always
      becomes ready. */
  lemma RecreationConverges(cfg: Config, ws: seq<World>, xs: seq<Inputs>)
    requires cfg.allowRecreation && Claimable(cfg) && Rounds(cfg, ws, xs) && |xs| >= Rank(cfg, ws[0])
    requires !ws[0].record.deleting && !HasFailed(ws[0].record) && NoForeignPod(cfg, ws[0].store)
    ensures ws[|xs|].record.ready && !HasFailed(ws[|xs|].record)
  {
    hide Rounds, Stage, Claimable, Rank;
    Converges(cfg, ws, xs);
  }

  /** At rank zero nothing is left to do: once such a record has been written, any later cooperative
      reconciliation writes it again unchanged, unless the owner's version has changed. */
  lemma RankZeroIsStable(cfg: Config, w: World, x: Inputs, y: Inputs)
    requires Cooperates(cfg, x) && Cooperates(cfg, y) && Claimable(cfg) && !w.record.deleting && !HasFailed(w.record)
    requires Rank(cfg, w) == 0 && CanSucceed(cfg, w)
    ensures var once := Reconcile(cfg, w, x, Patch(true, true));
            && Rank(cfg, once) == 0
            && (Reconcile(cfg, once, y, Patch(true, true)).record == once.record <==>
                y.owner.value.version.None? || y.owner.value.version == once.record.version)
  {
    var once := Reconcile(cfg, w, x, Patch(true, true));
    RankZeroRecord(cfg, w, x);
    assert once.store.pods == w.store.pods;
    RankZeroRecord(cfg, once, y);
  }

  lemma RankZeroRecord(cfg: Config, w: World, x: Inputs)
    requires Cooperates(cfg, x) && Claimable(cfg) && !w.record.deleting && !HasFailed(w.record)
    requires Rank(cfg, w) == 0 && CanSucceed(cfg, w)
    ensures var r := Reconcile(cfg, w, x, Patch(true, true));
            && r.store.pods == w.store.pods
            && r.record == ReconcileVersion(w.record, x.owner.value).(
                             finalizers := w.record.finalizers + {FINALIZER, FOREGROUND}, phase := Running)
  {
    hide Provision, NewPod, Claimable, ProviderID, GetContainerStatus, IsPodReady;
    var pod := w.store.pods[cfg.name];
    var m1 := ReconcileVersion(w.record, x.owner.value);
    var m2 := m1.(finalizers := m1.finalizers + {FINALIZER, FOREGROUND});
    ProvisionSucceeds(cfg, m2, w.store, pod, x);
  }

  // ---- A lost status patch in a run

  /** Every machine that allows recreation has a run in which its Pod is created while the record says
      ready: it becomes ready, its Pod is lost, and the status patch of the recreating step fails. */
  lemma RunKeepsReady(cfg: Config, x: Inputs, st: Store, pod: Pod) returns (ws: seq<World>, steps: seq<Step>)
    requires cfg.allowRecreation && Claimable(cfg) && Cooperates(cfg, x)
    requires Owned(cfg, pod) && PodStage(pod) == 0
    ensures IsRun(cfg, ws, steps) && |steps| == 5 && ws[0].store == st
    ensures steps[4] == Reconciled(x, Patch(true, false))
    ensures cfg.name !in ws[4].store.pods && cfg.name in ws[5].store.pods
    ensures ws[4].record.ready && ws[5].record.ready
  {
    var both := Patch(true, true);
    var w0 := World(Record(false, {}, None, None, None, Unset, false, None), st, []);
    var w1 := w0.(store := st.(pods := map[cfg.name := pod]));
    var w2 := Reconcile(cfg, w1, x, both);
    var w3 := Reconcile(cfg, w2, x, both);
    var w4 := w3.(store := w3.store.(pods := map[]));
    var w5 := Reconcile(cfg, w4, x, Patch(true, false));
    hide PodStage, Reconcile, Cooperates, Claimable;
    ReadyInTwo(cfg, w1, x, pod);
    RecreatedLost(cfg, w4, x);
    ws := [w0, w1, w2, w3, w4, w5];
    steps := [PodsChanged(map[cfg.name := pod]), Reconciled(x, both), Reconciled(x, both), PodsChanged(map[]),
              Reconciled(x, Patch(true, false))];
    hide Owned;
    assert forall i: nat :: i < 5 ==> StepTaken(cfg, ws, steps, i);
  }

  lemma ReadyInTwo(cfg: Config, w: World, x: Inputs, pod: Pod)
    requires Claimable(cfg) && Cooperates(cfg, x) && Owned(cfg, pod) && PodStage(pod) == 0
    requires !w.record.deleting && !HasFailed(w.record) && w.record.providerID.None?
    requires cfg.name in w.store.pods && w.store.pods[cfg.name] == pod
    ensures var r := Reconcile(cfg, Reconcile(cfg, w, x, Patch(true, true)), x, Patch(true, true)).record;
            r.ready && !r.deleting && !HasFailed(r)
  {
    hide PodStage, Reconcile, Cooperates, Claimable;
    CooperativeStep(cfg, w, x);
    CooperativeStep(cfg, Reconcile(cfg, w, x, Patch(true, true)), x);
  }

  lemma RecreatedLost(cfg: Config, w: World, x: Inputs)
    requires cfg.allowRecreation && Claimable(cfg) && Cooperates(cfg, x)
    requires w.record.ready && !w.record.deleting && !HasFailed(w.record) && cfg.name !in w.store.pods
    ensures var r := Reconcile(cfg, w, x, Patch(true, false)); r.record.ready && cfg.name in r.store.pods
  {
    CooperativeStep(cfg, w, x);
    hide ReconcileBody, Cooperates, Claimable;
  }
}
