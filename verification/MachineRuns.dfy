/** What holds over whole runs of the KubernetesMachine controller, in any environment. */
module MachineRuns {
  import opened Common
  import opened Pods
  import opened Machine
  import PodBuilder

  // ---- Runs

  /** A reconciliation, or anything the environment may do: change Pods, Secrets and claims in any
      way, ask for deletion, or let go of the dependents' finalizer. */
  datatype Step =
    | Reconciled(x: Inputs, p: Patch)
    | PodsChanged(pods: map<string, Pod>)
    | SecretsChanged(secrets: map<string, Secret>)
    | ClaimsChanged(claims: map<string, Claim>)
    | DeletionRequested
    | DependentsGone

  function Next(cfg: Config, w: World, s: Step): World {
    match s
    case Reconciled(x, p) => Reconcile(cfg, w, x, p)
    case PodsChanged(pods) => w.(store := w.store.(pods := pods))
    case SecretsChanged(secrets) => w.(store := w.store.(secrets := secrets))
    case ClaimsChanged(claims) => w.(store := w.store.(claims := claims))
    case DeletionRequested => w.(record := w.record.(deleting := true))
    case DependentsGone =>
      if w.record.deleting then w.(record := w.record.(finalizers := w.record.finalizers - {FOREGROUND})) else w
  }

  /** A machine no controller has seen yet; the store may hold anything. */
  predicate Fresh(w: World) {
    w.record == Record(false, {}, None, None, None, Unset, false, None) && w.trace == []
  }

  ghost predicate StepTaken(cfg: Config, ws: seq<World>, steps: seq<Step>, i: nat)
    requires |ws| == |steps| + 1 && i < |steps|
  {
    ws[i + 1] == Next(cfg, ws[i], steps[i])
  }

  /** A run: from a fresh machine, each world follows from the one before by one step. */
  ghost predicate IsRun(cfg: Config, ws: seq<World>, steps: seq<Step>) {
    && |ws| == |steps| + 1
    && Fresh(ws[0])
    && forall i: nat :: i < |steps| ==> StepTaken(cfg, ws, steps, i)
  }

  /** The events of one step. */
  function News(w: World, w': World): seq<Event> {
    if |w.trace| <= |w'.trace| then w'.trace[|w.trace|..] else []
  }

  predicate PodEvent(e: Event) { e.CreatedPod? || e.DeletedPod? }

  // ---- One reconciliation

  lemma {:induction false} ClaimsOnlyGrow(
    wanted: map<string, NamedClaim>, order: seq<string>, claims: map<string, Claim>, x: Inputs)
    ensures var o := CreateClaims(wanted, order, claims, x);
            && (forall n :: n in claims ==> n in o.claims && o.claims[n] == claims[n])
            && (forall e :: e in o.events ==> e.CreatedClaim?)
            && (o.ok ==> forall n :: n in order && n in wanted ==> wanted[n].name in o.claims)
  {
    if order != [] {
      ClaimsOnlyGrow(wanted, order[..|order| - 1], claims, x);
      assert order == order[..|order| - 1] + [order[|order| - 1]];
    }
  }

  /** Everything a reconciliation promises about the record in memory and its events, whatever it
      reads and however its calls end. */
  ghost predicate BodyFacts(cfg: Config, m: Record, o: Outcome) {
    && o.m.deleting == m.deleting
    && (m.providerID.Some? ==> o.m.providerID == m.providerID)
    && (o.m.providerID == m.providerID || o.m.providerID == Some(ProviderID(cfg)))
    && (HasFailed(m) ==> HasFailed(o.m))
    && (o.m.ready && !m.ready ==> m.providerID.Some?)
    && (!cfg.allowRecreation && m.ready ==> o.m.ready)
    && (!m.deleting ==> m.finalizers <= o.m.finalizers)
    && (m.deleting ==> o.m.finalizers <= m.finalizers && m.finalizers - {FINALIZER} <= o.m.finalizers)
    && (o.m.providerID != m.providerID ==> !m.deleting && {FINALIZER, FOREGROUND} <= o.m.finalizers)
    && (!cfg.allowRecreation && m.providerID.Some? ==> forall e :: e in o.events ==> !PodEvent(e))
    && (HasFailed(m) && !m.deleting ==>
          o.events == [] && o.m.failureReason == m.failureReason && o.m.failureMessage == m.failureMessage)
    && (forall e :: e in o.events && e.CreatedPod? ==>
          !m.deleting && (cfg.allowRecreation ==> !o.m.ready)
          && (!cfg.allowRecreation ==> m.providerID.None? && o.m.ready == m.ready))
  }

  lemma FollowContainerFacts(cfg: Config, m: Record, st: Store, pod: Pod, x: Inputs)
    requires m.providerID.Some? && !HasFailed(m)
    ensures var o := FollowContainer(cfg, m, st, pod, x);
            && o.m.(ready := m.ready, failureReason := m.failureReason, failureMessage := m.failureMessage) == m
            && (m.ready ==> o.m.ready)
            && (forall e :: e in o.events ==> !e.CreatedPod? && (e.DeletedPod? ==> cfg.allowRecreation))
            && o.store.claims == st.claims && o.store.secrets == st.secrets
  {}

  lemma ProvisionFacts(cfg: Config, m: Record, st: Store, pod: Pod, x: Inputs)
    requires m.providerID.Some? && !HasFailed(m)
    ensures var o := Provision(cfg, m, st, pod, x);
            && o.m.(ready := m.ready, failureReason := m.failureReason, failureMessage := m.failureMessage) == m
            && (m.ready ==> o.m.ready)
            && (forall e :: e in o.events ==> !e.CreatedPod? && (e.DeletedPod? ==> cfg.allowRecreation))
            && (forall n :: n in st.claims ==> n in o.store.claims && o.store.claims[n] == st.claims[n])
  {
    hide FollowContainer, CreateClaims, ClaimsOf;
    var c := CreateClaims(ClaimsOf(cfg.templates, cfg), x.claimOrder, st.claims, x);
    ClaimsOnlyGrow(ClaimsOf(cfg.templates, cfg), x.claimOrder, st.claims, x);
    var st' := st.(claims := c.claims);
    FollowContainerFacts(cfg, m, st', pod, x);
    var secret := CloudInitSecret(cfg, if x.bootstrap.Script? then x.bootstrap.text else "");
    FollowContainerFacts(cfg, m, st'.(secrets := st'.secrets[SecretName(cfg) := secret]), pod, x);
  }

  /** The same, once the finalizers are on. */
  lemma MissingFacts(cfg: Config, cl: Cluster, om: OwnerMachine, m: Record, st: Store, x: Inputs)
    requires !m.deleting && !HasFailed(m)
    ensures BodyFacts(cfg, m, PodMissing(cfg, cl, om, m, st, x))
  {
    hide NewPod, ProviderID, Claimable;
  }

  lemma PresentFacts(cfg: Config, m: Record, st: Store, pod: Pod, x: Inputs)
    requires !m.deleting && !HasFailed(m) && {FINALIZER, FOREGROUND} <= m.finalizers
    ensures BodyFacts(cfg, m, PodPresent(cfg, m, st, pod, x))
  {
    hide Provision, ProviderID;
    if m.providerID.Some? {
      ProvisionFacts(cfg, m, st, pod, x);
    }
  }

  lemma NormalFacts(cfg: Config, cl: Cluster, om: OwnerMachine, m: Record, st: Store, x: Inputs)
    requires !m.deleting
    ensures BodyFacts(cfg, m, ReconcileNormal(cfg, cl, om, m, st, x))
  {
    hide PodMissing, PodPresent, ProviderID;
    if !HasFailed(m) {
      var m' := m.(finalizers := m.finalizers + {FINALIZER, FOREGROUND});
      MissingFacts(cfg, cl, om, m', st, x);
      if cfg.name in st.pods {
        PresentFacts(cfg, m', st, st.pods[cfg.name], x);
      }
    }
  }

  lemma BodyHolds(cfg: Config, m: Record, st: Store, x: Inputs)
    ensures BodyFacts(cfg, m, ReconcileBody(cfg, m, st, x))
  {
    hide ReconcileNormal;
    if x.owner.Found? && x.cluster.Found? {
      var m' := ReconcileVersion(m, x.owner.value);
      if !m'.deleting {
        NormalFacts(cfg, x.cluster.value, x.owner.value, m', st, x);
      }
    }
  }

  // ---- Invariants that no patch failure can break

  ghost predicate Inv(cfg: Config, w: World) {
    && (w.record.providerID.None? || w.record.providerID == Some(ProviderID(cfg)))
    && (w.record.ready ==> w.record.providerID.Some?)
    && (w.record.providerID.Some? && !w.record.deleting ==> {FINALIZER, FOREGROUND} <= w.record.finalizers)
  }

  /** What is never undone. */
  ghost predicate Grows(cfg: Config, w: World, w': World) {
    && (w.record.deleting ==> w'.record.deleting)
    && (w.record.providerID.Some? ==> w'.record.providerID == w.record.providerID)
    && (HasFailed(w.record) ==> HasFailed(w'.record))
    && (!cfg.allowRecreation && w.record.ready ==> w'.record.ready)
    && w.trace <= w'.trace
    && (!cfg.allowRecreation && w.record.providerID.Some? ==>
          forall i :: |w.trace| <= i < |w'.trace| ==> !PodEvent(w'.trace[i]))
    && (w.record.deleting && FINALIZER !in w.record.finalizers ==> FINALIZER !in w'.record.finalizers)
  }

  lemma StepGrows(cfg: Config, w: World, s: Step)
    requires Inv(cfg, w)
    ensures Inv(cfg, Next(cfg, w, s)) && Grows(cfg, w, Next(cfg, w, s))
  {
    if s.Reconciled? {
      hide ReconcileBody, ProviderID;
      BodyHolds(cfg, w.record, w.store, s.x);
      var o := ReconcileBody(cfg, w.record, w.store, s.x);
      var w' := Next(cfg, w, s);
      forall i | |w.trace| <= i < |w'.trace| ensures w'.trace[i] in o.events {
        assert w'.trace[i] == o.events[i - |w.trace|];
      }
    }
  }

  lemma {:induction false} RunInv(cfg: Config, ws: seq<World>, steps: seq<Step>, i: nat)
    requires IsRun(cfg, ws, steps) && i <= |steps|
    ensures Inv(cfg, ws[i])
  {
    hide Next, Grows;
    if i > 0 {
      RunInv(cfg, ws, steps, i - 1);
      assert StepTaken(cfg, ws, steps, i - 1);
      StepGrows(cfg, ws[i - 1], steps[i - 1]);
    }
  }

  lemma GrowsReflexive(cfg: Config, w: World)
    ensures Grows(cfg, w, w)
  {}

  lemma GrowsTransitive(cfg: Config, a: World, b: World, c: World)
    requires Grows(cfg, a, b) && Grows(cfg, b, c)
    ensures Grows(cfg, a, c)
  {
    assert forall i :: 0 <= i < |b.trace| ==> b.trace[i] == c.trace[i];
  }

  lemma {:induction false} RunGrows(cfg: Config, ws: seq<World>, steps: seq<Step>, i: nat, j: nat)
    requires IsRun(cfg, ws, steps) && i <= j <= |steps|
    ensures Grows(cfg, ws[i], ws[j])
    decreases j
  {
    hide Next, Grows, Inv, Fresh;
    if i == j {
      GrowsReflexive(cfg, ws[i]);
    } else {
      RunGrows(cfg, ws, steps, i, j - 1);
      RunInv(cfg, ws, steps, j - 1);
      assert StepTaken(cfg, ws, steps, j - 1);
      StepGrows(cfg, ws[j - 1], steps[j - 1]);
      GrowsTransitive(cfg, ws[i], ws[j - 1], ws[j]);
    }
  }

  /** In every run from a fresh machine, whatever fails: the provider ID is absent or
      `kubernetes://namespace/name`, it never changes once it is recorded, and a ready machine has
      one. */
  lemma ProviderIDStable(cfg: Config, ws: seq<World>, steps: seq<Step>, i: nat, j: nat)
    requires IsRun(cfg, ws, steps) && i <= j <= |steps|
    ensures var a, b := ws[i].record, ws[j].record;
            && (a.providerID.None? || a.providerID == Some("kubernetes://" + cfg.namespace + "/" + cfg.name))
            && (a.providerID.Some? ==> b.providerID == a.providerID)
            && (a.ready ==> a.providerID.Some?)
  {
    hide StepTaken;
    RunInv(cfg, ws, steps, i);
    RunGrows(cfg, ws, steps, i, j);
  }

  /** Without recreation, once the provider ID is recorded no run creates or deletes a Pod again, and
      a machine that is ready stays ready. */
  lemma NoRecreation(cfg: Config, ws: seq<World>, steps: seq<Step>, i: nat, j: nat)
    requires IsRun(cfg, ws, steps) && i <= j <= |steps| && !cfg.allowRecreation
    requires ws[i].record.providerID.Some?
    ensures var a, b := ws[i], ws[j];
            && a.trace <= b.trace
            && (forall k :: |a.trace| <= k < |b.trace| ==> !b.trace[k].CreatedPod? && !b.trace[k].DeletedPod?)
            && (a.record.ready ==> b.record.ready)
  {
    hide StepTaken;
    RunGrows(cfg, ws, steps, i, j);
  }

  /** A failure is never cleared; while it stands and the machine is not being deleted, a
      reconciliation touches nothing and keeps the failure as it is. */
  lemma FailureFreezes(cfg: Config, ws: seq<World>, steps: seq<Step>, i: nat, j: nat)
    requires IsRun(cfg, ws, steps) && i <= j < |steps| && HasFailed(ws[i].record)
    ensures var a, b := ws[j], ws[j + 1];
            && HasFailed(a.record)
            && (steps[j].Reconciled? && !a.record.deleting ==>
                  && b.store == a.store && b.trace == a.trace
                  && b.record.failureReason == a.record.failureReason
                  && b.record.failureMessage == a.record.failureMessage
                  && b.record.ready == a.record.ready && b.record.providerID == a.record.providerID)
  {
    hide ReconcileBody;
    RunGrows(cfg, ws, steps, i, j);
    var a := ws[j];
    assert HasFailed(a.record);
    assert StepTaken(cfg, ws, steps, j);
    if steps[j].Reconciled? && !a.record.deleting {
      FailedBody(cfg, a.record, a.store, steps[j].x);
      assert a.trace + [] == a.trace;
    }
  }

  lemma FailedBody(cfg: Config, m: Record, st: Store, x: Inputs)
    requires HasFailed(m) && !m.deleting
    ensures var o := ReconcileBody(cfg, m, st, x);
            && o.store == st && o.events == []
            && o.m.(version := m.version) == m
  {}

  // ---- Creating a Pod clears Ready

  lemma NewsOfReconcile(cfg: Config, w: World, x: Inputs, p: Patch)
    ensures News(w, Reconcile(cfg, w, x, p)) == ReconcileBody(cfg, w.record, w.store, x).events
  {
    hide ReconcileBody;
  }

  /** After a step that creates a Pod, in either recreation mode, the machine is ready exactly when it
      was ready before and the step's own status patch was lost. */
  lemma CreateClearsReady(cfg: Config, ws: seq<World>, steps: seq<Step>, i: nat)
    requires IsRun(cfg, ws, steps) && i < |steps| && steps[i].Reconciled?
    ensures forall e :: e in News(ws[i], ws[i + 1]) && e.CreatedPod? ==>
              (ws[i + 1].record.ready <==> ws[i].record.ready && !steps[i].p.status)
  {
    hide ReconcileBody;
    var a := ws[i];
    RunInv(cfg, ws, steps, i);
    assert StepTaken(cfg, ws, steps, i);
    BodyHolds(cfg, a.record, a.store, steps[i].x);
    NewsOfReconcile(cfg, a, steps[i].x, steps[i].p);
  }

  /** It does not survive a lost status patch: with recreation, the Pod of a ready machine is created
      again while the persisted record still says ready. */
  lemma LostPatchKeepsReady(cfg: Config, w: World, x: Inputs, om: OwnerMachine, cl: Cluster)
    requires cfg.allowRecreation && Claimable(cfg)
    requires w.record.ready && !w.record.deleting && !HasFailed(w.record) && cfg.name !in w.store.pods
    requires x.owner == Found(om) && om.dataSecretName.Some? && x.cluster == Found(cl) && cl.infrastructureReady
    requires x.infraClusterFound && !x.paused && !x.getPodFails && x.createPod == Done
    ensures var w' := Reconcile(cfg, w, x, Patch(true, false));
            cfg.name in w'.store.pods && w'.record.ready && |w'.trace| == |w.trace| + 1
    ensures !Reconcile(cfg, w, x, Patch(true, true)).record.ready
  {
    hide NewPod;
  }

  // ---- Failures with recreation

  /** Nobody but the controller puts a Pod under the machine's name that the machine does not own. */
  ghost predicate NoForeignPod(cfg: Config, st: Store) {
    cfg.name in st.pods ==> Owned(cfg, st.pods[cfg.name])
  }

  ghost predicate Friendly(cfg: Config, s: Step) {
    && (s.PodsChanged? && cfg.name in s.pods ==> Owned(cfg, s.pods[cfg.name]))
    && !s.DeletionRequested?
  }

  /** The Secret that is checked is the one just built, so the check cannot fail; a foreign Secret
      that already has the name goes unnoticed. */
  lemma SecretCheckUnreachable(cfg: Config, m: Record, st: Store, pod: Pod, x: Inputs, text: string)
    ensures CheckSecret(cfg, m, CloudInitSecret(cfg, text)) == m
    ensures !HasFailed(m) && x.bootstrap == Script(text) && x.createSecret == Done && SecretName(cfg) in st.secrets ==>
              StoreSecret(cfg, m, st, pod, x) == FollowContainer(cfg, m, st, pod, x)
  {
    hide FollowContainer;
    var o := FollowContainer(cfg, m, st, pod, x);
    assert [] + o.events == o.events;
  }

  lemma FollowNeverFails(cfg: Config, m: Record, st: Store, pod: Pod, x: Inputs)
    requires cfg.allowRecreation && !HasFailed(m) && Owned(cfg, pod)
    ensures var o := FollowContainer(cfg, m, st, pod, x);
            && !HasFailed(o.m)
            && (o.store.pods == st.pods || o.store.pods == st.pods[cfg.name := pod.(deleting := true)])
  {}

  lemma ProvisionNeverFails(cfg: Config, m: Record, st: Store, pod: Pod, x: Inputs)
    requires cfg.allowRecreation && !HasFailed(m) && Owned(cfg, pod)
    ensures var o := Provision(cfg, m, st, pod, x);
            && !HasFailed(o.m)
            && (o.store.pods == st.pods || o.store.pods == st.pods[cfg.name := pod.(deleting := true)])
  {
    hide FollowContainer, CreateClaims, ClaimsOf;
    var c := CreateClaims(ClaimsOf(cfg.templates, cfg), x.claimOrder, st.claims, x);
    var st' := st.(claims := c.claims);
    FollowNeverFails(cfg, m, st', pod, x);
    var secret := CloudInitSecret(cfg, if x.bootstrap.Script? then x.bootstrap.text else "");
    FollowNeverFails(cfg, m, st'.(secrets := st'.secrets[SecretName(cfg) := secret]), pod, x);
  }

  lemma NewPodOwned(cfg: Config, cl: Cluster, om: OwnerMachine, order: seq<string>)
    ensures Owned(cfg, NewPod(cfg, cl, om, order)) && !NewPod(cfg, cl, om, order).deleting
    ensures NewPod(cfg, cl, om, order).statuses == []
  {
    hide PodBuilder.MachineSpec, PodBuilder.StandardLayout;
  }

  lemma NormalNeverFails(cfg: Config, cl: Cluster, om: OwnerMachine, m: Record, st: Store, x: Inputs)
    requires cfg.allowRecreation && !HasFailed(m) && NoForeignPod(cfg, st)
    ensures var o := ReconcileNormal(cfg, cl, om, m, st, x); !HasFailed(o.m) && NoForeignPod(cfg, o.store)
  {
    hide Provision, ProviderID, Claimable, NewPod;
    NewPodOwned(cfg, cl, om, x.podOrder);
    if cfg.name in st.pods {
      var m' := m.(finalizers := m.finalizers + {FINALIZER, FOREGROUND});
      ProvisionNeverFails(cfg, m', st, st.pods[cfg.name], x);
    }
  }

  lemma FriendlyStep(cfg: Config, w: World, s: Step)
    requires cfg.allowRecreation && Friendly(cfg, s)
    requires !HasFailed(w.record) && !w.record.deleting && NoForeignPod(cfg, w.store)
    ensures var w' := Next(cfg, w, s); !HasFailed(w'.record) && !w'.record.deleting && NoForeignPod(cfg, w'.store)
  {
    if s.Reconciled? {
      BodyHolds(cfg, w.record, w.store, s.x);
      hide ReconcileNormal;
      if s.x.owner.Found? && s.x.cluster.Found? {
        var m := ReconcileVersion(w.record, s.x.owner.value);
        NormalNeverFails(cfg, s.x.cluster.value, s.x.owner.value, m, w.store, s.x);
      }
    }
  }

  /** With recreation, a run in which no foreign Pod takes the machine's name and no deletion is
      requested never records a failure, whatever calls and patches fail. */
  lemma {:induction false} RecreationNeverFails(cfg: Config, ws: seq<World>, steps: seq<Step>, i: nat)
    requires IsRun(cfg, ws, steps) && cfg.allowRecreation && NoForeignPod(cfg, ws[0].store) && i <= |steps|
    requires forall s :: s in steps ==> Friendly(cfg, s)
    ensures !HasFailed(ws[i].record)
    ensures !ws[i].record.deleting && NoForeignPod(cfg, ws[i].store)
  {
    hide Next, NoForeignPod;
    if i > 0 {
      RecreationNeverFails(cfg, ws, steps, i - 1);
      assert StepTaken(cfg, ws, steps, i - 1);
      FriendlyStep(cfg, ws[i - 1], steps[i - 1]);
    }
  }

  // ---- Giving up the finalizer

  /** The step may give up the machine's finalizer: the machine is being deleted, and if it is a
      control-plane machine of a cluster that is not itself being deleted, its own Pod is gone or has
      been reset. */
  ghost predicate MayRelease(cfg: Config, w: World, s: Step, news: seq<Event>) {
    && s.Reconciled? && w.record.deleting && s.x.owner.Found? && s.x.cluster.Found?
    && (s.x.owner.value.controlPlane && !s.x.cluster.value.deleting ==>
          || cfg.name !in w.store.pods
          || !Owned(cfg, w.store.pods[cfg.name])
          || Executed(cfg.name, KubeadmReset, true) in news)
  }

  lemma ReleaseStep(cfg: Config, w: World, s: Step)
    ensures FINALIZER in w.record.finalizers && FINALIZER !in Next(cfg, w, s).record.finalizers ==>
              MayRelease(cfg, w, s, News(w, Next(cfg, w, s)))
  {
    assert FINALIZER != FOREGROUND by { assert |FOREGROUND| == 18; assert |FINALIZER| == 48; }
    if s.Reconciled? {
      NewsOfReconcile(cfg, w, s.x, s.p);
      hide ReconcileNormal;
      if s.x.owner.Found? && s.x.cluster.Found? && !w.record.deleting {
        NormalFacts(cfg, s.x.cluster.value, s.x.owner.value, ReconcileVersion(w.record, s.x.owner.value), w.store, s.x);
      }
    }
  }

  /** In every run, a machine that loses its finalizer lost it in a step that was allowed to release
      it, and from then on it never has it again. */
  lemma FinalizerReleased(cfg: Config, ws: seq<World>, steps: seq<Step>, i: nat, j: nat)
    returns (k: nat)
    requires IsRun(cfg, ws, steps) && i <= j <= |steps|
    requires FINALIZER in ws[i].record.finalizers && FINALIZER !in ws[j].record.finalizers
    ensures i <= k < j
    ensures MayRelease(cfg, ws[k], steps[k], News(ws[k], ws[k + 1]))
    ensures forall l :: k < l <= |steps| ==> FINALIZER !in ws[l].record.finalizers
  {
    k := FirstLoss(ws, i, j);
    assert StepTaken(cfg, ws, steps, k);
    hide Next, News, Fresh;
    ReleaseStep(cfg, ws[k], steps[k]);
    var k' := k;
    forall l | k' < l <= |steps| ensures FINALIZER !in ws[l].record.finalizers {
      GoneForGood(cfg, ws, steps, k', l);
    }
  }

  lemma GoneForGood(cfg: Config, ws: seq<World>, steps: seq<Step>, k: nat, l: nat)
    requires IsRun(cfg, ws, steps) && k < l <= |steps|
    requires ws[k].record.deleting && FINALIZER !in ws[k + 1].record.finalizers
    ensures FINALIZER !in ws[l].record.finalizers
  {
    hide StepTaken;
    RunGrows(cfg, ws, steps, k, k + 1);
    RunGrows(cfg, ws, steps, k + 1, l);
  }

  lemma {:induction false} FirstLoss(ws: seq<World>, i: nat, j: nat) returns (k: nat)
    requires i <= j < |ws|
    requires FINALIZER in ws[i].record.finalizers && FINALIZER !in ws[j].record.finalizers
    ensures i <= k < j
    ensures FINALIZER in ws[k].record.finalizers && FINALIZER !in ws[k + 1].record.finalizers
    decreases j
  {
    if FINALIZER in ws[j - 1].record.finalizers {
      k := j - 1;
    } else {
      k := FirstLoss(ws, i, j - 1);
    }
  }

  // ---- First matches

  /** The first condition of type Ready says True. */
  ghost predicate SaysReady(p: Pod) {
    exists i :: 0 <= i < |p.conditions| && p.conditions[i] == Condition("Ready", "True") &&
                forall j :: 0 <= j < i ==> p.conditions[j].kind != "Ready"
  }

  /** The status found is the first of its name; none is found only when there is none. */
  lemma {:induction false} FirstStatus(statuses: seq<ContainerStatus>, name: string, i: nat)
    requires i <= |statuses| && forall j :: 0 <= j < i ==> statuses[j].name != name
    requires i < |statuses| ==> statuses[i].name == name
    ensures GetContainerStatus(statuses, name) == if i < |statuses| then Some(statuses[i]) else None
  {
    if i > 0 {
      assert forall j :: 0 <= j < i - 1 ==> statuses[1..][j] == statuses[j + 1];
      FirstStatus(statuses[1..], name, i - 1);
    }
  }

  lemma {:induction false} FirstCondition(cs: seq<Condition>)
    ensures (GetCondition(cs, "Ready").Some? && GetCondition(cs, "Ready").value.status == "True") <==>
            exists i :: 0 <= i < |cs| && cs[i] == Condition("Ready", "True")
                        && forall j :: 0 <= j < i ==> cs[j].kind != "Ready"
  {
    if cs != [] {
      var tail := cs[1..];
      FirstCondition(tail);
      if i :| 0 <= i < |tail| && tail[i] == Condition("Ready", "True")
              && forall j :: 0 <= j < i ==> tail[j].kind != "Ready" {
        assert cs[i + 1] == tail[i];
        assert forall j :: 0 < j < i + 1 ==> cs[j] == tail[j - 1];
      }
      if i :| 0 < i < |cs| && cs[i] == Condition("Ready", "True")
              && forall j :: 0 <= j < i ==> cs[j].kind != "Ready" {
        assert tail[i - 1] == cs[i];
        assert forall j :: 0 <= j < i - 1 ==> tail[j] == cs[j + 1];
      }
    }
  }

  /** A Pod is ready exactly when its first Ready condition is True. */
  lemma PodReadyExact(p: Pod)
    ensures IsPodReady(p) <==> SaysReady(p)
  {
    FirstCondition(p.conditions);
  }

  // ---- What becoming ready rests on

  ghost predicate ReadyEvidence(cfg: Config, w: World, s: Step, w': World) {
    && s.Reconciled? && s.x.bootstrap.Script?
    && cfg.name in w'.store.pods
    && (var pod := w'.store.pods[cfg.name];
        var status := GetContainerStatus(pod.statuses, PodBuilder.KIND);
        && Owned(cfg, pod) && !pod.deleting
        && status.Some? && status.value.running && status.value.ready && status.value.terminated.None?
        && SaysReady(pod)
        && exists controller ::
             && |News(w, w')| >= 2
             && News(w, w')[|News(w, w')| - 2..] ==
                [Executed(cfg.name, EnableBootstrap, true),
                 Executed(controller, PatchNode(NodeName(cfg, pod), ProviderID(cfg)), true)])
    && (forall t :: t in cfg.templates ==> PodBuilder.ClaimName(t.name, cfg.name) in w'.store.claims)
    && cfg.name + "-cloud-init" in w'.store.secrets
    && (cfg.name + "-cloud-init" !in w.store.secrets ==>
          w'.store.secrets[cfg.name + "-cloud-init"] == Secret(Some(cfg.uid), s.x.bootstrap.text))
    && !HasFailed(w'.record)
    && {FINALIZER, FOREGROUND} <= w'.record.finalizers
  }

  lemma FollowReady(cfg: Config, m: Record, st: Store, pod: Pod, x: Inputs)
    requires !m.ready && FollowContainer(cfg, m, st, pod, x).m.ready
    ensures var o := FollowContainer(cfg, m, st, pod, x);
            var status := GetContainerStatus(pod.statuses, PodBuilder.KIND);
            && o.store == st && o.m == m.(ready := true)
            && status.Some? && status.value.running && status.value.ready && status.value.terminated.None?
            && IsPodReady(pod)
            && x.controllerPods.Some? && x.controllerPods.value != []
            && o.events == [Executed(cfg.name, EnableBootstrap, true),
                            Executed(x.controllerPods.value[0], PatchNode(NodeName(cfg, pod), ProviderID(cfg)), true)]
  {
    hide GetContainerStatus, ProviderID, IsPodReady, NodeName;
  }

  /** The store and the events of a provisioning that ends in readiness. */
  lemma ProvisionReady(cfg: Config, m: Record, st: Store, pod: Pod, x: Inputs)
    requires !m.ready && !HasFailed(m) && Provision(cfg, m, st, pod, x).m.ready
    requires IsOrder(x.claimOrder, TemplateNames(cfg.templates))
    ensures var o := Provision(cfg, m, st, pod, x);
            var st' := o.store;
            && o.m == m.(ready := true) && st'.pods == st.pods
            && x.bootstrap.Script? && SecretName(cfg) in st'.secrets
            && (SecretName(cfg) !in st.secrets ==>
                  st'.secrets[SecretName(cfg)] == Secret(Some(cfg.uid), x.bootstrap.text))
            && (forall t :: t in cfg.templates ==> PodBuilder.ClaimName(t.name, cfg.name) in st'.claims)
            && FollowContainer(cfg, m, st', pod, x).m.ready
            && |o.events| >= 2 && o.events[|o.events| - 2..] == FollowContainer(cfg, m, st', pod, x).events
  {
    hide FollowContainer, CreateClaims, ClaimsOf, SecretName;
    var wanted := ClaimsOf(cfg.templates, cfg);
    var c := CreateClaims(wanted, x.claimOrder, st.claims, x);
    ClaimsOnlyGrow(wanted, x.claimOrder, st.claims, x);
    var st1 := st.(claims := c.claims);
    var s := StoreSecret(cfg, m, st1, pod, x);
    assert c.ok && s.m.ready && x.bootstrap.Script?;
    var secret := CloudInitSecret(cfg, x.bootstrap.text);
    var stored := if SecretName(cfg) in st1.secrets then st1
                  else st1.(secrets := st1.secrets[SecretName(cfg) := secret]);
    var f := FollowContainer(cfg, m, stored, pod, x);
    FollowReady(cfg, m, stored, pod, x);
    assert s.store == stored;
    forall t | t in cfg.templates ensures PodBuilder.ClaimName(t.name, cfg.name) in c.claims {
      assert t.name in TemplateNames(cfg.templates);
      assert t.name in x.claimOrder && t.name in wanted;
    }
    var o := Provision(cfg, m, st, pod, x);
    assert exists pre :: o.events == pre + f.events by {
      var secretEvents := if SecretName(cfg) in st1.secrets then [] else [CreatedSecret(SecretName(cfg))];
      assert o.events == (c.events + secretEvents) + f.events;
    }
    var pre :| o.events == pre + f.events;
    assert o.events[|o.events| - 2..] == f.events;
  }

  /** Only provisioning an own, non-terminating Pod of a machine with a provider ID ends in readiness. */
  lemma BodyReady(cfg: Config, m: Record, st: Store, x: Inputs)
    ensures !m.ready && ReconcileBody(cfg, m, st, x).m.ready ==>
              && x.owner.Found? && !m.deleting && !HasFailed(m) && m.providerID.Some?
              && cfg.name in st.pods && Owned(cfg, st.pods[cfg.name]) && !st.pods[cfg.name].deleting
              && (var m1 := ReconcileVersion(m, x.owner.value);
                  ReconcileBody(cfg, m, st, x) ==
                  Provision(cfg, m1.(finalizers := m1.finalizers + {FINALIZER, FOREGROUND}), st, st.pods[cfg.name], x))
  {
    hide Provision, NewPod, Claimable, ProviderID;
  }

  lemma SecretNamed(cfg: Config)
    ensures SecretName(cfg) == cfg.name + "-cloud-init"
  {}

  lemma ReadyStep(cfg: Config, w: World, s: Step)
    requires Inv(cfg, w) && s.Reconciled? && IsOrder(s.x.claimOrder, TemplateNames(cfg.templates))
    ensures !w.record.ready && Next(cfg, w, s).record.ready ==> ReadyEvidence(cfg, w, s, Next(cfg, w, s))
  {
    var x, p := s.x, s.p;
    NewsOfReconcile(cfg, w, x, p);
    BodyReady(cfg, w.record, w.store, x);
    if w.record.ready || !Next(cfg, w, s).record.ready {
      return;
    }
    hide Provision, FollowContainer, ReconcileBody, News, GetContainerStatus, IsPodReady, SaysReady,
      NodeName, ProviderID, SecretName;
    var m := ReconcileVersion(w.record, x.owner.value);
    var m' := m.(finalizers := m.finalizers + {FINALIZER, FOREGROUND});
    var pod := w.store.pods[cfg.name];
    ProvisionReady(cfg, m', w.store, pod, x);
    var o := Provision(cfg, m', w.store, pod, x);
    FollowReady(cfg, m', o.store, pod, x);
    PodReadyExact(pod);
    SecretNamed(cfg);
    var w' := Next(cfg, w, s);
    assert w'.store == o.store && p.status;
    assert {FINALIZER, FOREGROUND} <= w'.record.finalizers;
    var controller := x.controllerPods.value[0];
    assert News(w, w')[|News(w, w')| - 2..] ==
           [Executed(cfg.name, EnableBootstrap, true),
            Executed(controller, PatchNode(NodeName(cfg, pod), ProviderID(cfg)), true)];
  }

  /** In every run, a machine turns ready only in a reconciliation that has in hand: its own Pod, not
      terminating, with the kind container running and ready and the Pod ready; a claim for every
      template; the bootstrap Secret; a successful bootstrap command followed by a successful provider
      ID command; both finalizers; and no failure. */
  lemma ReadyMeans(cfg: Config, ws: seq<World>, steps: seq<Step>, i: nat)
    requires IsRun(cfg, ws, steps) && i < |steps|
    requires steps[i].Reconciled? ==> IsOrder(steps[i].x.claimOrder, TemplateNames(cfg.templates))
    requires !ws[i].record.ready && ws[i + 1].record.ready
    ensures ReadyEvidence(cfg, ws[i], steps[i], ws[i + 1])
  {
    RunInv(cfg, ws, steps, i);
    assert StepTaken(cfg, ws, steps, i);
    assert steps[i].Reconciled?;
    hide Inv, ReadyEvidence, Next;
    ReadyStep(cfg, ws[i], steps[i]);
  }

  // ---- Phases

  /** What the phase should be. */
  function Priority(m: Record): Phase {
    if m.deleting then Deleting
    else if HasFailed(m) then Failed
    else if m.providerID.None? then Pending
    else if m.ready then Running
    else Provisioning
  }

  /** The reconciliation gets as far as recording the provider ID. */
  predicate RecordsID(cfg: Config, w: World, x: Inputs) {
    && w.record.providerID.None? && !w.record.deleting && !HasFailed(w.record)
    && x.owner.Found? && x.owner.value.dataSecretName.Some?
    && x.cluster.Found? && x.cluster.value.infrastructureReady
    && x.infraClusterFound && !x.paused && !x.getPodFails
    && cfg.name in w.store.pods && Owned(cfg, w.store.pods[cfg.name])
  }

  /** The status half of the patch, written for a machine with a provider ID, goes through without
      the half that holds the provider ID. */
  predicate Strands(cfg: Config, w: World, s: Step) {
    s.Reconciled? && s.p == Patch(false, true) && RecordsID(cfg, w, s.x)
  }

  /** While nothing has happened yet the phase is still unset or pending. */
  ghost predicate PhaseInv(m: Record) {
    m.deleting || HasFailed(m) || m.providerID.Some? || m.phase == Unset || m.phase == Pending
  }

  lemma {:induction false} RunPhase(cfg: Config, ws: seq<World>, steps: seq<Step>, i: nat)
    requires IsRun(cfg, ws, steps) && i <= |steps|
    requires forall j :: 0 <= j < i ==> !Strands(cfg, ws[j], steps[j])
    ensures PhaseInv(ws[i].record)
  {
    hide Next, PhaseInv, Strands;
    if i > 0 {
      RunPhase(cfg, ws, steps, i - 1);
      assert StepTaken(cfg, ws, steps, i - 1);
      StepPhase(cfg, ws[i - 1], steps[i - 1]);
    } else {
      FreshPhase(ws[0]);
    }
  }

  lemma FreshPhase(w: World)
    requires Fresh(w)
    ensures PhaseInv(w.record)
  {}

  lemma StepPhase(cfg: Config, w: World, s: Step)
    requires PhaseInv(w.record)
    ensures !Strands(cfg, w, s) ==> PhaseInv(Next(cfg, w, s).record)
    ensures s.Reconciled? && s.p.status ==>
              (Next(cfg, w, s).record.phase == Priority(Next(cfg, w, s).record) <==> !Strands(cfg, w, s))
  {
    hide ReconcileBody, BodyFacts;
    if s.Reconciled? {
      BodyKeepsPhase(cfg, w.record, w.store, s.x);
      BodyMonotone(cfg, w.record, w.store, s.x);
      BodyRecordsID(cfg, w, s.x);
    }
  }

  /** The provider ID is recorded exactly in these situations, and then nothing fails. */
  lemma BodyRecordsID(cfg: Config, w: World, x: Inputs)
    ensures var o := ReconcileBody(cfg, w.record, w.store, x);
            && (w.record.providerID.None? ==> (o.m.providerID.Some? <==> RecordsID(cfg, w, x)))
            && (RecordsID(cfg, w, x) ==> !HasFailed(o.m) && !o.m.deleting && o.m.ready == w.record.ready)
  {
    hide Provision, PodMissing, ProviderID;
    if x.owner.Found? && x.cluster.Found? && !w.record.deleting {
      var m1 := ReconcileVersion(w.record, x.owner.value);
      var m2 := m1.(finalizers := m1.finalizers + {FINALIZER, FOREGROUND});
      MissingKeepsID(cfg, x.cluster.value, x.owner.value, m2, w.store, x);
    }
  }

  lemma MissingKeepsID(cfg: Config, cl: Cluster, om: OwnerMachine, m: Record, st: Store, x: Inputs)
    ensures PodMissing(cfg, cl, om, m, st, x).m.providerID == m.providerID
  {
    hide NewPod, Claimable;
  }

  lemma BodyMonotone(cfg: Config, m: Record, st: Store, x: Inputs)
    ensures var o := ReconcileBody(cfg, m, st, x);
            && o.m.deleting == m.deleting && (HasFailed(m) ==> HasFailed(o.m))
            && (m.providerID.Some? ==> o.m.providerID == m.providerID)
  {
    BodyHolds(cfg, m, st, x);
    hide ReconcileBody;
  }

  lemma ProvisionKeepsPhase(cfg: Config, m: Record, st: Store, pod: Pod, x: Inputs)
    ensures Provision(cfg, m, st, pod, x).m.phase == m.phase
  {
    hide CreateClaims, ClaimsOf, GetContainerStatus;
  }

  lemma BodyKeepsPhase(cfg: Config, m: Record, st: Store, x: Inputs)
    ensures ReconcileBody(cfg, m, st, x).m.phase == m.phase
  {
    hide Provision, NewPod;
    if x.owner.Found? && cfg.name in st.pods {
      var m1 := ReconcileVersion(m, x.owner.value);
      var m2 := m1.(finalizers := m1.finalizers + {FINALIZER, FOREGROUND});
      ProvisionKeepsPhase(cfg, m2, st, st.pods[cfg.name], x);
    }
  }

  /** In a run in which no patch has stranded the phase so far, a reconciliation whose status patch goes
      through leaves the phase the record calls for, although an old phase can be carried over, exactly
      when it does not strand it itself. */
  lemma PhaseAgrees(cfg: Config, ws: seq<World>, steps: seq<Step>, i: nat)
    requires IsRun(cfg, ws, steps) && i < |steps| && steps[i].Reconciled? && steps[i].p.status
    requires forall j :: 0 <= j < i ==> !Strands(cfg, ws[j], steps[j])
    ensures ws[i + 1].record.phase == Priority(ws[i + 1].record) <==> !Strands(cfg, ws[i], steps[i])
  {
    hide Next, PhaseInv, Strands;
    RunPhase(cfg, ws, steps, i);
    assert StepTaken(cfg, ws, steps, i);
    StepPhase(cfg, ws[i], steps[i]);
  }

  /** From any record at all: a reconciliation patched in full leaves the right phase exactly when the
      record it leaves calls for more than Pending, or the phase it found was still unset or pending. */
  lemma PhaseRepaired(cfg: Config, w: World, x: Inputs)
    ensures var r := Reconcile(cfg, w, x, Patch(true, true)).record;
            r.phase == Priority(r) <==>
            Priority(r) != Pending || w.record.phase == Unset || w.record.phase == Pending
  {
    hide ReconcileBody, BodyFacts;
    BodyKeepsPhase(cfg, w.record, w.store, x);
    BodyMonotone(cfg, w.record, w.store, x);
  }

  /** With half a patch it can go wrong: the status half records Provisioning, the spec half loses the
      provider ID, and a later reconciliation that learns nothing keeps the phase. */
  lemma HalfPatchStrandsPhase(cfg: Config, w: World, pod: Pod, x: Inputs, om: OwnerMachine, cl: Cluster, y: Inputs)
    requires Fresh(w) && cfg.name in w.store.pods && w.store.pods[cfg.name] == pod && Owned(cfg, pod)
    requires x.owner == Found(om) && om.dataSecretName.Some? && x.cluster == Found(cl) && cl.infrastructureReady
    requires x.infraClusterFound && !x.paused && !x.getPodFails
    requires y.owner == LookupFailed
    ensures var w1 := Reconcile(cfg, w, x, Patch(false, true));
            var w2 := Reconcile(cfg, w1, y, Patch(true, true));
            w2.record.phase == Provisioning && Priority(w2.record) == Pending
  {}

  // ---- Persistence across recreation

  ghost predicate OrdersValid(cfg: Config, s: Step) {
    s.Reconciled? ==> IsOrder(s.x.podOrder, TemplateNames(cfg.templates))
                      && IsOrder(s.x.claimOrder, TemplateNames(cfg.templates))
  }

  /** A created control-plane Pod keeps the etcd directory on the machine's own claim. */
  ghost predicate Persistent(cfg: Config, e: Event) {
    e.CreatedPod? ==>
      && e.name == cfg.name && Owned(cfg, e.pod)
      && (PodBuilder.CONTROL_PLANE_LABEL in e.pod.labels ==>
            PodBuilder.EtcdPersisted(PodBuilder.StandardLayout(cfg.name), e.pod.spec,
                                     PodBuilder.KindSlot(cfg.podSpec.containers), cfg.name))
  }

  /** There is a claim template for the etcd directory, and the user's own mounts there agree with it. */
  ghost predicate EtcdTemplated(cfg: Config) {
    && PodBuilder.VAR_LIB_ETCD in TemplateNames(cfg.templates)
    && PodBuilder.EtcdMountsAgree(PodBuilder.StandardLayout(cfg.name), cfg.podSpec)
  }

  lemma NewPodPersistent(cfg: Config, cl: Cluster, om: OwnerMachine, order: seq<string>)
    requires IsOrder(order, TemplateNames(cfg.templates))
    ensures EtcdTemplated(cfg) ==> Persistent(cfg, CreatedPod(cfg.name, NewPod(cfg, cl, om, order)))
  {
    if !EtcdTemplated(cfg) {
      return;
    }
    var l := PodBuilder.StandardLayout(cfg.name);
    PodBuilder.StandardIsSound(cfg.name);
    PodBuilder.LabelsDiffer();
    assert l.etcdVolume.name == PodBuilder.VAR_LIB_ETCD;
    hide PodBuilder.StandardLayout, PodBuilder.ControlPlaneSpec, PodBuilder.WorkerSpec,
      PodBuilder.EtcdPersisted, PodBuilder.EtcdMountsAgree,
      PodBuilder.Sound, PodBuilder.PodImage;
    if om.controlPlane {
      PodBuilder.EtcdOnClaim(l, cfg.podSpec, cfg.name, TemplateNames(cfg.templates), order,
                             PodBuilder.PodImage(om.version), PodBuilder.ApiServerPort(cl.apiServerPort));
    }
  }

  lemma BodyPersistent(cfg: Config, m: Record, st: Store, x: Inputs)
    requires IsOrder(x.podOrder, TemplateNames(cfg.templates))
    ensures EtcdTemplated(cfg) ==> forall e :: e in ReconcileBody(cfg, m, st, x).events ==> Persistent(cfg, e)
    ensures forall n :: n in st.claims ==>
              n in ReconcileBody(cfg, m, st, x).store.claims
              && ReconcileBody(cfg, m, st, x).store.claims[n] == st.claims[n]
  {
    hide NewPod, Provision, Claimable, EtcdTemplated, PodBuilder.EtcdPersisted, PodBuilder.StandardLayout, ProviderID;
    if x.owner.Found? && x.cluster.Found? && !m.deleting {
      var om, cl := x.owner.value, x.cluster.value;
      NewPodPersistent(cfg, cl, om, x.podOrder);
      var m1 := ReconcileVersion(m, om);
      var m2 := m1.(finalizers := m1.finalizers + {FINALIZER, FOREGROUND});
      if cfg.name in st.pods && m.providerID.Some? && !HasFailed(m) {
        ProvisionFacts(cfg, m2, st, st.pods[cfg.name], x);
      }
    }
  }

  /** With a claim template for the etcd directory, every control-plane Pod ever created for the
      machine mounts that directory from the claim `var-lib-etcd-<machine>`, and no reconciliation
      removes or replaces a claim: recreation finds the same data. */
  lemma {:induction false} EtcdPersists(cfg: Config, ws: seq<World>, steps: seq<Step>, i: nat)
    requires IsRun(cfg, ws, steps) && i <= |steps| && forall s :: s in steps ==> OrdersValid(cfg, s)
    ensures EtcdTemplated(cfg) ==> forall e :: e in ws[i].trace ==> Persistent(cfg, e)
    ensures i < |steps| && steps[i].Reconciled? ==>
              forall n :: n in ws[i].store.claims ==>
                && n in ws[i + 1].store.claims
                && ws[i + 1].store.claims[n] == ws[i].store.claims[n]
  {
    hide Persistent, ReconcileBody, EtcdTemplated, TemplateNames;
    if i > 0 {
      var a, s := ws[i - 1], steps[i - 1];
      EtcdPersists(cfg, ws, steps, i - 1);
      assert StepTaken(cfg, ws, steps, i - 1);
      assert s in steps;
      if s.Reconciled? {
        BodyPersistent(cfg, a.record, a.store, s.x);
      }
    }
    if i < |steps| && steps[i].Reconciled? {
      assert StepTaken(cfg, ws, steps, i);
      assert steps[i] in steps;
      BodyPersistent(cfg, ws[i].record, ws[i].store, steps[i].x);
    }
  }
}
