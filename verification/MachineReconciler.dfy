/** The KubernetesMachine reconciler as it runs: it edits the machine in memory and the API server's
    objects step by step, and patches the machine at the end. */
module MachineReconciler {
  import opened Common
  import opened Pods
  import opened Machine
  import PodBuilder
  import MachinePod
  import MachineTemplates

  /** A template in memory; its owner references live in a slice. */
  datatype TemplateCell = TemplateCell(name: string, owners: array<OwnerRef>, rest: nat)

  function ViewOf(t: TemplateCell): Template
    reads t.owners
  {
    Template(t.name, t.owners[..], t.rest)
  }

  ghost function Slices(ts: seq<TemplateCell>): set<array<OwnerRef>> {
    set t | t in ts :: t.owners
  }

  ghost function Views(ts: seq<TemplateCell>): (r: seq<Template>)
    reads Slices(ts)
    ensures |r| == |ts| && forall i :: 0 <= i < |ts| ==> r[i] == ViewOf(ts[i])
  {
    if ts == [] then []
    else
      assert ts[|ts| - 1] in ts;
      Views(ts[..|ts| - 1]) + [ViewOf(ts[|ts| - 1])]
  }

  /** No two templates share a slice. */
  ghost predicate Separate(ts: seq<TemplateCell>) {
    forall i, j :: 0 <= i < j < |ts| ==> ts[i].owners != ts[j].owners
  }

  method Allocate(ts: seq<Template>) returns (cells: seq<TemplateCell>)
    ensures Views(cells) == ts && Separate(cells) && fresh(Slices(cells))
  {
    cells := [];
    for i := 0 to |ts|
      invariant |cells| == i && Separate(cells) && fresh(Slices(cells))
      invariant forall j :: 0 <= j < i ==> ViewOf(cells[j]) == ts[j]
    {
      var owners := ts[i].owners;
      assert forall j :: 0 <= j < i ==> cells[j] in cells;
      var slice := new OwnerRef[|owners|](j requires 0 <= j < |owners| => owners[j]);
      var cell := TemplateCell(ts[i].name, slice, ts[i].rest);
      assert Slices(cells + [cell]) == Slices(cells) + {slice};
      cells := cells + [cell];
    }
  }

  /** The copy of the machine that a reconciliation works on. */
  class KubernetesMachine {
    const spec: MachinePod.PodSpecCell
    const templates: seq<TemplateCell>
    const deleting: bool
    var finalizers: set<string>
    var providerID: Option<string>
    var failureReason: Option<string>
    var failureMessage: Option<string>
    var phase: Phase
    var ready: bool
    var version: Option<string>

    function View(): Record
      reads this
    {
      Record(deleting, finalizers, providerID, failureReason, failureMessage, phase, ready, version)
    }

    constructor (m: Record, spec: MachinePod.PodSpecCell, templates: seq<TemplateCell>)
      ensures View() == m && this.spec == spec && this.templates == templates
    {
      deleting, finalizers, providerID := m.deleting, m.finalizers, m.providerID;
      failureReason, failureMessage := m.failureReason, m.failureMessage;
      phase, ready, version := m.phase, m.ready, m.version;
      this.spec, this.templates := spec, templates;
    }

    method SetFailure(message: string)
      modifies this`failureReason, this`failureMessage
      ensures View() == Machine.SetFailure(old(View()), message)
    {
      failureReason := Some(UNSUPPORTED_CHANGE);
      failureMessage := Some(message);
    }

    method ReconcilePhase()
      modifies this`phase
      ensures View() == Machine.ReconcilePhase(old(View()))
    {
      if phase == Unset {
        phase := Pending;
      }
      if providerID.Some? && !ready {
        phase := Provisioning;
      }
      if providerID.Some? && ready {
        phase := Running;
      }
      if failureReason.Some? || failureMessage.Some? {
        phase := Failed;
      }
      if deleting {
        phase := Deleting;
      }
    }
  }

  /** The API server: the persisted machine, the objects of its namespace, and what was done to them. */
  class ApiServer {
    var record: Record
    var pods: map<string, Pod>
    var secrets: map<string, Secret>
    var claims: map<string, Claim>
    var trace: seq<Event>

    function Contents(): Store
      reads this
    {
      Store(pods, secrets, claims)
    }

    function View(): World
      reads this
    {
      World(record, Contents(), trace)
    }
  }

  /** The machine in memory and the API server's objects are as the outcome says. */
  ghost predicate Ends(km: KubernetesMachine, api: ApiServer, before: seq<Event>, o: Outcome, ret: Return)
    reads km, api
  {
    km.View() == o.m && api.Contents() == o.store && api.trace == before + o.events && ret == o.ret
  }

  /** The machine's own spec in memory is what the user wrote. */
  ghost predicate Loaded(cfg: Config, km: KubernetesMachine)
    reads km.spec, km.spec.containers, MachinePod.Contexts(km.spec.containers[..]), Slices(km.templates)
  {
    km.spec.View() == cfg.podSpec && Views(km.templates) == cfg.templates && Separate(km.templates)
  }

  /** The PodSpec still is; the templates are, or have had their claims made. */
  ghost predicate Kept(cfg: Config, km: KubernetesMachine)
    reads km.spec, km.spec.containers, MachinePod.Contexts(km.spec.containers[..]), Slices(km.templates)
  {
    && km.spec.View() == cfg.podSpec
    && (Views(km.templates) == cfg.templates || Views(km.templates) == Written(cfg.templates, SelfRef(cfg)))
  }

  /** Reading a machine into memory. */
  method Load(cfg: Config, m: Record) returns (km: KubernetesMachine)
    ensures fresh(km) && fresh(Slices(km.templates)) && km.View() == m && Loaded(cfg, km)
  {
    hide Views, Separate, MachinePod.Views;
    var templates := Allocate(cfg.templates);
    var spec := new MachinePod.PodSpecCell(cfg.podSpec);
    km := new KubernetesMachine(m, spec, templates);
  }

  // ---- Reading Pods

  method FindContainerStatus(statuses: seq<ContainerStatus>, name: string) returns (status: Option<ContainerStatus>)
    ensures status == GetContainerStatus(statuses, name)
  {
    assert statuses[0..] == statuses;
    for i := 0 to |statuses|
      invariant GetContainerStatus(statuses, name) == GetContainerStatus(statuses[i..], name)
    {
      assert statuses[i..][1..] == statuses[i + 1..];
      if statuses[i].name == name {
        return Some(statuses[i]);
      }
    }
    return None;
  }

  method PodReady(pod: Pod) returns (ready: bool)
    ensures ready == IsPodReady(pod)
  {
    var cs := pod.conditions;
    assert cs[0..] == cs;
    for i := 0 to |cs|
      invariant GetCondition(cs, "Ready") == GetCondition(cs[i..], "Ready")
    {
      assert cs[i..][1..] == cs[i + 1..];
      if cs[i].kind == "Ready" {
        return cs[i].status == "True";
      }
    }
    return false;
  }

  // ---- Claims

  /** The claim's references start out as the template's own slice. */
  method SetControllerReference(slice: array<OwnerRef>, ref: OwnerRef) returns (owners: seq<OwnerRef>, ok: bool)
    modifies slice
    ensures ok <==> !OwnedElsewhere(old(slice[..]), ref)
    ensures ok ==> owners == Upsert(old(slice[..]), ref) && slice[..] == Shown(old(slice[..]), ref)
    ensures !ok ==> slice[..] == old(slice[..])
  {
    var existing := slice[..];
    var at := -1;
    for i := 0 to |existing|
      invariant at == LastSame(existing[..i], ref) && !OwnedElsewhere(existing[..i], ref)
      invariant slice[..] == old(slice[..])
    {
      assert existing[..i + 1][..i] == existing[..i];
      assert existing[..i + 1] == existing[..i] + [existing[i]];
      if existing[i].target == ref.target {
        at := i;
      } else if existing[i].controller == Some(true) {
        assert existing[i] in existing;
        return [], false;
      }
    }
    assert existing[..|existing|] == existing;
    if at == -1 {
      owners := existing + [ref];
    } else {
      slice[at] := ref;
      owners := slice[..];
    }
    ok := true;
  }

  /** One claim per template name. The machine's own templates are written on the way. */
  method GetPersistentVolumeClaims(cfg: Config, km: KubernetesMachine)
    returns (claims: map<string, NamedClaim>, ok: bool)
    requires Views(km.templates) == cfg.templates && Separate(km.templates)
    modifies Slices(km.templates)
    ensures ok <==> Claimable(cfg)
    ensures ok ==> claims == ClaimsOf(cfg.templates, cfg)
    ensures Views(km.templates) == Written(cfg.templates, SelfRef(cfg))
  {
    hide ClaimsOf, PodBuilder.ClaimName, SelfRef, OwnedElsewhere, Shown, Upsert, Views, ViewOf, Written, Claimable;
    var ts, ref := km.templates, SelfRef(cfg);
    ghost var was := cfg.templates;
    ViewsRead(ts, was);
    claims := map[];
    NoClaims(cfg);
    for i := 0 to |ts|
      invariant claims == ClaimsOf(was[..i], cfg)
      invariant forall j :: 0 <= j < i ==> !OwnedElsewhere(was[j].owners, ref)
      invariant forall j :: 0 <= j < i ==> ts[j].owners[..] == Shown(was[j].owners, ref)
      invariant forall j :: i <= j < |ts| ==> ts[j].owners[..] == was[j].owners
    {
      assert ts[i] in ts;
      var owners, fine := SetControllerReference(ts[i].owners, ref);
      if !fine {
        ViewsWritten(ts, was, i, ref);
        ClaimableIff(cfg, i);
        return claims, false;
      }
      var claim := NamedClaim(PodBuilder.ClaimName(ts[i].name, cfg.name), Claim(owners, ts[i].rest));
      ClaimsOfNext(was, i, cfg, claim);
      claims := claims[ts[i].name := claim];
    }
    assert was[..|was|] == was;
    ViewsWritten(ts, was, |was|, ref);
    ClaimableIff(cfg, |was|);
    ok := true;
  }

  lemma ViewsRead(ts: seq<TemplateCell>, was: seq<Template>)
    requires Views(ts) == was
    ensures |ts| == |was|
    ensures forall j :: 0 <= j < |ts| ==>
              ts[j].name == was[j].name && ts[j].rest == was[j].rest && ts[j].owners[..] == was[j].owners
  {
    assert forall j :: 0 <= j < |ts| ==> ViewOf(ts[j]) == was[j];
  }

  lemma ViewsWritten(ts: seq<TemplateCell>, was: seq<Template>, n: nat, ref: OwnerRef)
    requires |ts| == |was| && n <= |was| && forall j :: 0 <= j < n ==> !OwnedElsewhere(was[j].owners, ref)
    requires n < |was| ==> OwnedElsewhere(was[n].owners, ref)
    requires forall j :: 0 <= j < |ts| ==> ts[j].name == was[j].name && ts[j].rest == was[j].rest
    requires forall j :: 0 <= j < n ==> ts[j].owners[..] == Shown(was[j].owners, ref)
    requires forall j :: n <= j < |ts| ==> ts[j].owners[..] == was[j].owners
    ensures Views(ts) == Written(was, ref)
  {
    hide OwnedElsewhere, Shown, Written, Views;
    MachineTemplates.WrittenAt(was, n, ref);
  }

  lemma ClaimableIff(cfg: Config, n: nat)
    requires n <= |cfg.templates|
    requires forall j :: 0 <= j < n ==> !OwnedElsewhere(cfg.templates[j].owners, SelfRef(cfg))
    requires n < |cfg.templates| ==> OwnedElsewhere(cfg.templates[n].owners, SelfRef(cfg))
    ensures Claimable(cfg) <==> n == |cfg.templates|
  {
    hide OwnedElsewhere, SelfRef;
    if n < |cfg.templates| {
      assert cfg.templates[n] in cfg.templates;
    }
  }

  /** The same, seen with the rest of the machine's spec. */
  method ClaimsForMachine(cfg: Config, km: KubernetesMachine) returns (claims: map<string, NamedClaim>, ok: bool)
    requires Loaded(cfg, km)
    modifies Slices(km.templates)
    ensures ok <==> Claimable(cfg)
    ensures ok ==> claims == ClaimsOf(cfg.templates, cfg)
    ensures Kept(cfg, km) && Views(km.templates) == Written(cfg.templates, SelfRef(cfg))
  {
    hide Claimable, ClaimsOf, Views, Written, Separate, SelfRef, MachinePod.Views;
    claims, ok := GetPersistentVolumeClaims(cfg, km);
  }

  lemma NoClaims(cfg: Config)
    ensures ClaimsOf([], cfg) == map[]
  {}

  lemma ClaimsOfNext(ts: seq<Template>, i: nat, cfg: Config, c: NamedClaim)
    requires i < |ts|
    requires c == NamedClaim(PodBuilder.ClaimName(ts[i].name, cfg.name),
                             Claim(Upsert(ts[i].owners, SelfRef(cfg)), ts[i].rest))
    ensures ClaimsOf(ts[..i + 1], cfg) == ClaimsOf(ts[..i], cfg)[ts[i].name := c]
  {
    hide PodBuilder.ClaimName, Upsert, SelfRef;
    assert ts[..i + 1][..i] == ts[..i];
  }

  method CreatePersistentVolumeClaims(cfg: Config, api: ApiServer, wanted: map<string, NamedClaim>, x: Inputs)
    returns (ok: bool)
    modifies api`claims, api`trace
    ensures var c := CreateClaims(wanted, x.claimOrder, old(api.claims), x);
            api.claims == c.claims && api.trace == old(api.trace) + c.events && ok == c.ok
  {
    ok := true;
    var order := x.claimOrder;
    for i := 0 to |order|
      invariant var c := CreateClaims(wanted, order[..i], old(api.claims), x);
                api.claims == c.claims && api.trace == old(api.trace) + c.events && ok == c.ok
    {
      assert order[..i + 1][..i] == order[..i];
      if order[i] in wanted {
        var claim := wanted[order[i]];
        if claim.name in x.failingClaimGets {
          ok := false;
        } else if claim.name !in api.claims {
          if claim.name in x.refusedClaims {
            ok := false;
          } else {
            api.claims := api.claims[claim.name := claim.claim];
            api.trace := api.trace + [CreatedClaim(claim.name)];
            if claim.name in x.lostClaims {
              ok := false;
            }
          }
        }
      }
    }
    assert order[..|order|] == order;
  }

  // ---- The machine Pod

  method BuildPod(cfg: Config, cl: Cluster, om: OwnerMachine, km: KubernetesMachine, order: seq<string>)
    returns (pod: Pod)
    requires Loaded(cfg, km)
    ensures pod == NewPod(cfg, cl, om, order)
    ensures Loaded(cfg, km)
  {
    hide PodBuilder.MachineSpec, PodBuilder.StandardLayout, PodBuilder.PodImage, MachinePod.Views, Views;
    var labels := map[PodBuilder.CLUSTER_LABEL := cl.name];
    if om.controlPlane {
      labels := labels[PodBuilder.CONTROL_PLANE_LABEL := ""];
    }
    var built := MachinePod.BuildMachinePod(
      PodBuilder.StandardLayout(cfg.name), km.spec, cfg.name, order,
      PodBuilder.PodImage(om.version), om.controlPlane, PodBuilder.ApiServerPort(cl.apiServerPort));
    pod := Pod(Some(cfg.uid), false, labels, built.View(), [], []);
  }

  /** The Pod goes to the API server if the claims could be made. */
  method CreateIf(
    ok: bool, pod: Pod, cfg: Config, cl: Cluster, om: OwnerMachine, km: KubernetesMachine, api: ApiServer, x: Inputs)
    returns (ret: Return)
    modifies api`pods, api`trace
    ensures (ok <==> Claimable(cfg)) && pod == NewPod(cfg, cl, om, x.podOrder) ==>
              Ends(km, api, old(api.trace), CreatePod(cfg, cl, om, old(km.View()), old(api.Contents()), x), ret)
  {
    hide Claimable, NewPod;
    if !ok || x.createPod == Refused {
      return Retry;
    }
    api.pods := api.pods[cfg.name := pod];
    api.trace := api.trace + [CreatedPod(cfg.name, pod)];
    ret := if x.createPod == Done then Settled else Retry;
  }

  method CreateMachinePod(
    cfg: Config, cl: Cluster, om: OwnerMachine, km: KubernetesMachine, api: ApiServer, x: Inputs)
    returns (ret: Return)
    requires Loaded(cfg, km)
    modifies Slices(km.templates), api`pods, api`trace
    ensures Kept(cfg, km) && Views(km.templates) == Written(cfg.templates, SelfRef(cfg))
    ensures Ends(km, api, old(api.trace), CreatePod(cfg, cl, om, old(km.View()), old(api.Contents()), x), ret)
  {
    hide Claimable, NewPod, CreatePod, ClaimsOf, Views, Written, Separate, SelfRef, MachinePod.Views;
    var pod := BuildPod(cfg, cl, om, km, x.podOrder);
    var claims, ok := ClaimsForMachine(cfg, km);
    ret := CreateIf(ok, pod, cfg, cl, om, km, api, x);
  }

  method HandleMissingPod(cfg: Config, cl: Cluster, om: OwnerMachine, km: KubernetesMachine, api: ApiServer, x: Inputs)
    returns (ret: Return)
    requires Loaded(cfg, km)
    modifies km, Slices(km.templates), api`pods, api`trace
    ensures Kept(cfg, km)
    ensures Ends(km, api, old(api.trace), PodMissing(cfg, cl, om, old(km.View()), old(api.Contents()), x), ret)
  {
    hide CreatePod, Views, Written, Separate, SelfRef, MachinePod.Views;
    if cfg.allowRecreation {
      km.ready := false;
    } else {
      if km.providerID.Some? {
        km.SetFailure("Machine Pod cannot be found");
        return Settled;
      }
    }
    ret := CreateMachinePod(cfg, cl, om, km, api, x);
  }

  method FollowKindContainer(cfg: Config, km: KubernetesMachine, api: ApiServer, pod: Pod, x: Inputs)
    returns (ret: Return)
    modifies km, api`pods, api`trace
    ensures Ends(km, api, old(api.trace), FollowContainer(cfg, old(km.View()), old(api.Contents()), pod, x), ret)
  {
    hide GetContainerStatus, IsPodReady, ProviderID, NodeName;
    var status := FindContainerStatus(pod.statuses, PodBuilder.KIND);
    if status.None? {
      return Settled;
    }
    if status.value.terminated.Some? {
      if cfg.allowRecreation {
        if x.deletePod == Refused {
          return Retry;
        }
        api.pods := api.pods[cfg.name := pod.(deleting := true)];
        api.trace := api.trace + [DeletedPod(cfg.name)];
        return if x.deletePod == Done then Settled else Retry;
      }
      km.SetFailure("kind container has terminated: " + status.value.terminated.value);
      return Settled;
    }
    if !status.value.running {
      return Settled;
    }
    api.trace := api.trace + [Executed(cfg.name, EnableBootstrap, x.installOk)];
    if !x.installOk {
      return Retry;
    }
    if !status.value.ready {
      return Settled;
    }
    if x.controllerPods.None? || |x.controllerPods.value| == 0 {
      return Retry;
    }
    api.trace := api.trace +
      [Executed(x.controllerPods.value[0], PatchNode(NodeName(cfg, pod), ProviderID(cfg)), x.patchNodeOk)];
    if !x.patchNodeOk {
      return Retry;
    }
    var ready := PodReady(pod);
    if !ready {
      return Settled;
    }
    km.ready := true;
    ret := Settled;
  }

  /** The check is on whatever Secret it is given. */
  method EnsureSecretControlled(cfg: Config, km: KubernetesMachine, secret: Secret) returns (controlled: bool)
    modifies km`failureReason, km`failureMessage
    ensures controlled <==> secret.owner == Some(cfg.uid)
    ensures km.View() == CheckSecret(cfg, old(km.View()), secret)
  {
    controlled := secret.owner == Some(cfg.uid);
    if !controlled {
      km.SetFailure("bootstrap Secret is not controlled by KubernetesMachine");
    }
  }

  method StoreCloudInitSecret(cfg: Config, km: KubernetesMachine, api: ApiServer, pod: Pod, x: Inputs)
    returns (ret: Return)
    requires !HasFailed(km.View())
    modifies km, api`pods, api`secrets, api`trace
    ensures Ends(km, api, old(api.trace), StoreSecret(cfg, old(km.View()), old(api.Contents()), pod, x), ret)
  {
    hide FollowContainer, SecretName;
    if x.bootstrap.NoData? {
      return Settled;
    }
    if x.bootstrap.BadData? {
      return Retry;
    }
    var secret := CloudInitSecret(cfg, x.bootstrap.text);
    if x.createSecret == Refused {
      return Retry;
    }
    if SecretName(cfg) !in api.secrets {
      api.secrets := api.secrets[SecretName(cfg) := secret];
      api.trace := api.trace + [CreatedSecret(SecretName(cfg))];
    }
    if x.createSecret == Lost {
      return Retry;
    }
    // The Secret checked is the one just built, so the check passes and its early return is never taken.
    var controlled := EnsureSecretControlled(cfg, km, secret);
    assert controlled;
    ret := FollowKindContainer(cfg, km, api, pod, x);
  }

  method ProvisionPod(cfg: Config, km: KubernetesMachine, api: ApiServer, pod: Pod, x: Inputs) returns (ret: Return)
    requires Loaded(cfg, km) && !HasFailed(km.View())
    modifies km, Slices(km.templates), api`pods, api`secrets, api`claims, api`trace
    ensures Kept(cfg, km) && Views(km.templates) == Written(cfg.templates, SelfRef(cfg))
    ensures Ends(km, api, old(api.trace), Provision(cfg, old(km.View()), old(api.Contents()), pod, x), ret)
  {
    hide StoreSecret, CreateClaims, ClaimsOf, Claimable, Views, Written, Separate, SelfRef, MachinePod.Views;
    var wanted, ok := ClaimsForMachine(cfg, km);
    if !ok {
      return Retry;
    }
    ok := CreatePersistentVolumeClaims(cfg, api, wanted, x);
    if !ok {
      return Retry;
    }
    ret := StoreCloudInitSecret(cfg, km, api, pod, x);
  }

  method HandlePod(cfg: Config, km: KubernetesMachine, api: ApiServer, pod: Pod, x: Inputs) returns (ret: Return)
    requires Loaded(cfg, km) && !HasFailed(km.View())
    modifies km, Slices(km.templates), api`pods, api`secrets, api`claims, api`trace
    ensures Kept(cfg, km)
    ensures Ends(km, api, old(api.trace), PodPresent(cfg, old(km.View()), old(api.Contents()), pod, x), ret)
  {
    hide Provision, ProviderID, Views, Written, Separate, SelfRef, MachinePod.Views;
    if pod.owner != Some(cfg.uid) {
      km.SetFailure("Machine Pod is not controlled by KubernetesMachine");
      return Settled;
    }
    if km.providerID.None? {
      km.providerID := Some(ProviderID(cfg));
      return Settled;
    }
    if pod.deleting {
      if cfg.allowRecreation {
        km.ready := false;
      } else {
        km.SetFailure("Machine Pod has been deleted");
      }
      return Settled;
    }
    ret := ProvisionPod(cfg, km, api, pod, x);
  }

  method ReconcileNormalInPlace(
    cfg: Config, cl: Cluster, om: OwnerMachine, km: KubernetesMachine, api: ApiServer, x: Inputs)
    returns (ret: Return)
    requires Loaded(cfg, km)
    modifies km, Slices(km.templates), api`pods, api`secrets, api`claims, api`trace
    ensures Kept(cfg, km)
    ensures Ends(km, api, old(api.trace), ReconcileNormal(cfg, cl, om, old(km.View()), old(api.Contents()), x), ret)
  {
    hide PodPresent, PodMissing, Views, Written, Separate, SelfRef, MachinePod.Views;
    if km.failureReason.Some? || km.failureMessage.Some? {
      return Settled;
    }
    km.finalizers := km.finalizers + {FINALIZER};
    km.finalizers := km.finalizers + {FOREGROUND};
    assert km.finalizers == old(km.finalizers) + {FINALIZER, FOREGROUND};
    if om.dataSecretName.None? {
      return Settled;
    }
    if x.getPodFails {
      return Retry;
    }
    if cfg.name !in api.pods {
      ret := HandleMissingPod(cfg, cl, om, km, api, x);
      return;
    }
    ret := HandlePod(cfg, km, api, api.pods[cfg.name], x);
  }

  method ReconcileDeleteInPlace(
    cfg: Config, cl: Cluster, om: OwnerMachine, km: KubernetesMachine, api: ApiServer, x: Inputs)
    returns (ret: Return)
    modifies km, api`trace
    ensures Ends(km, api, old(api.trace), ReconcileDelete(cfg, cl, om, old(km.View()), old(api.Contents()), x), ret)
  {
    if !cl.deleting && om.controlPlane {
      if x.getPodFails {
        return Retry;
      }
      if cfg.name in api.pods {
        if api.pods[cfg.name].owner == Some(cfg.uid) {
          api.trace := api.trace + [Executed(cfg.name, KubeadmReset, x.resetOk)];
          if !x.resetOk {
            return Retry;
          }
        }
      } else {
        km.finalizers := km.finalizers - {FINALIZER};
        km.SetFailure("Machine Pod cannot be found");
        return Settled;
      }
    }
    km.finalizers := km.finalizers - {FINALIZER};
    ret := Settled;
  }

  /** Up to the deferred part. */
  method Dispatch(cfg: Config, km: KubernetesMachine, api: ApiServer, x: Inputs) returns (ret: Return)
    requires Loaded(cfg, km)
    modifies km, Slices(km.templates), api`pods, api`secrets, api`claims, api`trace
    ensures Kept(cfg, km)
    ensures Ends(km, api, old(api.trace), ReconcileBody(cfg, old(km.View()), old(api.Contents()), x), ret)
  {
    hide ReconcileNormal, ReconcileDelete, Views, Written, Separate, SelfRef, MachinePod.Views;
    if x.owner.LookupFailed? {
      return Retry;
    }
    if x.owner.Missing? {
      return Settled;
    }
    var om := x.owner.value;
    if om.version.Some? {
      km.version := om.version;
    }
    if x.cluster.LookupFailed? {
      return Retry;
    }
    if x.cluster.Missing? {
      return Settled;
    }
    var cl := x.cluster.value;
    if !x.infraClusterFound {
      return Settled;
    }
    if x.paused {
      return Settled;
    }
    if km.deleting {
      ret := ReconcileDeleteInPlace(cfg, cl, om, km, api, x);
      return;
    }
    if !cl.infrastructureReady {
      return Settled;
    }
    ret := ReconcileNormalInPlace(cfg, cl, om, km, api, x);
  }

  /** One reconciliation on a fresh read: the phase is recomputed and the record patched whatever the
      body did. */
  method ReconcileMachine(cfg: Config, api: ApiServer, x: Inputs, p: Patch) returns (ret: Return)
    modifies api
    ensures api.View() == Reconcile(cfg, old(api.View()), x, p)
    ensures p == Patch(true, true) ==> ret == ReconcileBody(cfg, old(api.record), old(api.Contents()), x).ret
    ensures p != Patch(true, true) ==> ret == Retry
  {
    hide ReconcileBody, Machine.ReconcilePhase, Kept;
    var km := Load(cfg, api.record);
    ret := Dispatch(cfg, km, api, x);
    km.ReconcilePhase();
    api.record := Patched(api.record, km.View(), p);
    if p != Patch(true, true) {
      ret := Retry;
    }
  }
}
