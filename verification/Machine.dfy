/** One reconciliation of a KubernetesMachine, as a function of what it reads
    (controllers/kubernetesmachine_controller.go, controllers/kubernetesmachine_utils.go). */
module Machine {
  import opened Common
  import opened Pods
  import PodBuilder

  const FINALIZER := "kubernetesmachine.infrastructure.dippynark.co.uk"
  const FOREGROUND := "foregroundDeletion"
  const UNSUPPORTED_CHANGE := "UnsupportedChange"

  // ---- What is reconciled

  datatype Phase = Unset | Pending | Provisioning | Running | Failed | Deleting

  /** The changeable part of a KubernetesMachine record. */
  datatype Record = Record(
    deleting: bool,
    finalizers: set<string>,
    providerID: Option<string>,
    failureReason: Option<string>,
    failureMessage: Option<string>,
    phase: Phase,
    ready: bool,
    version: Option<string>)

  /** An owner reference; `target` is the API version, kind and name it points at. */
  datatype OwnerRef = OwnerRef(target: string, uid: string, controller: Option<bool>, blocksDeletion: Option<bool>)

  /** A volume claim template, with any owner references the user put on it. */
  datatype Template = Template(name: string, owners: seq<OwnerRef>, rest: nat)

  /** The part of a KubernetesMachine that stays as the user wrote it. */
  datatype Config = Config(
    namespace: string, name: string, uid: string, allowRecreation: bool, podSpec: PodSpec, templates: seq<Template>)

  predicate HasFailed(m: Record) {
    m.failureReason.Some? || m.failureMessage.Some?
  }

  function SetFailure(m: Record, message: string): Record {
    m.(failureReason := Some(UNSUPPORTED_CHANGE), failureMessage := Some(message))
  }

  // ---- What it touches

  datatype Claim = Claim(owners: seq<OwnerRef>, rest: nat)

  datatype Secret = Secret(owner: Option<string>, bootstrap: string)

  /** The objects of the machine's namespace, by name. */
  datatype Store = Store(pods: map<string, Pod>, secrets: map<string, Secret>, claims: map<string, Claim>)

  datatype ExecCommand = EnableBootstrap | PatchNode(node: string, providerID: string) | KubeadmReset

  datatype Event =
    | CreatedPod(name: string, pod: Pod)
    | DeletedPod(name: string)
    | CreatedSecret(name: string)
    | CreatedClaim(name: string)
    | Executed(target: string, command: ExecCommand, ok: bool)

  // ---- What it reads from elsewhere

  datatype Lookup<+T> = LookupFailed | Missing | Found(value: T)

  datatype OwnerMachine = OwnerMachine(controlPlane: bool, version: Option<string>, dataSecretName: Option<string>)

  datatype Cluster = Cluster(name: string, deleting: bool, infrastructureReady: bool, apiServerPort: Option<int>)

  /** The bootstrap data and what the script generator makes of it. */
  datatype Bootstrap = NoData | BadData | Script(text: string)

  /** Everything one reconciliation learns from outside the machine record and the store: the objects
      it looks up, the order in which it visits maps, and how its calls end. */
  datatype Inputs = Inputs(
    owner: Lookup<OwnerMachine>,
    cluster: Lookup<Cluster>,
    infraClusterFound: bool,
    paused: bool,
    getPodFails: bool,
    podOrder: seq<string>,
    createPod: Write,
    deletePod: Write,
    claimOrder: seq<string>,
    failingClaimGets: set<string>,
    refusedClaims: set<string>,
    lostClaims: set<string>,
    bootstrap: Bootstrap,
    createSecret: Write,
    installOk: bool,
    controllerPods: Option<seq<string>>,
    patchNodeOk: bool,
    resetOk: bool)

  /** Done, or an error that makes the manager try again. */
  datatype Return = Settled | Retry

  /** The record in memory, the store, the events of this reconciliation, and what it returns. */
  datatype Outcome = Outcome(m: Record, store: Store, events: seq<Event>, ret: Return)

  // ---- Pods as the controller reads them

  function GetContainerStatus(statuses: seq<ContainerStatus>, name: string): Option<ContainerStatus> {
    if statuses == [] then None
    else if statuses[0].name == name then Some(statuses[0])
    else GetContainerStatus(statuses[1..], name)
  }

  function GetCondition(conditions: seq<Condition>, kind: string): Option<Condition> {
    if conditions == [] then None
    else if conditions[0].kind == kind then Some(conditions[0])
    else GetCondition(conditions[1..], kind)
  }

  predicate IsPodReady(p: Pod) {
    var c := GetCondition(p.conditions, "Ready");
    c.Some? && c.value.status == "True"
  }

  function ProviderID(cfg: Config): string {
    "kubernetes://" + cfg.namespace + "/" + cfg.name
  }

  function NodeName(cfg: Config, p: Pod): string {
    if p.spec.hostname != "" then p.spec.hostname else cfg.name
  }

  predicate Owned(cfg: Config, p: Pod) {
    p.owner == Some(cfg.uid)
  }

  // ---- Owner references

  /** The controller reference the machine sets on what it makes. */
  function SelfRef(cfg: Config): OwnerRef {
    OwnerRef("infrastructure.dippynark.co.uk/v1alpha3/KubernetesMachine/" + cfg.name, cfg.uid, Some(true), Some(true))
  }

  /** Another object is the controller already. */
  predicate OwnedElsewhere(owners: seq<OwnerRef>, ref: OwnerRef) {
    exists r :: r in owners && r.target != ref.target && r.controller == Some(true)
  }

  /** The last reference to the same object, or -1. */
  function LastSame(owners: seq<OwnerRef>, ref: OwnerRef): (k: int)
    ensures -1 <= k < |owners|
    ensures k >= 0 ==> owners[k].target == ref.target
    ensures forall i :: k < i < |owners| ==> owners[i].target != ref.target
  {
    if owners == [] then -1
    else if owners[|owners| - 1].target == ref.target then |owners| - 1
    else LastSame(owners[..|owners| - 1], ref)
  }

  /** How controller-runtime sets a controller reference: over the last one to the same object, otherwise
      at the end. */
  function Upsert(owners: seq<OwnerRef>, ref: OwnerRef): seq<OwnerRef> {
    if LastSame(owners, ref) == -1 then owners + [ref] else owners[LastSame(owners, ref) := ref]
  }

  // ---- Claims

  function TemplateNames(ts: seq<Template>): set<string> {
    set t | t in ts :: t.name
  }

  /** Setting the controller reference fails on a template that already has another controller. */
  predicate Claimable(cfg: Config) {
    forall t :: t in cfg.templates ==> !OwnedElsewhere(t.owners, SelfRef(cfg))
  }

  /** What a template's own slice shows once its claim has been given the reference: an entry for the
      machine is overwritten where it is, while a new one is appended out of the template's sight. */
  function Shown(owners: seq<OwnerRef>, ref: OwnerRef): seq<OwnerRef> {
    if LastSame(owners, ref) == -1 then owners else Upsert(owners, ref)
  }

  /** The templates after their claims have been made, up to the first that has another controller. */
  function Written(ts: seq<Template>, ref: OwnerRef): seq<Template> {
    if ts == [] then []
    else if OwnedElsewhere(ts[0].owners, ref) then ts
    else [ts[0].(owners := Shown(ts[0].owners, ref))] + Written(ts[1..], ref)
  }

  datatype NamedClaim = NamedClaim(name: string, claim: Claim)

  function ClaimFor(t: Template, cfg: Config): NamedClaim {
    NamedClaim(PodBuilder.ClaimName(t.name, cfg.name), Claim(Upsert(t.owners, SelfRef(cfg)), t.rest))
  }

  /** The claims by template name; of templates with the same name the last one counts. */
  function ClaimsOf(ts: seq<Template>, cfg: Config): (r: map<string, NamedClaim>)
    ensures r.Keys == TemplateNames(ts)
    ensures forall n :: n in r ==> r[n].name == PodBuilder.ClaimName(n, cfg.name)
  {
    if ts == [] then map[]
    else
      var t := ts[|ts| - 1];
      assert ts == ts[..|ts| - 1] + [t];
      ClaimsOf(ts[..|ts| - 1], cfg)[t.name := ClaimFor(t, cfg)]
  }

  datatype ClaimsOutcome = ClaimsOutcome(claims: map<string, Claim>, events: seq<Event>, ok: bool)

  /** Get each claim, in the order the claim map is visited, and create the ones not found; errors are
      collected, not fatal. */
  function CreateClaims(
    wanted: map<string, NamedClaim>, order: seq<string>, claims: map<string, Claim>, x: Inputs): ClaimsOutcome
  {
    if order == [] then ClaimsOutcome(claims, [], true)
    else if order[|order| - 1] !in wanted then CreateClaims(wanted, order[..|order| - 1], claims, x)
    else
      var o := CreateClaims(wanted, order[..|order| - 1], claims, x);
      var c := wanted[order[|order| - 1]];
      if c.name in x.failingClaimGets then o.(ok := false)
      else if c.name in o.claims then o
      else if c.name in x.refusedClaims then o.(ok := false)
      else ClaimsOutcome(o.claims[c.name := c.claim], o.events + [CreatedClaim(c.name)],
                         o.ok && c.name !in x.lostClaims)
  }

  // ---- Creating the machine Pod

  function NewPod(cfg: Config, cl: Cluster, om: OwnerMachine, order: seq<string>): Pod {
    var labels := map[PodBuilder.CLUSTER_LABEL := cl.name];
    Pod(Some(cfg.uid), false,
        if om.controlPlane then labels[PodBuilder.CONTROL_PLANE_LABEL := ""] else labels,
        PodBuilder.MachineSpec(PodBuilder.StandardLayout(cfg.name), cfg.podSpec, cfg.name, order,
                               PodBuilder.PodImage(om.version), om.controlPlane,
                               PodBuilder.ApiServerPort(cl.apiServerPort)),
        [], [])
  }

  function CreatePod(cfg: Config, cl: Cluster, om: OwnerMachine, m: Record, st: Store, x: Inputs): Outcome {
    if !Claimable(cfg) || x.createPod == Refused then Outcome(m, st, [], Retry)
    else
      var pod := NewPod(cfg, cl, om, x.podOrder);
      Outcome(m, st.(pods := st.pods[cfg.name := pod]), [CreatedPod(cfg.name, pod)],
              if x.createPod == Done then Settled else Retry)
  }

  function PodMissing(cfg: Config, cl: Cluster, om: OwnerMachine, m: Record, st: Store, x: Inputs): Outcome {
    if cfg.allowRecreation then CreatePod(cfg, cl, om, m.(ready := false), st, x)
    else if m.providerID.Some? then Outcome(SetFailure(m, "Machine Pod cannot be found"), st, [], Settled)
    else CreatePod(cfg, cl, om, m, st, x)
  }

  // ---- Bringing an existing Pod to readiness

  function SecretName(cfg: Config): string { PodBuilder.CloudInitSecret(cfg.name) }

  function CloudInitSecret(cfg: Config, script: string): Secret {
    Secret(Some(cfg.uid), script)
  }

  /** The ownership check looks at the Secret just built, not at the one in the store. */
  function CheckSecret(cfg: Config, m: Record, secret: Secret): Record {
    if secret.owner != Some(cfg.uid) then SetFailure(m, "bootstrap Secret is not controlled by KubernetesMachine")
    else m
  }

  /** After claims and Secret are in place: follow the kind container. */
  function FollowContainer(cfg: Config, m: Record, st: Store, pod: Pod, x: Inputs): Outcome {
    var status := GetContainerStatus(pod.statuses, PodBuilder.KIND);
    if status.None? then Outcome(m, st, [], Settled)
    else if status.value.terminated.Some? then
      if cfg.allowRecreation then
        if x.deletePod == Refused then Outcome(m, st, [], Retry)
        else Outcome(m, st.(pods := st.pods[cfg.name := pod.(deleting := true)]), [DeletedPod(cfg.name)],
                     if x.deletePod == Done then Settled else Retry)
      else Outcome(SetFailure(m, "kind container has terminated: " + status.value.terminated.value), st, [], Settled)
    else if !status.value.running then Outcome(m, st, [], Settled)
    else
      var install := Executed(cfg.name, EnableBootstrap, x.installOk);
      if !x.installOk then Outcome(m, st, [install], Retry)
      else if !status.value.ready then Outcome(m, st, [install], Settled)
      else if x.controllerPods.None? || x.controllerPods.value == [] then Outcome(m, st, [install], Retry)
      else
        var patch := Executed(x.controllerPods.value[0], PatchNode(NodeName(cfg, pod), ProviderID(cfg)), x.patchNodeOk);
        if !x.patchNodeOk then Outcome(m, st, [install, patch], Retry)
        else if !IsPodReady(pod) then Outcome(m, st, [install, patch], Settled)
        else Outcome(m.(ready := true), st, [install, patch], Settled)
  }

  function Before(events: seq<Event>, o: Outcome): Outcome {
    o.(events := events + o.events)
  }

  function StoreSecret(cfg: Config, m: Record, st: Store, pod: Pod, x: Inputs): Outcome {
    match x.bootstrap
    case NoData => Outcome(m, st, [], Settled)
    case BadData => Outcome(m, st, [], Retry)
    case Script(text) =>
      var secret := CloudInitSecret(cfg, text);
      var present := SecretName(cfg) in st.secrets;
      if x.createSecret == Refused then Outcome(m, st, [], Retry)
      else
        var st' := if present then st else st.(secrets := st.secrets[SecretName(cfg) := secret]);
        var events := if present then [] else [CreatedSecret(SecretName(cfg))];
        if x.createSecret == Lost then Outcome(m, st', events, Retry)
        else
          var m' := CheckSecret(cfg, m, secret);
          if HasFailed(m') then Outcome(m', st', events, Settled)
          else Before(events, FollowContainer(cfg, m', st', pod, x))
  }

  function Provision(cfg: Config, m: Record, st: Store, pod: Pod, x: Inputs): Outcome {
    if !Claimable(cfg) then Outcome(m, st, [], Retry)
    else
      var c := CreateClaims(ClaimsOf(cfg.templates, cfg), x.claimOrder, st.claims, x);
      var st' := st.(claims := c.claims);
      if !c.ok then Outcome(m, st', c.events, Retry)
      else Before(c.events, StoreSecret(cfg, m, st', pod, x))
  }

  function PodPresent(cfg: Config, m: Record, st: Store, pod: Pod, x: Inputs): Outcome {
    if !Owned(cfg, pod) then
      Outcome(SetFailure(m, "Machine Pod is not controlled by KubernetesMachine"), st, [], Settled)
    else if m.providerID.None? then Outcome(m.(providerID := Some(ProviderID(cfg))), st, [], Settled)
    else if pod.deleting then
      if cfg.allowRecreation then Outcome(m.(ready := false), st, [], Settled)
      else Outcome(SetFailure(m, "Machine Pod has been deleted"), st, [], Settled)
    else Provision(cfg, m, st, pod, x)
  }

  function ReconcileNormal(cfg: Config, cl: Cluster, om: OwnerMachine, m: Record, st: Store, x: Inputs): Outcome {
    if HasFailed(m) then Outcome(m, st, [], Settled)
    else
      var m' := m.(finalizers := m.finalizers + {FINALIZER, FOREGROUND});
      if om.dataSecretName.None? then Outcome(m', st, [], Settled)
      else if x.getPodFails then Outcome(m', st, [], Retry)
      else if cfg.name !in st.pods then PodMissing(cfg, cl, om, m', st, x)
      else PodPresent(cfg, m', st, st.pods[cfg.name], x)
  }

  // ---- Deletion

  function ReconcileDelete(cfg: Config, cl: Cluster, om: OwnerMachine, m: Record, st: Store, x: Inputs): Outcome {
    var released := m.(finalizers := m.finalizers - {FINALIZER});
    if cl.deleting || !om.controlPlane then Outcome(released, st, [], Settled)
    else if x.getPodFails then Outcome(m, st, [], Retry)
    else if cfg.name !in st.pods then Outcome(SetFailure(released, "Machine Pod cannot be found"), st, [], Settled)
    else if !Owned(cfg, st.pods[cfg.name]) then Outcome(released, st, [], Settled)
    else
      var reset := Executed(cfg.name, KubeadmReset, x.resetOk);
      if x.resetOk then Outcome(released, st, [reset], Settled) else Outcome(m, st, [reset], Retry)
  }

  // ---- One reconciliation

  function ReconcileVersion(m: Record, om: OwnerMachine): Record {
    if om.version.Some? then m.(version := om.version) else m
  }

  function ReconcilePhase(m: Record): Record {
    m.(phase :=
         if m.deleting then Deleting
         else if HasFailed(m) then Failed
         else if m.providerID.Some? then (if m.ready then Running else Provisioning)
         else if m.phase == Unset then Pending
         else m.phase)
  }

  /** The body of Reconcile, up to the deferred part. */
  function ReconcileBody(cfg: Config, m: Record, st: Store, x: Inputs): Outcome {
    match x.owner
    case LookupFailed => Outcome(m, st, [], Retry)
    case Missing => Outcome(m, st, [], Settled)
    case Found(om) =>
      var m' := ReconcileVersion(m, om);
      match x.cluster
      case LookupFailed => Outcome(m', st, [], Retry)
      case Missing => Outcome(m', st, [], Settled)
      case Found(cl) =>
        if !x.infraClusterFound || x.paused then Outcome(m', st, [], Settled)
        else if m'.deleting then ReconcileDelete(cfg, cl, om, m', st, x)
        else if !cl.infrastructureReady then Outcome(m', st, [], Settled)
        else ReconcileNormal(cfg, cl, om, m', st, x)
  }

  function Patched(persisted: Record, m: Record, p: Patch): Record {
    var withSpec := if p.spec then persisted.(finalizers := m.finalizers, providerID := m.providerID) else persisted;
    if p.status
    then withSpec.(failureReason := m.failureReason, failureMessage := m.failureMessage, phase := m.phase,
                   ready := m.ready, version := m.version)
    else withSpec
  }

  /** The machine as persisted, the store, and every event so far. */
  datatype World = World(record: Record, store: Store, trace: seq<Event>)

  /** One reconciliation on a fresh read, with its deferred phase computation and patch. */
  function Reconcile(cfg: Config, w: World, x: Inputs, p: Patch): World {
    var o := ReconcileBody(cfg, w.record, w.store, x);
    World(Patched(w.record, ReconcilePhase(o.m), p), o.store, w.trace + o.events)
  }
}
