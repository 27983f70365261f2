/** What one reconciliation of a machine does, observable by observable: for every record, store and
    input, exactly when each field, object, event and return value changes, and to what. */
module MachineOutcomes {
  import opened Common
  import opened Pods
  import opened Machine
  import opened MachineRuns
  import PodBuilder

  // ---- How far a reconciliation gets, on what it reads

  /** Owner, cluster and infrastructure cluster are found, and nothing is paused. */
  predicate Admitted(x: Inputs) {
    x.owner.Found? && x.cluster.Found? && x.infraClusterFound && !x.paused
  }

  /** Normal work, on a machine that has not failed. */
  predicate Working(w: World, x: Inputs) {
    && Admitted(x) && !w.record.deleting && x.cluster.value.infrastructureReady
    && w.record.failureReason.None? && w.record.failureMessage.None?
  }

  /** It gets to see whether there is a Pod under the machine's name. */
  predicate Looks(w: World, x: Inputs) {
    Working(w, x) && x.owner.value.dataSecretName.Some? && !x.getPodFails
  }

  predicate Absent(cfg: Config, w: World, x: Inputs) {
    Looks(w, x) && cfg.name !in w.store.pods
  }

  predicate Foreign(cfg: Config, w: World, x: Inputs) {
    Looks(w, x) && cfg.name in w.store.pods && w.store.pods[cfg.name].owner != Some(cfg.uid)
  }

  /** The machine's own Pod, of a machine that has its provider ID. */
  predicate Known(cfg: Config, w: World, x: Inputs) {
    && Looks(w, x) && cfg.name in w.store.pods && w.store.pods[cfg.name].owner == Some(cfg.uid)
    && w.record.providerID.Some?
  }

  predicate Terminating(cfg: Config, w: World, x: Inputs) {
    Known(cfg, w, x) && w.store.pods[cfg.name].deleting
  }

  /** No template names a controller other than this machine. */
  predicate NoOtherController(cfg: Config) {
    forall t, r :: t in cfg.templates && r in t.owners && r.controller == Some(true) ==> r.target == SelfRef(cfg).target
  }

  predicate Creates(cfg: Config, w: World, x: Inputs) {
    Absent(cfg, w, x) && (cfg.allowRecreation || w.record.providerID.None?)
  }

  predicate Provisions(cfg: Config, w: World, x: Inputs) {
    Known(cfg, w, x) && !w.store.pods[cfg.name].deleting && NoOtherController(cfg)
  }

  /** The claim of this name can be read, and is there or can be created. */
  predicate Obtained(claims: map<string, Claim>, x: Inputs, name: string) {
    name !in x.failingClaimGets && (name in claims || (name !in x.refusedClaims && name !in x.lostClaims))
  }

  predicate ClaimsObtained(cfg: Config, w: World, x: Inputs) {
    && Provisions(cfg, w, x)
    && forall t :: t in cfg.templates ==> Obtained(w.store.claims, x, t.name + "-" + cfg.name)
  }

  predicate SecretStored(cfg: Config, w: World, x: Inputs) {
    ClaimsObtained(cfg, w, x) && x.bootstrap.Script? && x.createSecret == Done
  }

  /** The status of the machine's kind container, if it has one yet. */
  function KindStatus(cfg: Config, w: World): Option<ContainerStatus> {
    if cfg.name in w.store.pods then GetContainerStatus(w.store.pods[cfg.name].statuses, "kind") else None
  }

  predicate Ended(cfg: Config, w: World, x: Inputs) {
    SecretStored(cfg, w, x) && KindStatus(cfg, w).Some? && KindStatus(cfg, w).value.terminated.Some?
  }

  predicate Up(cfg: Config, w: World, x: Inputs) {
    && SecretStored(cfg, w, x) && KindStatus(cfg, w).Some?
    && KindStatus(cfg, w).value.terminated.None? && KindStatus(cfg, w).value.running
  }

  /** The kind container is ready and there is a controller Pod to tell. */
  predicate Tells(cfg: Config, w: World, x: Inputs) {
    && Up(cfg, w, x) && x.installOk && KindStatus(cfg, w).value.ready
    && x.controllerPods.Some? && x.controllerPods.value != []
  }

  predicate ResetNeeded(w: World, x: Inputs) {
    Admitted(x) && w.record.deleting && !x.cluster.value.deleting && x.owner.value.controlPlane
  }

  function Body(cfg: Config, w: World, x: Inputs): Outcome {
    ReconcileBody(cfg, w.record, w.store, x)
  }

  // ---- Claims

  lemma ClaimableExact(cfg: Config)
    ensures Claimable(cfg) <==> NoOtherController(cfg)
  {}

  /** The claim of this name can be read, is missing, and is not refused. */
  predicate Makes(claims: map<string, Claim>, x: Inputs, name: string) {
    name !in claims && name !in x.failingClaimGets && name !in x.refusedClaims
  }

  /** Every claim is either kept, or created as wanted; no other appears. */
  ghost predicate StoreExact(
    wanted: map<string, NamedClaim>, order: seq<string>, claims: map<string, Claim>, x: Inputs, o: ClaimsOutcome)
  {
    && (forall c :: c in claims ==> c in o.claims && o.claims[c] == claims[c])
    && (forall n :: n in order && n in wanted && Makes(claims, x, wanted[n].name) ==>
          wanted[n].name in o.claims && o.claims[wanted[n].name] == wanted[n].claim)
    && (forall c :: c in o.claims && c !in claims ==>
          Makes(claims, x, c) && exists n :: n in order && n in wanted && wanted[n].name == c)
  }

  /** Success means every one was obtained, and the events name exactly the created ones. */
  ghost predicate ReportExact(
    wanted: map<string, NamedClaim>, order: seq<string>, claims: map<string, Claim>, x: Inputs, o: ClaimsOutcome)
  {
    && (o.ok <==> forall n :: n in order && n in wanted ==> Obtained(claims, x, wanted[n].name))
    && (forall e :: e in o.events <==> e.CreatedClaim? && e.name in o.claims && e.name !in claims)
  }

  /** Different templates have different claims. */
  ghost predicate Apart(wanted: map<string, NamedClaim>) {
    forall m, n :: m in wanted && n in wanted && wanted[m].name == wanted[n].name ==> m == n
  }

  lemma {:induction false} CreateClaimsExact(
    wanted: map<string, NamedClaim>, order: seq<string>, claims: map<string, Claim>, x: Inputs)
    requires Apart(wanted)
    ensures StoreExact(wanted, order, claims, x, CreateClaims(wanted, order, claims, x))
    ensures ReportExact(wanted, order, claims, x, CreateClaims(wanted, order, claims, x))
  {
    if order != [] {
      var front, last := order[..|order| - 1], order[|order| - 1];
      assert order == front + [last];
      CreateClaimsExact(wanted, front, claims, x);
      var was, o := CreateClaims(wanted, front, claims, x), CreateClaims(wanted, order, claims, x);
      if last in wanted {
        ClaimStep(wanted, front, last, claims, x, was, o);
      } else {
        assert forall n :: n in order && n in wanted <==> n in front && n in wanted;
      }
    }
  }

  lemma ClaimStep(
    wanted: map<string, NamedClaim>, front: seq<string>, last: string, claims: map<string, Claim>, x: Inputs,
    was: ClaimsOutcome, o: ClaimsOutcome)
    requires Apart(wanted) && last in wanted
    requires StoreExact(wanted, front, claims, x, was) && ReportExact(wanted, front, claims, x, was)
    requires var c := wanted[last];
             o == if c.name in x.failingClaimGets then was.(ok := false)
                  else if c.name in was.claims then was
                  else if c.name in x.refusedClaims then was.(ok := false)
                  else ClaimsOutcome(was.claims[c.name := c.claim], was.events + [CreatedClaim(c.name)],
                                     was.ok && c.name !in x.lostClaims)
    ensures StoreExact(wanted, front + [last], claims, x, o)
    ensures ReportExact(wanted, front + [last], claims, x, o)
  {
    var c := wanted[last];
    assert forall n :: n in front + [last] <==> n in front || n == last;
    assert c.name in was.claims && c.name !in claims ==> last in front;
    assert Makes(claims, x, c.name) && c.name in was.claims ==> last in front;
    StoreStep(wanted, front, last, claims, x, was, o);
  }

  lemma StoreStep(
    wanted: map<string, NamedClaim>, front: seq<string>, last: string, claims: map<string, Claim>, x: Inputs,
    was: ClaimsOutcome, o: ClaimsOutcome)
    requires Apart(wanted) && last in wanted && StoreExact(wanted, front, claims, x, was)
    requires var c := wanted[last];
             o.claims == if c.name in x.failingClaimGets || c.name in was.claims || c.name in x.refusedClaims
                         then was.claims else was.claims[c.name := c.claim]
    ensures StoreExact(wanted, front + [last], claims, x, o)
  {
    var c := wanted[last];
    assert forall n :: n in front + [last] <==> n in front || n == last;
  }

  lemma {:induction false} ClaimsOfLast(ts: seq<Template>, cfg: Config, i: nat)
    requires i < |ts| && forall j :: i < j < |ts| ==> ts[j].name != ts[i].name
    ensures ts[i].name in ClaimsOf(ts, cfg)
    ensures ClaimsOf(ts, cfg)[ts[i].name] ==
            NamedClaim(ts[i].name + "-" + cfg.name, Claim(Upsert(ts[i].owners, SelfRef(cfg)), ts[i].rest))
  {
    hide Upsert, SelfRef;
    if i < |ts| - 1 {
      ClaimsOfLast(ts[..|ts| - 1], cfg, i);
    }
  }

  lemma ClaimsApart(cfg: Config)
    ensures Apart(ClaimsOf(cfg.templates, cfg))
  {
    var wanted := ClaimsOf(cfg.templates, cfg);
    hide ClaimsOf;
    forall m, n | m in wanted && n in wanted && wanted[m].name == wanted[n].name ensures m == n {
      PodBuilder.ClaimNameInjective(m, n, cfg.name);
    }
  }

  /** Setting a controller reference: it is there, no other object is a controller, every other entry
      stays where it was, and one more is added only if none pointed at the machine. */
  lemma UpsertExact(owners: seq<OwnerRef>, ref: OwnerRef)
    requires ref.controller == Some(true) && !OwnedElsewhere(owners, ref)
    ensures var r := Upsert(owners, ref);
            && ref in r
            && (forall o :: o in r && o.controller == Some(true) ==> o.target == ref.target)
            && |r| == |owners| + (if exists o :: o in owners && o.target == ref.target then 0 else 1)
            && forall i :: 0 <= i < |owners| && r[i] != owners[i] ==> owners[i].target == ref.target && r[i] == ref
  {
    var k, r := LastSame(owners, ref), Upsert(owners, ref);
    assert r[if k == -1 then |owners| else k] == ref;
    if k == -1 {
      forall o | o in owners ensures o.target != ref.target {
        var i :| 0 <= i < |owners| && owners[i] == o;
      }
    } else {
      assert owners[k] in owners;
    }
  }

  /** Every claim is controlled by the machine, under its name and UID, and blocks its deletion. */
  lemma ClaimsOwned(cfg: Config, i: nat)
    requires i < |cfg.templates| && NoOtherController(cfg)
    requires forall j :: i < j < |cfg.templates| ==> cfg.templates[j].name != cfg.templates[i].name
    ensures var t := cfg.templates[i];
            && t.name in ClaimsOf(cfg.templates, cfg)
            && (var claim := ClaimsOf(cfg.templates, cfg)[t.name].claim;
                && claim.rest == t.rest
                && OwnerRef("infrastructure.dippynark.co.uk/v1alpha3/KubernetesMachine/" + cfg.name, cfg.uid,
                            Some(true), Some(true)) in claim.owners
                && forall o :: o in claim.owners && o.controller == Some(true) ==> o.target == SelfRef(cfg).target)
  {
    var t := cfg.templates[i];
    ClaimsOfLast(cfg.templates, cfg, i);
    ClaimableExact(cfg);
    assert t in cfg.templates;
    UpsertExact(t.owners, SelfRef(cfg));
    hide ClaimsOf, Upsert, OwnedElsewhere, NoOtherController;
  }

  /** The claims after a reconciliation of any kind: each template's is kept if it is there, and
      otherwise created, as its template says, if it can be read and is not refused; no other changes. */
  lemma ClaimsExact(cfg: Config, w: World, x: Inputs)
    requires IsOrder(x.claimOrder, TemplateNames(cfg.templates))
    ensures Body(cfg, w, x).store.claims.Keys ==
            w.store.claims.Keys +
            if Provisions(cfg, w, x)
            then set n | n in TemplateNames(cfg.templates) && Makes(w.store.claims, x, n + "-" + cfg.name)
                   :: n + "-" + cfg.name
            else {}
    ensures forall c :: c in w.store.claims ==> Body(cfg, w, x).store.claims[c] == w.store.claims[c]
    ensures forall n :: n in TemplateNames(cfg.templates) && n + "-" + cfg.name in Body(cfg, w, x).store.claims
                        && n + "-" + cfg.name !in w.store.claims ==>
              Body(cfg, w, x).store.claims[n + "-" + cfg.name] == ClaimsOf(cfg.templates, cfg)[n].claim
  {
    BodyClaims(cfg, w, x);
    hide Body, Provisions, TemplateNames, CreateClaims, Makes;
    if Provisions(cfg, w, x) {
      ClaimsApart(cfg);
      var wanted := ClaimsOf(cfg.templates, cfg);
      assert forall n :: n in wanted ==> wanted[n].name == n + "-" + cfg.name;
      assert wanted.Keys == TemplateNames(cfg.templates);
      hide ClaimsOf, ReportExact;
      CreateClaimsExact(wanted, x.claimOrder, w.store.claims, x);
      var o := CreateClaims(wanted, x.claimOrder, w.store.claims, x);
      StoreKeys(wanted, x.claimOrder, w.store.claims, x, o, cfg.name);
    }
  }

  lemma StoreKeys(
    wanted: map<string, NamedClaim>, order: seq<string>, claims: map<string, Claim>, x: Inputs, o: ClaimsOutcome,
    machine: string)
    requires StoreExact(wanted, order, claims, x, o) && forall n :: n in order <==> n in wanted
    requires forall n :: n in wanted ==> wanted[n].name == n + "-" + machine
    ensures o.claims.Keys ==
            claims.Keys + set n | n in wanted.Keys && Makes(claims, x, n + "-" + machine) :: n + "-" + machine
    ensures forall c :: c in claims ==> o.claims[c] == claims[c]
    ensures forall n :: n in wanted && n + "-" + machine in o.claims && n + "-" + machine !in claims ==>
              o.claims[n + "-" + machine] == wanted[n].claim
  {
    hide Makes;
    forall n | n in wanted && n + "-" + machine in o.claims && n + "-" + machine !in claims
      ensures o.claims[n + "-" + machine] == wanted[n].claim
    {
      assert wanted[n].name == n + "-" + machine;
    }
  }

  lemma ProvisionClaims(cfg: Config, m: Record, st: Store, pod: Pod, x: Inputs)
    ensures Claimable(cfg) ==>
              Provision(cfg, m, st, pod, x).store.claims ==
              CreateClaims(ClaimsOf(cfg.templates, cfg), x.claimOrder, st.claims, x).claims
    ensures !Claimable(cfg) ==> Provision(cfg, m, st, pod, x).store == st
  {
    hide CreateClaims, ClaimsOf, GetContainerStatus, IsPodReady, ProviderID, NodeName, Claimable;
  }

  lemma BodyClaims(cfg: Config, w: World, x: Inputs)
    ensures Body(cfg, w, x).store.claims ==
            if Provisions(cfg, w, x)
            then CreateClaims(ClaimsOf(cfg.templates, cfg), x.claimOrder, w.store.claims, x).claims
            else w.store.claims
  {
    ClaimableExact(cfg);
    hide Provision, NewPod, ProviderID, CreateClaims, ClaimsOf, Claimable, NoOtherController;
    if Known(cfg, w, x) {
      ProvisionClaims(cfg, Prepared(w, x), w.store, w.store.pods[cfg.name], x);
    }
  }

  /** The record as it is when the machine's Pod is looked at. */
  function Prepared(w: World, x: Inputs): Record
    requires x.owner.Found?
  {
    var m := ReconcileVersion(w.record, x.owner.value);
    m.(finalizers := m.finalizers + {FINALIZER, FOREGROUND})
  }

  lemma ClaimsOk(cfg: Config, w: World, x: Inputs)
    requires IsOrder(x.claimOrder, TemplateNames(cfg.templates)) && Provisions(cfg, w, x)
    ensures CreateClaims(ClaimsOf(cfg.templates, cfg), x.claimOrder, w.store.claims, x).ok
            <==> ClaimsObtained(cfg, w, x)
  {
    ClaimsApart(cfg);
    var wanted := ClaimsOf(cfg.templates, cfg);
    assert forall n :: n in wanted ==> wanted[n].name == n + "-" + cfg.name;
    hide ClaimsOf, CreateClaims, NoOtherController, Obtained;
    CreateClaimsExact(wanted, x.claimOrder, w.store.claims, x);
    assert forall t :: t in cfg.templates ==> t.name in TemplateNames(cfg.templates);
  }

  // ---- Provisioning, by how far it gets

  /** Claims failed: nothing more happens. Otherwise what follows is the Secret and the container. */
  lemma ProvisionSplits(cfg: Config, w: World, x: Inputs)
    requires IsOrder(x.claimOrder, TemplateNames(cfg.templates)) && Known(cfg, w, x) && !Terminating(cfg, w, x)
    ensures var m := Prepared(w, x);
            var c := CreateClaims(ClaimsOf(cfg.templates, cfg), x.claimOrder, w.store.claims, x);
            Body(cfg, w, x) ==
            if !NoOtherController(cfg) then Outcome(m, w.store, [], Retry)
            else if !ClaimsObtained(cfg, w, x) then Outcome(m, w.store.(claims := c.claims), c.events, Retry)
            else Machine.Before(c.events, StoreSecret(cfg, m, w.store.(claims := c.claims), w.store.pods[cfg.name], x))
  {
    ClaimableExact(cfg);
    BodyBranches(cfg, w, x);
    assert !Terminating(cfg, w, x) && Known(cfg, w, x);
    if NoOtherController(cfg) {
      ClaimsOk(cfg, w, x);
    }
    hide Body, StoreSecret, CreateClaims, ClaimsOf, Claimable, NoOtherController, ClaimsObtained, TemplateNames,
      ProviderID, Prepared;
  }

  // ---- The record

  lemma FollowKeeps(cfg: Config, m: Record, st: Store, pod: Pod, x: Inputs)
    ensures var o := FollowContainer(cfg, m, st, pod, x).m; o.version == m.version && o.finalizers == m.finalizers
  {
    hide GetContainerStatus, IsPodReady, ProviderID, NodeName;
  }

  lemma StoreKeeps(cfg: Config, m: Record, st: Store, pod: Pod, x: Inputs)
    ensures var o := StoreSecret(cfg, m, st, pod, x).m; o.version == m.version && o.finalizers == m.finalizers
  {
    hide FollowContainer, SecretName;
    FollowKeeps(cfg, m, st, pod, x);
    if x.bootstrap.Script? {
      var secret := CloudInitSecret(cfg, x.bootstrap.text);
      FollowKeeps(cfg, m, st.(secrets := st.secrets[SecretName(cfg) := secret]), pod, x);
    }
  }

  lemma ProvisionKeeps(cfg: Config, m: Record, st: Store, pod: Pod, x: Inputs)
    ensures var o := Provision(cfg, m, st, pod, x).m; o.version == m.version && o.finalizers == m.finalizers
  {
    hide CreateClaims, ClaimsOf, StoreSecret, Claimable;
    var c := CreateClaims(ClaimsOf(cfg.templates, cfg), x.claimOrder, st.claims, x);
    StoreKeeps(cfg, m, st.(claims := c.claims), pod, x);
  }

  lemma PresentKeeps(cfg: Config, m: Record, st: Store, pod: Pod, x: Inputs)
    ensures var o := PodPresent(cfg, m, st, pod, x).m; o.version == m.version && o.finalizers == m.finalizers
  {
    hide Provision, ProviderID;
    if Owned(cfg, pod) && m.providerID.Some? {
      if !pod.deleting {
        ProvisionKeeps(cfg, m, st, pod, x);
      }
    }
  }

  lemma MissingKeeps(cfg: Config, cl: Cluster, om: OwnerMachine, m: Record, st: Store, x: Inputs)
    ensures var o := PodMissing(cfg, cl, om, m, st, x).m; o.version == m.version && o.finalizers == m.finalizers
  {
    hide NewPod, Claimable;
  }

  /** The version is the owner's, when it is found and has one. */
  lemma VersionExact(cfg: Config, w: World, x: Inputs)
    ensures Body(cfg, w, x).m.version ==
            if x.owner.Found? && x.owner.value.version.Some? then x.owner.value.version else w.record.version
  {
    KeptWhenLooking(cfg, w, x);
    hide PodPresent, PodMissing;
  }

  lemma KeptWhenLooking(cfg: Config, w: World, x: Inputs)
    ensures Looks(w, x) && cfg.name in w.store.pods ==>
              var o := PodPresent(cfg, Prepared(w, x), w.store, w.store.pods[cfg.name], x).m;
              o.version == Prepared(w, x).version && o.finalizers == Prepared(w, x).finalizers
    ensures Looks(w, x) && cfg.name !in w.store.pods ==>
              var o := PodMissing(cfg, x.cluster.value, x.owner.value, Prepared(w, x), w.store, x).m;
              o.version == Prepared(w, x).version && o.finalizers == Prepared(w, x).finalizers
  {
    hide PodPresent, PodMissing, Prepared;
    if Looks(w, x) {
      MissingKeeps(cfg, x.cluster.value, x.owner.value, Prepared(w, x), w.store, x);
      if cfg.name in w.store.pods {
        PresentKeeps(cfg, Prepared(w, x), w.store, w.store.pods[cfg.name], x);
      }
    }
  }

  /** A deletion may release the machine: the cluster goes too, or it is no control-plane machine, or
      its Pod is gone, foreign or has just been reset. */
  predicate Releases(cfg: Config, w: World, x: Inputs) {
    && Admitted(x) && w.record.deleting
    && (|| x.cluster.value.deleting || !x.owner.value.controlPlane
        || (!x.getPodFails && (|| cfg.name !in w.store.pods || w.store.pods[cfg.name].owner != Some(cfg.uid)
                               || x.resetOk)))
  }

  /** Both finalizers go on in normal work, and the machine's own comes off in a release; nothing else
      touches them. */
  lemma FinalizersExact(cfg: Config, w: World, x: Inputs)
    ensures Body(cfg, w, x).m.finalizers ==
            if Working(w, x) then w.record.finalizers + {FINALIZER, FOREGROUND}
            else if Releases(cfg, w, x) then w.record.finalizers - {FINALIZER}
            else w.record.finalizers
  {
    KeptWhenLooking(cfg, w, x);
    hide PodPresent, PodMissing;
  }

  /** Over the whole step: a machine's finalizer goes exactly in a release whose spec patch is done. */
  lemma ReleasedExactly(cfg: Config, w: World, x: Inputs, p: Patch)
    requires FINALIZER in w.record.finalizers
    ensures FINALIZER !in Reconcile(cfg, w, x, p).record.finalizers <==> p.spec && Releases(cfg, w, x)
  {
    FinalizersExact(cfg, w, x);
    hide ReconcileBody;
  }

  /** The failure a reconciliation records, if any. */
  function Verdict(cfg: Config, w: World, x: Inputs): Option<string> {
    if ResetNeeded(w, x) && !x.getPodFails && cfg.name !in w.store.pods then Some("Machine Pod cannot be found")
    else if Absent(cfg, w, x) && !cfg.allowRecreation && w.record.providerID.Some? then
      Some("Machine Pod cannot be found")
    else if Foreign(cfg, w, x) then Some("Machine Pod is not controlled by KubernetesMachine")
    else if Terminating(cfg, w, x) && !cfg.allowRecreation then Some("Machine Pod has been deleted")
    else if Ended(cfg, w, x) && !cfg.allowRecreation then
      Some("kind container has terminated: " + KindStatus(cfg, w).value.terminated.value)
    else None
  }

  /** Ready is lost when a machine that allows recreation sees its Pod missing or terminating, and
      gained after both commands when container and Pod are ready; nothing else changes it. */
  ghost function ReadyAfter(cfg: Config, w: World, x: Inputs): bool {
    if (Absent(cfg, w, x) || Terminating(cfg, w, x)) && cfg.allowRecreation then false
    else if Tells(cfg, w, x) && x.patchNodeOk && SaysReady(w.store.pods[cfg.name]) then true
    else w.record.ready
  }

  // ---- The store

  /** The Pod is created, marked for deletion, or left alone; no other Pod is touched. */
  function PodsAfter(cfg: Config, w: World, x: Inputs): map<string, Pod> {
    if Creates(cfg, w, x) && NoOtherController(cfg) && x.createPod != Refused then
      w.store.pods[cfg.name := NewPod(cfg, x.cluster.value, x.owner.value, x.podOrder)]
    else if Ended(cfg, w, x) && cfg.allowRecreation && x.deletePod != Refused then
      w.store.pods[cfg.name := w.store.pods[cfg.name].(deleting := true)]
    else w.store.pods
  }

  /** The bootstrap Secret is created with the generated script, owned by the machine, once the claims
      are there and unless it exists; no other Secret is touched. */
  function SecretsAfter(cfg: Config, w: World, x: Inputs): map<string, Secret> {
    var name := cfg.name + "-cloud-init";
    if && ClaimsObtained(cfg, w, x) && x.bootstrap.Script? && x.createSecret != Refused
       && name !in w.store.secrets
    then w.store.secrets[name := Secret(Some(cfg.uid), x.bootstrap.text)]
    else w.store.secrets
  }

  // ---- Events and return value

  /** The node, named as the Pod's hostname if it has one, is given the machine's provider ID. */
  function NodePatch(cfg: Config, pod: Pod): ExecCommand {
    PatchNode(if pod.spec.hostname == "" then cfg.name else pod.spec.hostname,
              "kubernetes://" + cfg.namespace + "/" + cfg.name)
  }

  /** What is done to a Pod whose Secret is stored: deleted once its container has ended, or else told
      to start, whether it is ready or not, and when it is ready made known to its node. */
  function Commands(cfg: Config, w: World, x: Inputs): seq<Event> {
    if Ended(cfg, w, x) then
      if cfg.allowRecreation && x.deletePod != Refused then [DeletedPod(cfg.name)] else []
    else if Tells(cfg, w, x) then
      [Executed(cfg.name, EnableBootstrap, x.installOk),
       Executed(x.controllerPods.value[0], NodePatch(cfg, w.store.pods[cfg.name]), x.patchNodeOk)]
    else if Up(cfg, w, x) then [Executed(cfg.name, EnableBootstrap, x.installOk)]
    else []
  }

  function SecretEvents(cfg: Config, w: World, x: Inputs): seq<Event> {
    var name := cfg.name + "-cloud-init";
    if x.bootstrap.Script? && x.createSecret != Refused && name !in w.store.secrets then [CreatedSecret(name)] else []
  }

  predicate ResetsPod(cfg: Config, w: World, x: Inputs) {
    && ResetNeeded(w, x) && !x.getPodFails
    && cfg.name in w.store.pods && w.store.pods[cfg.name].owner == Some(cfg.uid)
  }

  /** Everything a reconciliation does to the cluster, in order. */
  function EventsAfter(cfg: Config, w: World, x: Inputs): seq<Event> {
    var claims := CreateClaims(ClaimsOf(cfg.templates, cfg), x.claimOrder, w.store.claims, x).events;
    if ResetsPod(cfg, w, x) then [Executed(cfg.name, KubeadmReset, x.resetOk)]
    else if Creates(cfg, w, x) && NoOtherController(cfg) && x.createPod != Refused then
      [CreatedPod(cfg.name, NewPod(cfg, x.cluster.value, x.owner.value, x.podOrder))]
    else if ClaimsObtained(cfg, w, x) then claims + (SecretEvents(cfg, w, x) + Commands(cfg, w, x))
    else if Provisions(cfg, w, x) then claims
    else []
  }

  /** The calls made on the container's behalf that went wrong. */
  predicate ContainerCallFails(cfg: Config, w: World, x: Inputs) {
    || (Ended(cfg, w, x) && cfg.allowRecreation && x.deletePod != Done)
    || (Up(cfg, w, x) && !x.installOk)
    || (Up(cfg, w, x) && KindStatus(cfg, w).value.ready && !(Tells(cfg, w, x) && x.patchNodeOk))
  }

  /** When the reconciliation is to be tried again: a lookup failed, a call it got to was refused or lost
      its reply, the bootstrap data is bad, or a template has another controller. */
  predicate TriesAgain(cfg: Config, w: World, x: Inputs) {
    || x.owner.LookupFailed?
    || (x.owner.Found? && x.cluster.LookupFailed?)
    || (ResetNeeded(w, x) && x.getPodFails)
    || (ResetsPod(cfg, w, x) && !x.resetOk)
    || (Working(w, x) && x.owner.value.dataSecretName.Some? && x.getPodFails)
    || (Creates(cfg, w, x) && (!NoOtherController(cfg) || x.createPod != Done))
    || (Known(cfg, w, x) && !Terminating(cfg, w, x) && !ClaimsObtained(cfg, w, x))
    || (ClaimsObtained(cfg, w, x) && (x.bootstrap.BadData? || (x.bootstrap.Script? && x.createSecret != Done)))
    || ContainerCallFails(cfg, w, x)
  }

  // ---- All of it at once

  /** Each predicate above includes the one it builds on. */
  lemma Levels(cfg: Config, w: World, x: Inputs)
    ensures Tells(cfg, w, x) ==> Up(cfg, w, x)
    ensures Up(cfg, w, x) || Ended(cfg, w, x) ==> SecretStored(cfg, w, x)
    ensures !(Up(cfg, w, x) && Ended(cfg, w, x))
    ensures SecretStored(cfg, w, x) ==> ClaimsObtained(cfg, w, x)
    ensures ClaimsObtained(cfg, w, x) ==> Provisions(cfg, w, x)
    ensures Provisions(cfg, w, x) <==> Known(cfg, w, x) && !Terminating(cfg, w, x) && NoOtherController(cfg)
    ensures Known(cfg, w, x) ==> !Absent(cfg, w, x) && !Foreign(cfg, w, x) && !Creates(cfg, w, x)
    ensures Known(cfg, w, x) ==>
              !ResetNeeded(w, x) && !x.owner.LookupFailed? && !x.cluster.LookupFailed? && !x.getPodFails
    ensures ContainerCallFails(cfg, w, x) ==> Up(cfg, w, x) || Ended(cfg, w, x)
  {
    hide NoOtherController, Obtained, GetContainerStatus;
  }

  /** The record after provisioning has got as far as it does. */
  ghost function RecordAfter(cfg: Config, w: World, x: Inputs, m: Record): Record {
    var verdict := Verdict(cfg, w, x);
    m.(ready := ReadyAfter(cfg, w, x),
       failureMessage := if verdict.Some? then verdict else m.failureMessage,
       failureReason := if verdict.Some? then Some("UnsupportedChange") else m.failureReason)
  }

  lemma FollowExact(cfg: Config, w: World, x: Inputs, m: Record, st: Store)
    requires SecretStored(cfg, w, x) && m.ready == w.record.ready && st.pods == w.store.pods
    ensures var o := FollowContainer(cfg, m, st, w.store.pods[cfg.name], x);
            && o.m == RecordAfter(cfg, w, x, m)
            && o.store == st.(pods := PodsAfter(cfg, w, x))
            && o.events == Commands(cfg, w, x)
            && o.ret == (if ContainerCallFails(cfg, w, x) then Retry else Settled)
  {
    Levels(cfg, w, x);
    PodReadyExact(w.store.pods[cfg.name]);
    NodeNamed(cfg, w.store.pods[cfg.name]);
    hide ClaimsObtained, NoOtherController, GetContainerStatus, IsPodReady, SaysReady, NewPod, NodePatch, NodeName,
      ProviderID, Absent, Foreign, Known, Terminating, Provisions, ResetNeeded, Creates;
  }

  lemma NodeNamed(cfg: Config, pod: Pod)
    ensures PatchNode(NodeName(cfg, pod), ProviderID(cfg)) == NodePatch(cfg, pod)
  {}

  lemma SecretExact(cfg: Config, w: World, x: Inputs, m: Record, st: Store)
    requires ClaimsObtained(cfg, w, x) && m.ready == w.record.ready && !HasFailed(m)
    requires st.pods == w.store.pods && st.secrets == w.store.secrets
    ensures var o := StoreSecret(cfg, m, st, w.store.pods[cfg.name], x);
            && o.m == RecordAfter(cfg, w, x, m)
            && o.store == st.(pods := PodsAfter(cfg, w, x), secrets := SecretsAfter(cfg, w, x))
            && o.events == SecretEvents(cfg, w, x) + Commands(cfg, w, x)
            && o.ret == (if TriesAgain(cfg, w, x) then Retry else Settled)
  {
    Levels(cfg, w, x);
    if SecretStored(cfg, w, x) {
      FollowExact(cfg, w, x, m, st.(secrets := SecretsAfter(cfg, w, x)));
    } else {
      assert Commands(cfg, w, x) == [];
      assert SecretEvents(cfg, w, x) + [] == SecretEvents(cfg, w, x);
    }
    hide FollowContainer, ClaimsObtained, NoOtherController, GetContainerStatus, SaysReady, NewPod, Commands,
      Absent, Foreign, Known, Terminating, Provisions, ResetNeeded, Creates, Up, Ended, Tells, ContainerCallFails,
      ResetsPod;
  }

  /** Record, Pods, Secrets, events and return value are what the definitions above say. */
  ghost predicate AsTold(cfg: Config, w: World, x: Inputs, o: Outcome) {
    var verdict := Verdict(cfg, w, x);
    && o.m.ready == ReadyAfter(cfg, w, x)
    && o.m.failureMessage == (if verdict.Some? then verdict else w.record.failureMessage)
    && o.m.failureReason == (if verdict.Some? then Some("UnsupportedChange") else w.record.failureReason)
    && o.store.pods == PodsAfter(cfg, w, x)
    && o.store.secrets == SecretsAfter(cfg, w, x)
    && o.events == EventsAfter(cfg, w, x)
    && o.ret == (if TriesAgain(cfg, w, x) then Retry else Settled)
  }

  lemma StoppedAtClaims(cfg: Config, w: World, x: Inputs)
    requires Known(cfg, w, x) && !Terminating(cfg, w, x) && !ClaimsObtained(cfg, w, x)
    ensures ReadyAfter(cfg, w, x) == w.record.ready && Verdict(cfg, w, x).None?
    ensures PodsAfter(cfg, w, x) == w.store.pods && SecretsAfter(cfg, w, x) == w.store.secrets && TriesAgain(cfg, w, x)
    ensures EventsAfter(cfg, w, x) ==
            if NoOtherController(cfg)
            then CreateClaims(ClaimsOf(cfg.templates, cfg), x.claimOrder, w.store.claims, x).events else []
  {
    Levels(cfg, w, x);
    hide CreateClaims, ClaimsOf, NoOtherController, ClaimsObtained, Known, Terminating, Absent, Foreign, Creates;
    hide Provisions, ResetNeeded, SecretStored, Up, Ended, Tells, SaysReady, ContainerCallFails, NewPod;
  }

  lemma AtContainer(cfg: Config, w: World, x: Inputs)
    requires ClaimsObtained(cfg, w, x)
    ensures EventsAfter(cfg, w, x) ==
            CreateClaims(ClaimsOf(cfg.templates, cfg), x.claimOrder, w.store.claims, x).events
            + (SecretEvents(cfg, w, x) + Commands(cfg, w, x))
  {
    Levels(cfg, w, x);
    hide CreateClaims, ClaimsOf, NoOtherController, ClaimsObtained, Known, Creates, ResetNeeded, Commands,
      SecretEvents, NewPod;
  }

  lemma ProvisioningAsTold(cfg: Config, w: World, x: Inputs)
    requires IsOrder(x.claimOrder, TemplateNames(cfg.templates)) && Known(cfg, w, x) && !Terminating(cfg, w, x)
    ensures AsTold(cfg, w, x, Body(cfg, w, x))
  {
    var m := Prepared(w, x);
    assert m.ready == w.record.ready && m.failureReason.None? && m.failureMessage.None? && !HasFailed(m);
    assert w.record.failureReason.None? && w.record.failureMessage.None?;
    hide *;
    if ClaimsObtained(cfg, w, x) {
      ObtainedAsTold(cfg, w, x, m);
    } else {
      ProvisionSplits(cfg, w, x);
      StoppedAtClaims(cfg, w, x);
      Told(cfg, w, x, Body(cfg, w, x), w.record.ready, None, true);
    }
  }

  lemma ObtainedAsTold(cfg: Config, w: World, x: Inputs, m: Record)
    requires IsOrder(x.claimOrder, TemplateNames(cfg.templates)) && ClaimsObtained(cfg, w, x)
    requires m == Prepared(w, x) && m.ready == w.record.ready && !HasFailed(m)
    requires m.failureReason == w.record.failureReason && m.failureMessage == w.record.failureMessage
    ensures AsTold(cfg, w, x, Body(cfg, w, x))
  {
    Levels(cfg, w, x);
    assert cfg.name in w.store.pods;
    hide *;
    var c := CreateClaims(ClaimsOf(cfg.templates, cfg), x.claimOrder, w.store.claims, x);
    var st := w.store.(claims := c.claims);
    ProvisionSplits(cfg, w, x);
    var s := StoreSecret(cfg, m, st, w.store.pods[cfg.name], x);
    SecretExact(cfg, w, x, m, st);
    AtContainer(cfg, w, x);
    SplitsBefore(c.events, s);
    RecordAfterFields(cfg, w, x, m);
    Told(cfg, w, x, Machine.Before(c.events, s), ReadyAfter(cfg, w, x), Verdict(cfg, w, x), TriesAgain(cfg, w, x));
  }

  lemma SplitsBefore(events: seq<Event>, o: Outcome)
    ensures Machine.Before(events, o) == o.(events := events + o.events)
  {}

  lemma RecordAfterFields(cfg: Config, w: World, x: Inputs, m: Record)
    ensures var r, verdict := RecordAfter(cfg, w, x, m), Verdict(cfg, w, x);
            && r.ready == ReadyAfter(cfg, w, x)
            && r.failureMessage == (if verdict.Some? then verdict else m.failureMessage)
            && r.failureReason == (if verdict.Some? then Some("UnsupportedChange") else m.failureReason)
  {
    hide ReadyAfter, Verdict;
  }

  lemma Told(cfg: Config, w: World, x: Inputs, o: Outcome, ready: bool, verdict: Option<string>, again: bool)
    requires ReadyAfter(cfg, w, x) == ready && Verdict(cfg, w, x) == verdict && (TriesAgain(cfg, w, x) <==> again)
    requires o.m.ready == ready
    requires o.m.failureMessage == if verdict.Some? then verdict else w.record.failureMessage
    requires o.m.failureReason == if verdict.Some? then Some("UnsupportedChange") else w.record.failureReason
    requires o.store.pods == PodsAfter(cfg, w, x) && o.store.secrets == SecretsAfter(cfg, w, x)
    requires o.events == EventsAfter(cfg, w, x) && o.ret == if again then Retry else Settled
    ensures AsTold(cfg, w, x, o)
  {
    hide Verdict, ReadyAfter, PodsAfter, SecretsAfter, EventsAfter, TriesAgain;
  }

  /** Short of provisioning, claims, Secret and container play no part. */
  lemma ShortOfProvisioning(cfg: Config, w: World, x: Inputs)
    requires !Known(cfg, w, x) || Terminating(cfg, w, x)
    ensures !ClaimsObtained(cfg, w, x) && !Provisions(cfg, w, x)
    ensures !SecretStored(cfg, w, x) && !Ended(cfg, w, x) && !Up(cfg, w, x) && !Tells(cfg, w, x)
    ensures !ContainerCallFails(cfg, w, x)
  {
    Levels(cfg, w, x);
    hide *;
  }

  lemma BodyBranches(cfg: Config, w: World, x: Inputs)
    ensures Admitted(x) && w.record.deleting ==>
              Body(cfg, w, x) ==
              ReconcileDelete(
                cfg, x.cluster.value, x.owner.value, ReconcileVersion(w.record, x.owner.value), w.store, x)
    ensures Looks(w, x) ==>
              Body(cfg, w, x) ==
              if cfg.name in w.store.pods then PodPresent(cfg, Prepared(w, x), w.store, w.store.pods[cfg.name], x)
              else PodMissing(cfg, x.cluster.value, x.owner.value, Prepared(w, x), w.store, x)
    ensures !Admitted(x) && w.record.deleting ==>
              Body(cfg, w, x) == Outcome(Body(cfg, w, x).m, w.store, [], Body(cfg, w, x).ret)
  {
    hide PodPresent, PodMissing, ReconcileDelete;
  }

  lemma DeletionTold(cfg: Config, w: World, x: Inputs)
    requires w.record.deleting && Admitted(x)
    ensures ReadyAfter(cfg, w, x) == w.record.ready
    ensures Verdict(cfg, w, x) ==
            if ResetNeeded(w, x) && !x.getPodFails && cfg.name !in w.store.pods
            then Some("Machine Pod cannot be found") else None
    ensures PodsAfter(cfg, w, x) == w.store.pods && SecretsAfter(cfg, w, x) == w.store.secrets
    ensures EventsAfter(cfg, w, x) ==
            if ResetsPod(cfg, w, x) then [Executed(cfg.name, KubeadmReset, x.resetOk)] else []
    ensures TriesAgain(cfg, w, x) <==> (ResetNeeded(w, x) && x.getPodFails) || (ResetsPod(cfg, w, x) && !x.resetOk)
  {
    ShortOfProvisioning(cfg, w, x);
    hide NoOtherController, ClaimsObtained, Provisions, SecretStored, Up, Ended, Tells, ContainerCallFails, SaysReady,
      NewPod, CreateClaims, ClaimsOf, Commands, SecretEvents;
  }

  lemma DeletionAsTold(cfg: Config, w: World, x: Inputs)
    requires w.record.deleting && Admitted(x)
    ensures AsTold(cfg, w, x, Body(cfg, w, x))
  {
    DeletionTold(cfg, w, x);
    BodyBranches(cfg, w, x);
    hide Body, ReadyAfter, Verdict, PodsAfter, SecretsAfter, EventsAfter, TriesAgain, AsTold;
    Told(cfg, w, x, Body(cfg, w, x), ReadyAfter(cfg, w, x), Verdict(cfg, w, x), TriesAgain(cfg, w, x));
  }

  predicate LookupFails(x: Inputs) {
    x.owner.LookupFailed? || (x.owner.Found? && x.cluster.LookupFailed?)
  }

  lemma UnseenTold(cfg: Config, w: World, x: Inputs)
    requires !Looks(w, x) && !(w.record.deleting && Admitted(x))
    ensures ReadyAfter(cfg, w, x) == w.record.ready && Verdict(cfg, w, x).None?
    ensures PodsAfter(cfg, w, x) == w.store.pods && SecretsAfter(cfg, w, x) == w.store.secrets
    ensures EventsAfter(cfg, w, x) == []
    ensures TriesAgain(cfg, w, x) <==>
            LookupFails(x) || (Working(w, x) && x.owner.value.dataSecretName.Some? && x.getPodFails)
  {
    ShortOfProvisioning(cfg, w, x);
    hide NoOtherController, ClaimsObtained, Provisions, SecretStored, Up, Ended, Tells, ContainerCallFails, SaysReady,
      NewPod, CreateClaims, ClaimsOf, Commands, SecretEvents;
  }

  lemma UnseenBody(cfg: Config, w: World, x: Inputs)
    requires !Looks(w, x) && !(w.record.deleting && Admitted(x))
    ensures var o := Body(cfg, w, x);
            && o.store == w.store && o.events == [] && o.m.ready == w.record.ready
            && o.m.failureReason == w.record.failureReason && o.m.failureMessage == w.record.failureMessage
            && o.ret == if LookupFails(x) || (Working(w, x) && x.owner.value.dataSecretName.Some? && x.getPodFails)
                        then Retry else Settled
  {
    hide PodMissing, PodPresent, ReconcileDelete;
  }

  lemma UnseenAsTold(cfg: Config, w: World, x: Inputs)
    requires !Looks(w, x) && !(w.record.deleting && Admitted(x))
    ensures AsTold(cfg, w, x, Body(cfg, w, x))
  {
    hide *;
    UnseenTold(cfg, w, x);
    UnseenBody(cfg, w, x);
    Told(cfg, w, x, Body(cfg, w, x), ReadyAfter(cfg, w, x), Verdict(cfg, w, x), TriesAgain(cfg, w, x));
  }

  lemma AbsentTold(cfg: Config, w: World, x: Inputs)
    requires Absent(cfg, w, x)
    ensures ReadyAfter(cfg, w, x) == (!cfg.allowRecreation && w.record.ready)
    ensures Verdict(cfg, w, x) ==
            if !cfg.allowRecreation && w.record.providerID.Some? then Some("Machine Pod cannot be found") else None
    ensures SecretsAfter(cfg, w, x) == w.store.secrets
    ensures TriesAgain(cfg, w, x) <==> Creates(cfg, w, x) && (!NoOtherController(cfg) || x.createPod != Done)
    ensures var made := Creates(cfg, w, x) && NoOtherController(cfg) && x.createPod != Refused;
            var pod := NewPod(cfg, x.cluster.value, x.owner.value, x.podOrder);
            && EventsAfter(cfg, w, x) == (if made then [CreatedPod(cfg.name, pod)] else [])
            && PodsAfter(cfg, w, x) == if made then w.store.pods[cfg.name := pod] else w.store.pods
  {
    ShortOfProvisioning(cfg, w, x);
    hide NoOtherController, ClaimsObtained, Provisions, SecretStored, Up, Ended, Tells, ContainerCallFails, SaysReady,
      NewPod, CreateClaims, ClaimsOf, Commands, SecretEvents;
  }

  lemma AbsentBody(cfg: Config, w: World, x: Inputs)
    requires Absent(cfg, w, x)
    ensures var o, lost := Body(cfg, w, x), !cfg.allowRecreation && w.record.providerID.Some?;
            var made := Creates(cfg, w, x) && NoOtherController(cfg) && x.createPod != Refused;
            var pod := NewPod(cfg, x.cluster.value, x.owner.value, x.podOrder);
            && o.m.ready == (!cfg.allowRecreation && w.record.ready)
            && o.m.failureMessage == (if lost then Some("Machine Pod cannot be found") else w.record.failureMessage)
            && o.m.failureReason == (if lost then Some("UnsupportedChange") else w.record.failureReason)
            && o.store == w.store.(pods := if made then w.store.pods[cfg.name := pod] else w.store.pods)
            && o.events == (if made then [CreatedPod(cfg.name, pod)] else [])
            && o.ret == if Creates(cfg, w, x) && (!NoOtherController(cfg) || x.createPod != Done) then Retry
                        else Settled
  {
    ClaimableExact(cfg);
    BodyBranches(cfg, w, x);
    hide Body, NoOtherController, NewPod, Claimable;
  }

  lemma AbsentAsTold(cfg: Config, w: World, x: Inputs)
    requires Absent(cfg, w, x)
    ensures AsTold(cfg, w, x, Body(cfg, w, x))
  {
    hide *;
    AbsentTold(cfg, w, x);
    AbsentBody(cfg, w, x);
    Told(cfg, w, x, Body(cfg, w, x), ReadyAfter(cfg, w, x), Verdict(cfg, w, x), TriesAgain(cfg, w, x));
  }

  lemma PresentTold(cfg: Config, w: World, x: Inputs)
    requires Looks(w, x) && cfg.name in w.store.pods && (!Known(cfg, w, x) || Terminating(cfg, w, x))
    ensures ReadyAfter(cfg, w, x) == (if Terminating(cfg, w, x) && cfg.allowRecreation then false else w.record.ready)
    ensures Verdict(cfg, w, x) ==
            if Foreign(cfg, w, x) then Some("Machine Pod is not controlled by KubernetesMachine")
            else if Terminating(cfg, w, x) && !cfg.allowRecreation then Some("Machine Pod has been deleted") else None
    ensures PodsAfter(cfg, w, x) == w.store.pods && SecretsAfter(cfg, w, x) == w.store.secrets
    ensures EventsAfter(cfg, w, x) == [] && !TriesAgain(cfg, w, x)
  {
    ShortOfProvisioning(cfg, w, x);
    hide NoOtherController, ClaimsObtained, Provisions, SecretStored, Up, Ended, Tells, ContainerCallFails, SaysReady,
      NewPod, CreateClaims, ClaimsOf, Commands, SecretEvents;
  }

  lemma PresentAsTold(cfg: Config, w: World, x: Inputs)
    requires Looks(w, x) && cfg.name in w.store.pods && (!Known(cfg, w, x) || Terminating(cfg, w, x))
    ensures AsTold(cfg, w, x, Body(cfg, w, x))
  {
    BodyBranches(cfg, w, x);
    PresentTold(cfg, w, x);
    hide Body, Provision, ProviderID, ReadyAfter, Verdict, PodsAfter, SecretsAfter, EventsAfter, TriesAgain, AsTold;
    Told(cfg, w, x, Body(cfg, w, x), ReadyAfter(cfg, w, x), Verdict(cfg, w, x), TriesAgain(cfg, w, x));
  }

  /** For every record, store and input: whether the machine is ready, which failure is recorded, which
      Pod and Secret are written and with what, what is done in which order, and whether it is to be
      tried again, are exactly as defined above. */
  lemma BodyExact(cfg: Config, w: World, x: Inputs)
    requires IsOrder(x.claimOrder, TemplateNames(cfg.templates))
    ensures AsTold(cfg, w, x, Body(cfg, w, x))
  {
    if Known(cfg, w, x) && !Terminating(cfg, w, x) {
      ProvisioningAsTold(cfg, w, x);
    } else if w.record.deleting && Admitted(x) {
      DeletionAsTold(cfg, w, x);
    } else if !Looks(w, x) {
      UnseenAsTold(cfg, w, x);
    } else if cfg.name !in w.store.pods {
      AbsentAsTold(cfg, w, x);
    } else {
      PresentAsTold(cfg, w, x);
    }
  }

  // ---- The whole step

  /** What a patch writes: each half its own fields, and no other. */
  lemma PatchExact(persisted: Record, m: Record, p: Patch)
    ensures var r := Patched(persisted, m, p);
            && r.deleting == persisted.deleting
            && (if p.spec then r.finalizers == m.finalizers && r.providerID == m.providerID
                else r.finalizers == persisted.finalizers && r.providerID == persisted.providerID)
            && (if p.status
                then && r.failureReason == m.failureReason && r.failureMessage == m.failureMessage
                     && r.phase == m.phase && r.ready == m.ready && r.version == m.version
                else && r.failureReason == persisted.failureReason && r.failureMessage == persisted.failureMessage
                     && r.phase == persisted.phase && r.ready == persisted.ready && r.version == persisted.version)
  {}

  lemma BootstrapTold(cfg: Config, w: World, x: Inputs)
    ensures Executed(cfg.name, EnableBootstrap, x.installOk) in EventsAfter(cfg, w, x) <==> Up(cfg, w, x)
  {
    Levels(cfg, w, x);
    ClaimEventsOnly(cfg, w, x);
    hide CreateClaims, ClaimsOf, NoOtherController, ClaimsObtained, Known, Absent, Creates, Provisions, ResetNeeded,
      Ended, Up, NewPod;
  }

  /** Bootstrap is started in every running container, ready or not: it is what makes it ready. */
  lemma BootstrapStarts(cfg: Config, w: World, x: Inputs, p: Patch)
    requires IsOrder(x.claimOrder, TemplateNames(cfg.templates))
    ensures Executed(cfg.name, EnableBootstrap, x.installOk) in News(w, Reconcile(cfg, w, x, p)) <==> Up(cfg, w, x)
  {
    hide *;
    BootstrapTold(cfg, w, x);
    NewsTold(cfg, w, x, p);
  }

  lemma NewsTold(cfg: Config, w: World, x: Inputs, p: Patch)
    requires IsOrder(x.claimOrder, TemplateNames(cfg.templates))
    ensures News(w, Reconcile(cfg, w, x, p)) == EventsAfter(cfg, w, x)
  {
    BodyExact(cfg, w, x);
    NewsOfReconcile(cfg, w, x, p);
    hide ReconcileBody, Reconcile, News, EventsAfter, Verdict, ReadyAfter, PodsAfter, SecretsAfter, TriesAgain;
  }

  lemma ClaimEventsOnly(cfg: Config, w: World, x: Inputs)
    ensures forall e :: e in CreateClaims(ClaimsOf(cfg.templates, cfg), x.claimOrder, w.store.claims, x).events ==>
              e.CreatedClaim?
  {
    ClaimsOnlyGrow(ClaimsOf(cfg.templates, cfg), x.claimOrder, w.store.claims, x);
  }
}
