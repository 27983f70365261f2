/** What holds over whole runs of the KubernetesCluster controller. */
module ClusterRuns {
  import opened Common
  import opened Cluster

  datatype Step =
    | Reconciled(x: Inputs, p: Patch)
    | ServicesChanged(services: map<string, Service>)
    | DeletionRequested
    | DependentsGone

  function Next(cfg: Config, w: World, s: Step): World {
    match s
    case Reconciled(x, p) => Reconcile(cfg, w, x, p)
    case ServicesChanged(services) => w.(services := services)
    case DeletionRequested => w.(record := w.record.(deleting := true))
    case DependentsGone =>
      if w.record.deleting then w.(record := w.record.(finalizers := w.record.finalizers - {FOREGROUND})) else w
  }

  /** A cluster no controller has seen yet. The user may have chosen a service type and asked for an
      endpoint; the Services may be anything. */
  predicate Fresh(w: World) {
    && !w.record.deleting && w.record.finalizers == {} && !HasFailed(w.record)
    && w.record.phase == Unset && !w.record.ready && w.trace == []
  }

  ghost predicate StepTaken(cfg: Config, ws: seq<World>, steps: seq<Step>, i: nat)
    requires |ws| == |steps| + 1 && i < |steps|
  {
    ws[i + 1] == Next(cfg, ws[i], steps[i])
  }

  /** A run: from a fresh cluster, each world follows from the one before by one step. */
  ghost predicate IsRun(cfg: Config, ws: seq<World>, steps: seq<Step>) {
    && |ws| == |steps| + 1
    && Fresh(ws[0])
    && forall i: nat :: i < |steps| ==> StepTaken(cfg, ws, steps, i)
  }

  // ---- What is never undone

  ghost predicate Grows(w: World, w': World) {
    && (w.record.deleting ==> w'.record.deleting)
    && (HasFailed(w.record) ==> HasFailed(w'.record))
    && (w.record.ready ==> w'.record.ready)
    && (!EndpointUnset(w.record) ==> w'.record.host == w.record.host && w'.record.port == w.record.port)
  }

  ghost predicate Keeps(k: Record, k': Record) {
    && k'.phase == k.phase && k'.deleting == k.deleting
    && (HasFailed(k) ==> HasFailed(k')) && (k.ready ==> k'.ready)
    && (!EndpointUnset(k) ==> k'.host == k.host && k'.port == k.port)
  }

  lemma CreateKeeps(cfg: Config, cluster: string, k: Record, services: map<string, Service>, x: Inputs)
    ensures CreateService(cfg, cluster, k, services, x).k == k
  {
    hide ServiceName, Request, Allocated;
  }

  lemma NormalKeeps(cfg: Config, cluster: string, k: Record, services: map<string, Service>, x: Inputs)
    ensures Keeps(k, ReconcileNormal(cfg, cluster, k, services, x).k)
  {
    hide ServiceName, ResolvePort, ResolveHost, CreateService;
    CreateKeeps(cfg, cluster, k.(finalizers := k.finalizers + {FINALIZER, FOREGROUND}), services, x);
  }

  lemma BodyKeeps(cfg: Config, k: Record, services: map<string, Service>, x: Inputs)
    ensures Keeps(k, ReconcileBody(cfg, k, services, x).k)
  {
    hide ReconcileNormal;
    if x.cluster.Found? {
      NormalKeeps(cfg, x.cluster.name, DefaultType(k), services, x);
    }
  }

  lemma StepGrows(cfg: Config, w: World, s: Step)
    ensures Grows(w, Next(cfg, w, s))
  {
    hide ReconcileBody;
    if s.Reconciled? {
      BodyKeeps(cfg, w.record, w.services, s.x);
    }
  }

  /** Over every run, whatever fails: once host and port are both recorded, the endpoint never
      changes; a cluster that is ready stays ready; a failure is never cleared. */
  lemma {:induction false} EndpointStable(cfg: Config, ws: seq<World>, steps: seq<Step>, i: nat, j: nat)
    requires IsRun(cfg, ws, steps) && i <= j <= |steps|
    ensures Grows(ws[i], ws[j])
    decreases j
  {
    hide Next;
    if i < j {
      EndpointStable(cfg, ws, steps, i, j - 1);
      assert StepTaken(cfg, ws, steps, j - 1);
      StepGrows(cfg, ws[j - 1], steps[j - 1]);
    }
  }

  // ---- What becoming ready means

  /** A reconciliation that turns the cluster ready, in memory, has its own Service in hand and agrees
      with it on the endpoint. */
  lemma ReadyBody(cfg: Config, k: Record, services: map<string, Service>, x: Inputs)
    requires !k.ready && ReconcileBody(cfg, k, services, x).k.ready
    ensures x.cluster.Found? && !k.deleting && ServiceName(x.cluster.name) in services
    ensures var s := services[ServiceName(x.cluster.name)];
            var k' := ReconcileBody(cfg, k, services, x).k;
            && s.owner == Some(cfg.uid)
            && ResolveHost(s) == Some(k'.host) && ResolvePort(s.ports) == k'.port
    ensures ReconcileBody(cfg, k, services, x).services == services
  {
    hide ServiceName, ResolvePort, ResolveHost;
  }

  /** The host a Service offers: for a load balancer the hostname of its first ingress or else its
      address, if it has either; for any other type the cluster IP. */
  predicate OffersHost(s: Service, host: string) {
    if s.kind == "LoadBalancer" then
      s.ingress != [] && host != "" &&
      host == if s.ingress[0].hostname != "" then s.ingress[0].hostname else s.ingress[0].ip
    else host == s.clusterIP
  }

  /** The port it offers: the last one that targets the API server, or zero. */
  ghost predicate OffersPort(ports: seq<ServicePort>, port: int) {
    if exists p :: p in ports && p.target == "kube-apiserver" then
      exists i :: 0 <= i < |ports| && ports[i].target == "kube-apiserver" && ports[i].port == port
                  && forall j :: i < j < |ports| ==> ports[j].target != "kube-apiserver"
    else port == 0
  }

  /** The recorded endpoint is the one the Service offers. */
  ghost predicate AtService(k: Record, s: Service) {
    OffersHost(s, k.host) && OffersPort(s.ports, k.port)
  }

  lemma HostExact(s: Service)
    ensures forall host :: ResolveHost(s) == Some(host) <==> OffersHost(s, host)
    ensures ResolveHost(s).None? <==>
            s.kind == "LoadBalancer" && (s.ingress == [] || (s.ingress[0].hostname == "" && s.ingress[0].ip == ""))
  {}

  lemma {:induction false} PortExact(ports: seq<ServicePort>)
    ensures forall port :: ResolvePort(ports) == port <==> OffersPort(ports, port)
  {
    if ports != [] {
      var n := |ports| - 1;
      PortExact(ports[..n]);
      assert ports == ports[..n] + [ports[n]];
      forall port ensures ResolvePort(ports) == port <==> OffersPort(ports, port) {
        PortStep(ports[..n], ports[n], port);
      }
    }
  }

  lemma PortStep(front: seq<ServicePort>, last: ServicePort, port: int)
    ensures last.target == "kube-apiserver" ==> (OffersPort(front + [last], port) <==> last.port == port)
    ensures last.target != "kube-apiserver" ==> (OffersPort(front + [last], port) <==> OffersPort(front, port))
  {
    var ports, n := front + [last], |front|;
    assert ports[n] == last && forall i :: 0 <= i < n ==> ports[i] == front[i];
    if last.target == "kube-apiserver" {
      assert last in ports;
    } else {
      assert forall p :: p in ports && p.target == "kube-apiserver" <==> p in front && p.target == "kube-apiserver";
    }
  }

  lemma AtServiceExact(k: Record, s: Service)
    ensures AtService(k, s) <==> ResolveHost(s) == Some(k.host) && ResolvePort(s.ports) == k.port
  {
    HostExact(s);
    PortExact(s.ports);
  }

  /** Over every run: a step that turns the cluster ready has its own Service in hand, and leaves the
      recorded endpoint equal to that Service's exactly when the spec half of its patch goes through or
      the endpoint was recorded so already. A set endpoint always was. */
  lemma ReadyMeansResolved(cfg: Config, ws: seq<World>, steps: seq<Step>, i: nat)
    requires IsRun(cfg, ws, steps) && i < |steps|
    requires !ws[i].record.ready && ws[i + 1].record.ready
    ensures var w' := ws[i + 1];
            && steps[i].Reconciled? && steps[i].x.cluster.Found?
            && ServiceName(steps[i].x.cluster.name) in w'.services
            && (var s := w'.services[ServiceName(steps[i].x.cluster.name)];
                && s.owner == Some(cfg.uid)
                && (AtService(w'.record, s) <==> steps[i].p.spec || AtService(ws[i].record, s))
                && (!EndpointUnset(ws[i].record) ==> AtService(ws[i].record, s)))
  {
    var a := ws[i];
    assert StepTaken(cfg, ws, steps, i);
    assert steps[i].Reconciled?;
    hide ReconcileBody, ServiceName, ResolvePort, ResolveHost, AtService;
    ReadyBody(cfg, a.record, a.services, steps[i].x);
    BodyKeeps(cfg, a.record, a.services, steps[i].x);
    var s := a.services[ServiceName(steps[i].x.cluster.name)];
    AtServiceExact(a.record, s);
    AtServiceExact(ws[i + 1].record, s);
  }

  /** Without the spec patch a cluster can be ready with no endpoint recorded. */
  lemma HalfPatchLosesEndpoint(cfg: Config, w: World, x: Inputs, s: Service)
    requires Fresh(w) && w.record.host == "" && x.cluster.Found? && !x.paused && !x.getServiceFails
    requires ServiceName(x.cluster.name) in w.services && w.services[ServiceName(x.cluster.name)] == s
    requires s.owner == Some(cfg.uid) && s.kind == CLUSTER_IP
    ensures var w' := Reconcile(cfg, w, x, Patch(false, true)); w'.record.ready && EndpointUnset(w'.record)
  {
    hide ServiceName, ResolvePort;
    assert CLUSTER_IP != LOAD_BALANCER by { assert |CLUSTER_IP| == 9 && |LOAD_BALANCER| == 12; }
  }

  /** A Service without a port for the API server, or without a host, makes the cluster ready all the
      same; the endpoint is then recorded exactly when the Service offers both. */
  lemma ReadyWithEndpoint(cfg: Config, k: Record, services: map<string, Service>, x: Inputs)
    requires !k.ready && EndpointUnset(k) && ReconcileBody(cfg, k, services, x).k.ready
    ensures x.cluster.Found? && ServiceName(x.cluster.name) in services
    ensures var s := services[ServiceName(x.cluster.name)];
            EndpointUnset(ReconcileBody(cfg, k, services, x).k) <==>
            ResolveHost(s) == Some("") || ResolvePort(s.ports) == 0
  {
    ReadyBody(cfg, k, services, x);
  }

  // ---- Phases

  function Priority(k: Record): Phase {
    if k.deleting then Deleting
    else if HasFailed(k) then Failed
    else if k.ready then Provisioned
    else Provisioning
  }

  ghost predicate PhaseInv(k: Record) {
    k.deleting || HasFailed(k) || k.ready || k.phase == Unset || k.phase == Provisioning
  }

  lemma FreshPhase(w: World)
    requires Fresh(w)
    ensures PhaseInv(w.record)
  {}

  lemma StepPhase(cfg: Config, w: World, s: Step)
    requires PhaseInv(w.record)
    ensures PhaseInv(Next(cfg, w, s).record)
    ensures s.Reconciled? && s.p.status ==> Next(cfg, w, s).record.phase == Priority(Next(cfg, w, s).record)
  {
    hide ReconcileBody;
    if s.Reconciled? {
      BodyKeeps(cfg, w.record, w.services, s.x);
    }
  }

  lemma {:induction false} RunPhase(cfg: Config, ws: seq<World>, steps: seq<Step>, i: nat)
    requires IsRun(cfg, ws, steps) && i <= |steps|
    ensures PhaseInv(ws[i].record)
  {
    hide Next, PhaseInv;
    if i > 0 {
      RunPhase(cfg, ws, steps, i - 1);
      assert StepTaken(cfg, ws, steps, i - 1);
      StepPhase(cfg, ws[i - 1], steps[i - 1]);
    } else {
      FreshPhase(ws[0]);
    }
  }

  /** After every reconciliation of any run whose status patch goes through, the phase is the one the
      record calls for, although an old phase can be carried over. */
  lemma PhaseAgrees(cfg: Config, ws: seq<World>, steps: seq<Step>, i: nat)
    requires IsRun(cfg, ws, steps) && i < |steps| && steps[i].Reconciled? && steps[i].p.status
    ensures ws[i + 1].record.phase == Priority(ws[i + 1].record)
  {
    hide Next;
    RunPhase(cfg, ws, steps, i);
    assert StepTaken(cfg, ws, steps, i);
    StepPhase(cfg, ws[i], steps[i]);
  }

  // ---- Asking for the recorded endpoint again

  /** Every Service the controller creates asks for the recorded endpoint. */
  lemma RecreatedServiceAsks(cfg: Config, w: World, x: Inputs, e: Event)
    requires e in ReconcileBody(cfg, w.record, w.services, x).events
    requires DefaultType(w.record).serviceType == CLUSTER_IP || w.record.serviceType == LOAD_BALANCER
    ensures var host := if e.request.kind == LOAD_BALANCER then e.request.loadBalancerIP else e.request.clusterIP;
            && host == w.record.host
            && ResolvePort(e.request.ports) == (if w.record.port != 0 then w.record.port else DEFAULT_PORT)
            && e.request.owner == Some(cfg.uid)
  {
    KindsDiffer();
  }

  lemma KindsDiffer()
    ensures CLUSTER_IP != LOAD_BALANCER && CLUSTER_IP != "" && LOAD_BALANCER != ""
  {
    assert |CLUSTER_IP| == 9 && |LOAD_BALANCER| == 12;
  }

  /** The cluster's Service, untouched but for its load balancer, which once provisioned stays, and
      comes up at the address asked for if one was. */
  ghost predicate Honoured(before: Service, after: Service) {
    && after == before.(ingress := after.ingress)
    && (ResolveHost(before).Some? ==> ResolveHost(after) == ResolveHost(before))
    && (after.kind == LOAD_BALANCER && ResolveHost(after).Some? && after.loadBalancerIP != "" ==>
          ResolveHost(after) == Some(after.loadBalancerIP))
  }

  /** Services may come and go, but nobody else's takes the cluster's name, and the cluster's own is
      only deleted or honoured. */
  ghost predicate Friendly(name: string, w: World, s: Step) {
    && (s.ServicesChanged? && name in s.services ==> name in w.services && Honoured(w.services[name], s.services[name]))
    && (s.Reconciled? && s.x.cluster.Found? ==> ServiceName(s.x.cluster.name) == name)
  }

  predicate SupportedType(k: Record) {
    k.serviceType == "" || k.serviceType == CLUSTER_IP || k.serviceType == LOAD_BALANCER
  }

  /** The Service in the store, if any, can only resolve to the recorded endpoint. */
  ghost predicate Agrees(cfg: Config, name: string, k: Record, services: map<string, Service>) {
    name in services ==>
      var s := services[name];
      && s.owner == Some(cfg.uid) && s.kind == DefaultType(k).serviceType
      && (!EndpointUnset(k) ==>
            && ResolvePort(s.ports) == k.port
            && (ResolveHost(s).Some? ==> ResolveHost(s) == Some(k.host))
            && (ResolveHost(s).None? ==> s.loadBalancerIP == k.host))
  }

  ghost predicate Good(cfg: Config, name: string, w: World) {
    !HasFailed(w.record) && SupportedType(w.record) && Agrees(cfg, name, w.record, w.services)
  }

  lemma RequestResolves(cfg: Config, cluster: string, k: Record, assignedIP: string)
    requires k.serviceType == CLUSTER_IP || k.serviceType == LOAD_BALANCER
    ensures var s := Allocated(Request(cfg, cluster, k), assignedIP);
            && s.owner == Some(cfg.uid) && s.kind == k.serviceType
            && (!EndpointUnset(k) ==>
                  && ResolvePort(s.ports) == k.port
                  && (ResolveHost(s).Some? ==> ResolveHost(s) == Some(k.host))
                  && (ResolveHost(s).None? ==> s.loadBalancerIP == k.host))
  {
    KindsDiffer();
  }

  /** After the body, both the record in memory and the one still persisted agree with the Services. */
  lemma FriendlyNormal(cfg: Config, cluster: string, k: Record, services: map<string, Service>, x: Inputs)
    requires !HasFailed(k) && (k.serviceType == CLUSTER_IP || k.serviceType == LOAD_BALANCER)
    requires Agrees(cfg, ServiceName(cluster), k, services)
    ensures var o := ReconcileNormal(cfg, cluster, k, services, x);
            && !HasFailed(o.k) && o.k.serviceType == k.serviceType
            && Agrees(cfg, ServiceName(cluster), o.k, o.services) && Agrees(cfg, ServiceName(cluster), k, o.services)
  {
    KindsDiffer();
    RequestResolves(cfg, cluster, k.(finalizers := k.finalizers + {FINALIZER, FOREGROUND}), x.assignedIP);
    hide Request, Allocated, ServiceName, ResolveHost, ResolvePort;
  }

  lemma FriendlyReconcile(cfg: Config, name: string, w: World, x: Inputs, p: Patch)
    requires Good(cfg, name, w) && (x.cluster.Found? ==> ServiceName(x.cluster.name) == name)
    ensures Good(cfg, name, Reconcile(cfg, w, x, p))
  {
    KindsDiffer();
    hide ReconcileNormal, ServiceName, ResolveHost, ResolvePort;
    var k := DefaultType(w.record);
    if x.cluster.Found? {
      FriendlyNormal(cfg, x.cluster.name, k, w.services, x);
    }
  }

  lemma FriendlyStep(cfg: Config, name: string, w: World, s: Step)
    requires Good(cfg, name, w) && Friendly(name, w, s)
    ensures Good(cfg, name, Next(cfg, w, s))
  {
    if s.Reconciled? {
      hide Good, Reconcile, ServiceName;
      FriendlyReconcile(cfg, name, w, s.x, s.p);
    } else if s.ServicesChanged? && name in s.services {
      KindsDiffer();
      hide ResolvePort;
    }
  }

  /** With an API server that honours what it is asked for and no foreign Service, a cluster of a
      supported type never fails: a deleted Service is asked for again at the recorded endpoint. */
  lemma {:induction false} NeverFails(cfg: Config, name: string, ws: seq<World>, steps: seq<Step>, i: nat)
    requires IsRun(cfg, ws, steps) && SupportedType(ws[0].record) && name !in ws[0].services && i <= |steps|
    requires forall j :: 0 <= j < |steps| ==> Friendly(name, ws[j], steps[j])
    ensures Good(cfg, name, ws[i])
    ensures !HasFailed(ws[i].record)
  {
    hide Next, Friendly;
    if i > 0 {
      NeverFails(cfg, name, ws, steps, i - 1);
      assert StepTaken(cfg, ws, steps, i - 1);
      FriendlyStep(cfg, name, ws[i - 1], steps[i - 1]);
    }
  }

  /** Other service types are not asked for at an address, so a recreated Service that is given a new
      one fails the cluster. */
  lemma UnsupportedTypeFails(cfg: Config, w: World, x: Inputs)
    requires !w.record.deleting && !EndpointUnset(w.record) && !SupportedType(w.record)
    requires x.cluster.Found? && ServiceName(x.cluster.name) !in w.services && !x.paused && !x.getServiceFails
    requires x.createService == Done && x.assignedIP != w.record.host
    ensures HasFailed(Reconcile(cfg, Reconcile(cfg, w, x, Patch(true, true)), x, Patch(true, true)).record)
  {
    hide ServiceName, ResolvePort;
  }

  // ---- Progress

  /** Everything is there and every call succeeds. */
  ghost predicate Cooperates(name: string, x: Inputs) {
    && x.cluster.Found? && ServiceName(x.cluster.name) == name && !x.paused
    && !x.getServiceFails && x.createService == Done && x.assignedIP != ""
  }

  /** A cooperative reconciliation, after which the cluster's Service stays and is honoured. */
  ghost predicate Round(cfg: Config, name: string, w: World, x: Inputs, w': World) {
    && Cooperates(name, x)
    && (var r := Reconcile(cfg, w, x, Patch(true, true));
        && w'.record == r.record
        && (name in w'.services <==> name in r.services)
        && (name in r.services ==> Honoured(r.services[name], w'.services[name])))
  }

  /** A Service of the controller's own: it has a port and, once it has a host, a real one. */
  ghost predicate Offers(s: Service) {
    ResolvePort(s.ports) != 0 && (s.kind == LOAD_BALANCER || s.clusterIP != "")
  }

  /** The state between rounds. */
  ghost predicate Underway(cfg: Config, name: string, w: World) {
    && Good(cfg, name, w) && !w.record.deleting
    && (name in w.services ==> Offers(w.services[name]))
    && (w.record.ready ==> name in w.services && !EndpointUnset(w.record) && AtService(w.record, w.services[name]))
  }

  lemma OfferedHost(s: Service)
    requires Offers(s) && ResolveHost(s).Some?
    ensures ResolveHost(s) != Some("")
  {}

  lemma RequestOffers(cfg: Config, cluster: string, k: Record, assignedIP: string)
    requires assignedIP != ""
    ensures Offers(Allocated(Request(cfg, cluster, k), assignedIP))
  {
    KindsDiffer();
  }

  /** One cooperative reconciliation creates a missing Service, or turns the cluster ready if its
      Service has a host. */
  lemma CooperativeReconcile(cfg: Config, name: string, w: World, x: Inputs)
    requires Underway(cfg, name, w) && Cooperates(name, x)
    ensures var r := Reconcile(cfg, w, x, Patch(true, true));
            && !r.record.deleting && name in r.services && Offers(r.services[name])
            && (name in w.services ==> r.services == w.services)
            && (r.record.ready <==> name in w.services && ResolveHost(w.services[name]).Some?)
            && (r.record.ready ==> !EndpointUnset(r.record) && AtService(r.record, r.services[name]))
  {
    KindsDiffer();
    var k := DefaultType(w.record);
    RequestOffers(cfg, x.cluster.name, k.(finalizers := k.finalizers + {FINALIZER, FOREGROUND}), x.assignedIP);
    if name in w.services && ResolveHost(w.services[name]).Some? {
      OfferedHost(w.services[name]);
    }
    var r := Reconcile(cfg, w, x, Patch(true, true));
    hide Request, Allocated, ServiceName, ResolveHost, ResolvePort, AtService;
    if name in w.services {
      AtServiceExact(w.record, w.services[name]);
      AtServiceExact(r.record, w.services[name]);
    }
  }

  lemma HonouredOffers(s: Service, s': Service)
    requires Honoured(s, s') && Offers(s)
    ensures Offers(s') && (ResolveHost(s).Some? ==> ResolveHost(s') == ResolveHost(s)) && s'.ports == s.ports
  {
    hide ResolvePort;
  }

  lemma RoundStep(cfg: Config, name: string, w: World, x: Inputs, w': World)
    requires Underway(cfg, name, w) && Round(cfg, name, w, x, w')
    ensures Underway(cfg, name, w') && name in w'.services
    ensures w'.record.ready <==> name in w.services && ResolveHost(w.services[name]).Some?
  {
    var r := Reconcile(cfg, w, x, Patch(true, true));
    CooperativeReconcile(cfg, name, w, x);
    FriendlyReconcile(cfg, name, w, x, Patch(true, true));
    hide Reconcile, Cooperates, ServiceName, Offers, ResolvePort, Good, Honoured, AtService;
    AtServiceExact(r.record, r.services[name]);
    AtServiceExact(r.record, w'.services[name]);
    FriendlyStep(cfg, name, r, ServicesChanged(w'.services));
    HonouredOffers(r.services[name], w'.services[name]);
  }

  lemma FreshUnderway(cfg: Config, name: string, w: World)
    requires Fresh(w) && SupportedType(w.record) && name !in w.services
    ensures Underway(cfg, name, w)
  {}

  /** A fresh cluster of a supported type, with everyone cooperating: after the first round its Service
      is there; it is ready exactly one round after that Service has a host; it then has that Service's
      endpoint recorded; and it never fails. */
  lemma {:induction false} BecomesReady(cfg: Config, name: string, ws: seq<World>, xs: seq<Inputs>, i: nat)
    requires |ws| == |xs| + 1 && i <= |xs| && Fresh(ws[0]) && SupportedType(ws[0].record) && name !in ws[0].services
    requires forall j :: 0 <= j < |xs| ==> Round(cfg, name, ws[j], xs[j], ws[j + 1])
    ensures Underway(cfg, name, ws[i]) && (name in ws[i].services <==> i > 0)
    ensures ws[i].record.ready <==>
            i > 0 && name in ws[i - 1].services && ResolveHost(ws[i - 1].services[name]).Some?
    ensures ws[i].record.ready ==> !EndpointUnset(ws[i].record) && AtService(ws[i].record, ws[i].services[name])
    ensures !HasFailed(ws[i].record)
    decreases i
  {
    hide Round, Underway, SupportedType, ResolveHost, AtService;
    FreshUnderway(cfg, name, ws[0]);
    if i > 0 {
      BecomesReady(cfg, name, ws, xs, i - 1);
      assert Round(cfg, name, ws[i - 1], xs[i - 1], ws[i]);
      RoundStep(cfg, name, ws[i - 1], xs[i - 1], ws[i]);
    }
    UnderwayMeans(cfg, name, ws[i]);
  }

  lemma UnderwayMeans(cfg: Config, name: string, w: World)
    requires Underway(cfg, name, w)
    ensures !HasFailed(w.record)
    ensures w.record.ready ==> name in w.services && !EndpointUnset(w.record) && AtService(w.record, w.services[name])
  {}
}
