/** What one reconciliation of a cluster does, observable by observable, for every record, Service and
    input. */
module ClusterOutcomes {
  import opened Common
  import opened Cluster
  import opened ClusterRuns

  // ---- How far a reconciliation gets

  predicate Admitted(x: Inputs) {
    x.cluster.Found? && !x.paused
  }

  predicate Looks(w: World, x: Inputs) {
    Admitted(x) && !w.record.deleting && !x.getServiceFails
  }

  predicate Absent(w: World, x: Inputs) {
    Looks(w, x) && x.cluster.name + "-api-server" !in w.services
  }

  predicate Foreign(cfg: Config, w: World, x: Inputs) {
    && Looks(w, x) && x.cluster.name + "-api-server" in w.services
    && w.services[x.cluster.name + "-api-server"].owner != Some(cfg.uid)
  }

  /** Its own Service offers this endpoint. */
  ghost predicate Sees(cfg: Config, w: World, x: Inputs, host: string, port: int) {
    && Looks(w, x) && x.cluster.name + "-api-server" in w.services
    && var s := w.services[x.cluster.name + "-api-server"];
       s.owner == Some(cfg.uid) && OffersHost(s, host) && OffersPort(s.ports, port)
  }

  ghost predicate Waits(cfg: Config, w: World, x: Inputs) {
    && Looks(w, x) && x.cluster.name + "-api-server" in w.services
    && var s := w.services[x.cluster.name + "-api-server"];
       && s.owner == Some(cfg.uid) && s.kind == "LoadBalancer"
       && (s.ingress == [] || (s.ingress[0].hostname == "" && s.ingress[0].ip == ""))
  }

  /** Every reconciliation is one of these. */
  lemma Situations(cfg: Config, w: World, x: Inputs)
    ensures Looks(w, x) ==>
              Absent(w, x) || Foreign(cfg, w, x) || Waits(cfg, w, x) || exists host, port :: Sees(cfg, w, x, host, port)
  {
    if Looks(w, x) && !Absent(w, x) && !Foreign(cfg, w, x) && !Waits(cfg, w, x) {
      var s := w.services[x.cluster.name + "-api-server"];
      HostExact(s);
      PortExact(s.ports);
      hide OffersHost, OffersPort, ResolvePort, ResolveHost;
      assert OffersHost(s, ResolveHost(s).value) && OffersPort(s.ports, ResolvePort(s.ports));
      assert Sees(cfg, w, x, ResolveHost(s).value, ResolvePort(s.ports));
    }
  }

  // ---- The record

  function Prepared(w: World, x: Inputs): Record {
    var k := w.record;
    k.(serviceType := if Admitted(x) && k.serviceType == "" then "ClusterIP" else k.serviceType,
       finalizers := if !Admitted(x) then k.finalizers
                     else if k.deleting then k.finalizers - {FINALIZER}
                     else k.finalizers + {FINALIZER, FOREGROUND})
  }

  function Failing(k: Record, message: string): Record {
    k.(failureReason := Some("UnsupportedChange"), failureMessage := Some(message))
  }

  /** Nothing to see: only the service type's default and the finalizers change. */
  lemma UnseenExact(cfg: Config, w: World, x: Inputs)
    requires !Looks(w, x)
    ensures ReconcileBody(cfg, w.record, w.services, x) ==
            Outcome(Prepared(w, x), w.services, [],
                    if x.cluster.LookupFailed? || (Admitted(x) && !w.record.deleting) then Retry else Settled)
  {
    hide CreateService, ResolveHost, ResolvePort, ServiceName;
  }

  /** The request spells out the recorded endpoint, where the type allows it. */
  lemma AbsentExact(cfg: Config, w: World, x: Inputs)
    requires Absent(w, x)
    ensures var k, name := Prepared(w, x), x.cluster.name + "-api-server";
            var request := Service(
              Some(cfg.uid),
              map["cluster.x-k8s.io/cluster-name" := x.cluster.name, "cluster.x-k8s.io/control-plane" := ""],
              k.serviceType,
              if k.serviceType == "ClusterIP" then k.host else "",
              if k.serviceType == "LoadBalancer" then k.host else "",
              [],
              [ServicePort("https", "TCP", if k.port == 0 then 443 else k.port, "kube-apiserver")]);
            var stored := if request.clusterIP == "" then request.(clusterIP := x.assignedIP) else request;
            ReconcileBody(cfg, w.record, w.services, x) ==
            if x.createService == Refused then Outcome(k, w.services, [], Retry)
            else Outcome(k, w.services[name := stored], [CreatedService(name, request)],
                         if x.createService == Done then Settled else Retry)
  {
    hide ResolveHost, ResolvePort;
  }

  lemma ForeignExact(cfg: Config, w: World, x: Inputs)
    requires Foreign(cfg, w, x)
    ensures ReconcileBody(cfg, w.record, w.services, x) ==
            var name := x.cluster.name + "-api-server";
            Outcome(Failing(Prepared(w, x), "expected Service " + name + " to be controlled by KubernetesCluster"),
                    w.services, [], Retry)
  {
    hide ResolveHost, ResolvePort, CreateService;
  }

  lemma WaitsExact(cfg: Config, w: World, x: Inputs)
    requires Waits(cfg, w, x)
    ensures ReconcileBody(cfg, w.record, w.services, x) == Outcome(Prepared(w, x), w.services, [], RequeueSoon)
  {
    HostExact(w.services[x.cluster.name + "-api-server"]);
    hide ResolveHost, ResolvePort, CreateService;
  }

  /** The endpoint is recorded if none is, and the cluster turns ready if it is the recorded one; any
      other is a failure. */
  lemma SeesExact(cfg: Config, w: World, x: Inputs, host: string, port: int)
    requires Sees(cfg, w, x, host, port)
    ensures var k := Prepared(w, x);
            ReconcileBody(cfg, w.record, w.services, x) ==
            Outcome(if k.host == "" || k.port == 0 then k.(host := host, port := port, ready := true)
                    else if k.host == host && k.port == port then k.(ready := true)
                    else Failing(k, "Service endpoint has changed"),
                    w.services, [], Settled)
  {
    HostExact(w.services[x.cluster.name + "-api-server"]);
    PortExact(w.services[x.cluster.name + "-api-server"].ports);
    hide ResolveHost, ResolvePort, CreateService, OffersHost, OffersPort;
  }

  // ---- The whole step

  /** A deleted cluster that is found and not paused is released, and no other. */
  lemma ReleasedExactly(cfg: Config, w: World, x: Inputs, p: Patch)
    requires FINALIZER in w.record.finalizers
    ensures FINALIZER !in Reconcile(cfg, w, x, p).record.finalizers <==> p.spec && Admitted(x) && w.record.deleting
  {
    hide Request, Allocated, ResolveHost, ResolvePort, ServiceName;
  }

  lemma PatchExact(persisted: Record, k: Record, p: Patch)
    ensures var r := Patched(persisted, k, p);
            && r.deleting == persisted.deleting
            && (var spec := if p.spec then k else persisted;
                && r.finalizers == spec.finalizers && r.serviceType == spec.serviceType
                && r.host == spec.host && r.port == spec.port)
            && (var status := if p.status then k else persisted;
                && r.failureReason == status.failureReason && r.failureMessage == status.failureMessage
                && r.phase == status.phase && r.ready == status.ready)
  {}
}
