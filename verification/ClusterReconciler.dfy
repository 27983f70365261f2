/** The KubernetesCluster reconciler as it runs. */
module ClusterReconciler {
  import opened Common
  import opened Cluster
  import PodBuilder

  class KubernetesCluster {
    const deleting: bool
    var finalizers: set<string>
    var serviceType: string
    var host: string
    var port: int
    var failureReason: Option<string>
    var failureMessage: Option<string>
    var phase: Phase
    var ready: bool

    function View(): Record
      reads this
    {
      Record(deleting, finalizers, serviceType, host, port, failureReason, failureMessage, phase, ready)
    }

    constructor (k: Record)
      ensures View() == k
    {
      deleting, finalizers, serviceType, host, port := k.deleting, k.finalizers, k.serviceType, k.host, k.port;
      failureReason, failureMessage, phase, ready := k.failureReason, k.failureMessage, k.phase, k.ready;
    }

    method SetFailure(message: string)
      modifies this`failureReason, this`failureMessage
      ensures View() == Cluster.SetFailure(old(View()), message)
    {
      failureReason := Some(UNSUPPORTED_CHANGE);
      failureMessage := Some(message);
    }

    method ReconcilePhase()
      modifies this`phase
      ensures View() == Cluster.ReconcilePhase(old(View()))
    {
      if phase == Unset {
        phase := Provisioning;
      }
      if ready {
        phase := Provisioned;
      }
      if failureReason.Some? || failureMessage.Some? {
        phase := Failed;
      }
      if deleting {
        phase := Deleting;
      }
    }
  }

  class ApiServer {
    var record: Record
    var services: map<string, Service>
    var trace: seq<Event>

    function View(): World
      reads this
    {
      World(record, services, trace)
    }
  }

  ghost predicate Ends(kc: KubernetesCluster, api: ApiServer, before: seq<Event>, o: Outcome, ret: Return)
    reads kc, api
  {
    kc.View() == o.k && api.services == o.services && api.trace == before + o.events && ret == o.ret
  }

  /** None while a load balancer has neither hostname nor address. */
  method FindHost(s: Service) returns (host: Option<string>)
    ensures host == ResolveHost(s)
  {
    if s.kind == LOAD_BALANCER {
      if |s.ingress| == 0 {
        return None;
      }
      var loadBalancerHost := s.ingress[0].hostname;
      if loadBalancerHost == "" {
        loadBalancerHost := s.ingress[0].ip;
      }
      if loadBalancerHost == "" {
        return None;
      }
      return Some(loadBalancerHost);
    }
    return Some(s.clusterIP);
  }

  method FindPort(ports: seq<ServicePort>) returns (port: int)
    ensures port == ResolvePort(ports)
  {
    port := 0;
    for i := 0 to |ports|
      invariant port == ResolvePort(ports[..i])
    {
      assert ports[..i + 1][..i] == ports[..i];
      if ports[i].target == API_SERVER_PORT_NAME {
        port := ports[i].port;
      }
    }
    assert ports[..|ports|] == ports;
  }

  method CreateClusterService(cfg: Config, cluster: string, kc: KubernetesCluster, api: ApiServer, x: Inputs)
    returns (ret: Return)
    modifies api`services, api`trace
    ensures Ends(kc, api, old(api.trace), CreateService(cfg, cluster, old(kc.View()), old(api.services), x), ret)
  {
    var desiredClusterIP, desiredLoadBalancerIP := "", "";
    if kc.serviceType == CLUSTER_IP {
      desiredClusterIP := kc.host;
    } else if kc.serviceType == LOAD_BALANCER {
      desiredLoadBalancerIP := kc.host;
    }
    var desiredPort := DEFAULT_PORT;
    if kc.port != 0 {
      desiredPort := kc.port;
    }
    var selector := map[PodBuilder.CLUSTER_LABEL := cluster, PodBuilder.CONTROL_PLANE_LABEL := ""];
    var request := Service(Some(cfg.uid), selector, kc.serviceType, desiredClusterIP, desiredLoadBalancerIP, [],
                           [ServicePort("https", "TCP", desiredPort, API_SERVER_PORT_NAME)]);
    assert CLUSTER_IP != LOAD_BALANCER by { assert |CLUSTER_IP| == 9 && |LOAD_BALANCER| == 12; }
    if x.createService == Refused {
      return Retry;
    }
    api.services := api.services[ServiceName(cluster) := Allocated(request, x.assignedIP)];
    api.trace := api.trace + [CreatedService(ServiceName(cluster), request)];
    ret := if x.createService == Done then Settled else Retry;
  }

  method ReconcileNormalInPlace(cfg: Config, cluster: string, kc: KubernetesCluster, api: ApiServer, x: Inputs)
    returns (ret: Return)
    modifies kc, api`services, api`trace
    ensures Ends(kc, api, old(api.trace), ReconcileNormal(cfg, cluster, old(kc.View()), old(api.services), x), ret)
  {
    hide CreateService, ServiceName, ResolveHost, ResolvePort;
    kc.finalizers := kc.finalizers + {FINALIZER};
    kc.finalizers := kc.finalizers + {FOREGROUND};
    assert kc.finalizers == old(kc.finalizers) + {FINALIZER, FOREGROUND};
    if x.getServiceFails {
      return Retry;
    }
    if ServiceName(cluster) !in api.services {
      ret := CreateClusterService(cfg, cluster, kc, api, x);
      return;
    }
    var s := api.services[ServiceName(cluster)];
    if s.owner != Some(cfg.uid) {
      kc.SetFailure("expected Service " + ServiceName(cluster) + " to be controlled by KubernetesCluster");
      return Retry;
    }
    var resolved := FindHost(s);
    if resolved.None? {
      return RequeueSoon;
    }
    var host := resolved.value;
    var port := FindPort(s.ports);
    if kc.host == "" || kc.port == 0 {
      kc.host := host;
      kc.port := port;
    }
    if kc.host != host || kc.port != port {
      kc.SetFailure("Service endpoint has changed");
      return Settled;
    }
    kc.ready := true;
    ret := Settled;
  }

  method ReconcileCluster(cfg: Config, api: ApiServer, x: Inputs, p: Patch) returns (ret: Return)
    modifies api
    ensures api.View() == Reconcile(cfg, old(api.View()), x, p)
    ensures p == Patch(true, true) ==> ret == ReconcileBody(cfg, old(api.record), old(api.services), x).ret
    ensures p != Patch(true, true) ==> ret == Retry
  {
    var kc := new KubernetesCluster(api.record);
    ret := Dispatch(cfg, kc, api, x);
    hide ReconcileBody, Cluster.ReconcilePhase;
    kc.ReconcilePhase();
    api.record := Patched(api.record, kc.View(), p);
    if p != Patch(true, true) {
      ret := Retry;
    }
  }

  method Dispatch(cfg: Config, kc: KubernetesCluster, api: ApiServer, x: Inputs) returns (ret: Return)
    modifies kc, api`services, api`trace
    ensures Ends(kc, api, old(api.trace), ReconcileBody(cfg, old(kc.View()), old(api.services), x), ret)
  {
    hide ReconcileNormal;
    if x.cluster.LookupFailed? {
      return Retry;
    }
    if x.cluster.Missing? {
      return Settled;
    }
    if x.paused {
      return Settled;
    }
    if kc.serviceType == "" {
      kc.serviceType := CLUSTER_IP;
    }
    if kc.deleting {
      kc.finalizers := kc.finalizers - {FINALIZER};
      return Settled;
    }
    ret := ReconcileNormalInPlace(cfg, x.cluster.name, kc, api, x);
  }
}
