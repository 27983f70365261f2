/** One reconciliation of a KubernetesCluster, as a function of what it reads
    (controllers/kubernetescluster_controller.go). */
module Cluster {
  import opened Common
  import PodBuilder

  const FINALIZER := "kubernetescluster.infrastructure.dippynark.co.uk"
  const FOREGROUND := "foregroundDeletion"
  const API_SERVER_PORT_NAME := PodBuilder.API_SERVER_PORT_NAME
  const DEFAULT_PORT := 443
  const UNSUPPORTED_CHANGE := "UnsupportedChange"
  const CLUSTER_IP := "ClusterIP"
  const LOAD_BALANCER := "LoadBalancer"

  datatype Phase = Unset | Provisioning | Provisioned | Failed | Deleting

  datatype Record = Record(
    deleting: bool,
    finalizers: set<string>,
    serviceType: string,
    host: string,
    port: int,
    failureReason: Option<string>,
    failureMessage: Option<string>,
    phase: Phase,
    ready: bool)

  predicate HasFailed(k: Record) {
    k.failureReason.Some? || k.failureMessage.Some?
  }

  function SetFailure(k: Record, message: string): Record {
    k.(failureReason := Some(UNSUPPORTED_CHANGE), failureMessage := Some(message))
  }

  /** The endpoint counts as unset when either half is. */
  predicate EndpointUnset(k: Record) {
    k.host == "" || k.port == 0
  }

  datatype Ingress = Ingress(hostname: string, ip: string)

  datatype ServicePort = ServicePort(name: string, protocol: string, port: int, target: string)

  datatype Service = Service(
    owner: Option<string>, selector: map<string, string>, kind: string, clusterIP: string, loadBalancerIP: string,
    ingress: seq<Ingress>, ports: seq<ServicePort>)

  datatype Config = Config(uid: string)

  datatype Lookup = LookupFailed | Missing | Found(name: string)

  /** What one reconciliation learns from outside; `assignedIP` is the address the API server picks
      when none is asked for. */
  datatype Inputs = Inputs(
    cluster: Lookup, paused: bool, getServiceFails: bool, createService: Write, assignedIP: string)

  datatype Event = CreatedService(name: string, request: Service)

  datatype Return = Settled | RequeueSoon | Retry

  datatype Outcome = Outcome(k: Record, services: map<string, Service>, events: seq<Event>, ret: Return)

  function ServiceName(cluster: string): string { cluster + "-api-server" }

  // ---- Reading the Service

  /** The host of the Service, once there is one. */
  function ResolveHost(s: Service): Option<string> {
    if s.kind != LOAD_BALANCER then Some(s.clusterIP)
    else if s.ingress == [] then None
    else if s.ingress[0].hostname != "" then Some(s.ingress[0].hostname)
    else if s.ingress[0].ip != "" then Some(s.ingress[0].ip)
    else None
  }

  /** The last port that targets the API server, or zero. */
  function ResolvePort(ports: seq<ServicePort>): int {
    if ports == [] then 0
    else if ports[|ports| - 1].target == API_SERVER_PORT_NAME then ports[|ports| - 1].port
    else ResolvePort(ports[..|ports| - 1])
  }

  // ---- Creating the Service

  /** The Service asked for: at the recorded host, where its type lets one ask, and the recorded
      port. */
  function Request(cfg: Config, cluster: string, k: Record): Service {
    Service(Some(cfg.uid),
            map[PodBuilder.CLUSTER_LABEL := cluster, PodBuilder.CONTROL_PLANE_LABEL := ""],
            k.serviceType,
            if k.serviceType == CLUSTER_IP then k.host else "",
            if k.serviceType == LOAD_BALANCER then k.host else "",
            [],
            [ServicePort("https", "TCP", if k.port != 0 then k.port else DEFAULT_PORT, API_SERVER_PORT_NAME)])
  }

  /** The API server allocates an address when none is asked for. */
  function Allocated(s: Service, assignedIP: string): Service {
    if s.clusterIP == "" then s.(clusterIP := assignedIP) else s
  }

  function CreateService(cfg: Config, cluster: string, k: Record, services: map<string, Service>, x: Inputs): Outcome {
    var request := Request(cfg, cluster, k);
    if x.createService == Refused then Outcome(k, services, [], Retry)
    else Outcome(k, services[ServiceName(cluster) := Allocated(request, x.assignedIP)],
                 [CreatedService(ServiceName(cluster), request)], if x.createService == Done then Settled else Retry)
  }

  // ---- One reconciliation

  function RecordEndpoint(k: Record, host: string, port: int): Record {
    if EndpointUnset(k) then k.(host := host, port := port) else k
  }

  function CheckEndpoint(k: Record, host: string, port: int): Record {
    if k.host != host || k.port != port then SetFailure(k, "Service endpoint has changed") else k.(ready := true)
  }

  function ReconcileNormal(cfg: Config, cluster: string, k: Record, services: map<string, Service>,
    x: Inputs): Outcome {
    var k' := k.(finalizers := k.finalizers + {FINALIZER, FOREGROUND});
    var name := ServiceName(cluster);
    if x.getServiceFails then Outcome(k', services, [], Retry)
    else if name !in services then CreateService(cfg, cluster, k', services, x)
    else
      var s := services[name];
      if s.owner != Some(cfg.uid) then
        Outcome(SetFailure(k', "expected Service " + name + " to be controlled by KubernetesCluster"),
                services, [], Retry)
      else
        match ResolveHost(s)
        case None => Outcome(k', services, [], RequeueSoon)
        case Some(host) =>
          var port := ResolvePort(s.ports);
          Outcome(CheckEndpoint(RecordEndpoint(k', host, port), host, port), services, [], Settled)
  }

  function ReconcileDelete(k: Record, services: map<string, Service>): Outcome {
    Outcome(k.(finalizers := k.finalizers - {FINALIZER}), services, [], Settled)
  }

  function DefaultType(k: Record): Record {
    if k.serviceType == "" then k.(serviceType := CLUSTER_IP) else k
  }

  function ReconcilePhase(k: Record): Record {
    k.(phase :=
         if k.deleting then Deleting
         else if HasFailed(k) then Failed
         else if k.ready then Provisioned
         else if k.phase == Unset then Provisioning
         else k.phase)
  }

  function ReconcileBody(cfg: Config, k: Record, services: map<string, Service>, x: Inputs): Outcome {
    match x.cluster
    case LookupFailed => Outcome(k, services, [], Retry)
    case Missing => Outcome(k, services, [], Settled)
    case Found(cluster) =>
      if x.paused then Outcome(k, services, [], Settled)
      else
        var k' := DefaultType(k);
        if k.deleting then ReconcileDelete(k', services) else ReconcileNormal(cfg, cluster, k', services, x)
  }

  function Patched(persisted: Record, k: Record, p: Patch): Record {
    var withSpec := if p.spec
                    then persisted.(finalizers := k.finalizers, serviceType := k.serviceType,
                                    host := k.host, port := k.port)
                    else persisted;
    if p.status
    then withSpec.(failureReason := k.failureReason, failureMessage := k.failureMessage,
                   phase := k.phase, ready := k.ready)
    else withSpec
  }

  datatype World = World(record: Record, services: map<string, Service>, trace: seq<Event>)

  function Reconcile(cfg: Config, w: World, x: Inputs, p: Patch): World {
    var o := ReconcileBody(cfg, w.record, w.services, x);
    World(Patched(w.record, ReconcilePhase(o.k), p), o.services, w.trace + o.events)
  }
}
