/** The parts of a Kubernetes Pod that the controllers read or write. */
module Pods {
  import opened Common

  /** Quantities are whole multiples of a nano-unit, the finest grain of a Kubernetes quantity;
      zero and negative quantities are possible. */
  type ResourceList = map<string, int>

  datatype Resources = Resources(requests: ResourceList, limits: ResourceList)

  datatype Mount = Mount(name: string, path: string, subPath: string, readOnly: bool)

  datatype SecurityContext = SecurityContext(privileged: Option<bool>, rest: nat)

  datatype Probe = TcpProbe(port: int, periodSeconds: int, failureThreshold: int) | OtherProbe(id: nat)

  datatype Port = Port(name: string, protocol: string, port: int)

  /** `rest` stands for every field the controllers never look at. */
  datatype Container = Container(
    name: string,
    image: string,
    resources: Resources,
    mounts: seq<Mount>,
    securityContext: Option<SecurityContext>,
    tty: bool,
    probe: Option<Probe>,
    ports: seq<Port>,
    rest: nat)

  datatype VolumeSource =
    | EmptyDir(memory: bool)
    | HostPathDirectory(path: string)
    | SecretItems(secretName: string, items: seq<string>, mode: Option<int>)
    | PersistentVolumeClaim(claimName: string, readOnly: bool)
    | OtherSource(id: nat)

  datatype Volume = Volume(name: string, source: VolumeSource)

  datatype PodSpec = PodSpec(
    volumes: seq<Volume>,
    containers: seq<Container>,
    initContainers: seq<Container>,
    restartPolicy: string,
    hostname: string,
    rest: nat)

  datatype ContainerStatus = ContainerStatus(name: string, running: bool, terminated: Option<string>, ready: bool)

  datatype Condition = Condition(kind: string, status: string)

  /** A Pod as the API server holds it; `owner` is the UID in its controller reference. */
  datatype Pod = Pod(
    owner: Option<string>,
    deleting: bool,
    labels: map<string, string>,
    spec: PodSpec,
    statuses: seq<ContainerStatus>,
    conditions: seq<Condition>)
}
