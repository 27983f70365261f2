/** The machine Pod as a function of the machine's spec
    (controllers/kubernetesmachine_controller.go, controllers/kubernetesmachine_utils.go). */
module PodBuilder {
  import opened Common
  import opened Pods
  import Qos

  const KIND := "kind"
  const CONTROL_PLANE_LABEL := "cluster.x-k8s.io/control-plane"
  const CLUSTER_LABEL := "cluster.x-k8s.io/cluster-name"
  const API_SERVER_PORT_NAME := "kube-apiserver"
  const DEFAULT_API_SERVER_PORT := 6443

  const TMP := "tmp"
  const RUN := "run"
  const LIB_MODULES := "lib-modules"
  const VAR_LIB_CONTAINERD := "var-lib-containerd"
  const VAR_LOG := "var-log"
  const VAR_LIB_ETCD := "var-lib-etcd"
  const CLOUD_INIT_SCRIPTS := "cloud-init-scripts"
  const CLOUD_INIT_UNITS := "cloud-init-systemd-units"
  const KUBELET_DROPIN := "etc-systemd-system-kubelet-service-d"

  const ETCD_PATH := "/var/lib/etcd"

  lemma LabelsDiffer()
    ensures CLUSTER_LABEL != CONTROL_PLANE_LABEL
  {
    assert |CLUSTER_LABEL| == 29;
    assert |CONTROL_PLANE_LABEL| == 30;
  }

  // ---- Volumes

  function Names(vs: seq<Volume>): (names: set<string>) {
    set v | v in vs :: v.name
  }

  ghost predicate DistinctNames(vs: seq<Volume>) {
    forall i, j :: 0 <= i < j < |vs| ==> vs[i].name != vs[j].name
  }

  /** The volumes whose names are not taken, in order. */
  function Survivors(vs: seq<Volume>, taken: set<string>): (r: seq<Volume>)
    ensures forall v :: v in r <==> v in vs && v.name !in taken
  {
    if vs == [] then []
    else if vs[0].name in taken then Survivors(vs[1..], taken)
    else [vs[0]] + Survivors(vs[1..], taken)
  }

  function CloudInitSecret(machine: string): string {
    machine + "-cloud-init"
  }

  function DefaultVolumes(machine: string): seq<Volume> {
    [ Volume(TMP, EmptyDir(true)),
      Volume(RUN, EmptyDir(true)),
      Volume(LIB_MODULES, HostPathDirectory("/lib/modules")),
      Volume(VAR_LIB_CONTAINERD, EmptyDir(false)),
      Volume(VAR_LOG, EmptyDir(false)),
      Volume(CLOUD_INIT_SCRIPTS, SecretItems(CloudInitSecret(machine), ["bootstrap.sh", "install.sh"], Some(320))),
      Volume(CLOUD_INIT_UNITS, SecretItems(CloudInitSecret(machine), ["cloud-init.service", "cloud-init.path"], None)),
      Volume(KUBELET_DROPIN, SecretItems(CloudInitSecret(machine), ["20-capk.conf"], None)) ]
  }

  /** Append each default whose name the user did not already use. */
  function FillMissing(vs: seq<Volume>, defaults: seq<Volume>): seq<Volume> {
    vs + Survivors(defaults, Names(vs))
  }

  /** One claim per template name and machine. */
  function ClaimName(template: string, machine: string): string {
    template + "-" + machine
  }

  function ClaimVolume(template: string, machine: string): Volume {
    Volume(template, PersistentVolumeClaim(ClaimName(template, machine), false))
  }

  function ClaimVolumes(order: seq<string>, machine: string): (r: seq<Volume>)
    ensures |r| == |order| && forall i :: 0 <= i < |order| ==> r[i] == ClaimVolume(order[i], machine)
  {
    seq(|order|, i requires 0 <= i < |order| => ClaimVolume(order[i], machine))
  }

  /** Claim-backed volumes first, in the order the claim map is visited, then every volume whose
      name no template uses. */
  function UpdateStorage(vs: seq<Volume>, order: seq<string>, machine: string): seq<Volume> {
    ClaimVolumes(order, machine) + Survivors(vs, set t | t in order)
  }

  // ---- Mounts

  ghost predicate DistinctPaths(ms: seq<Mount>) {
    forall i, j :: 0 <= i < j < |ms| ==> ms[i].path != ms[j].path
  }

  predicate Mounted(ms: seq<Mount>, path: string) {
    exists m :: m in ms && m.path == path
  }

  function SetMount(ms: seq<Mount>, m: Mount): seq<Mount> {
    if Mounted(ms, m.path) then ms else ms + [m]
  }

  function SetMounts(ms: seq<Mount>, adds: seq<Mount>): seq<Mount> {
    if adds == [] then ms else SetMount(SetMounts(ms, adds[..|adds| - 1]), adds[|adds| - 1])
  }

  function KindMounts(): seq<Mount> {
    [ Mount(TMP, "/tmp", "", false),
      Mount(RUN, "/run", "", false),
      Mount(LIB_MODULES, "/lib/modules", "", true),
      Mount(VAR_LIB_CONTAINERD, "/var/lib/containerd", "", false),
      Mount(VAR_LOG, "/var/log", "", false),
      Mount(CLOUD_INIT_SCRIPTS, "/opt/cloud-init", "", false),
      Mount(CLOUD_INIT_UNITS, "/etc/systemd/system/cloud-init.service", "cloud-init.service", false),
      Mount(CLOUD_INIT_UNITS, "/etc/systemd/system/cloud-init.path", "cloud-init.path", false),
      Mount(CLOUD_INIT_UNITS, "/etc/systemd/system/cloud-init.path", "cloud-init.path", false),
      Mount(KUBELET_DROPIN, "/etc/systemd/system/kubelet.service.d/20-capk.conf", "20-capk.conf", false) ]
  }

  /** What the builder adds on its own account: volumes and mounts for every machine, and one more
      of each for the control plane. */
  datatype Layout = Layout(volumes: seq<Volume>, mounts: seq<Mount>, etcdVolume: Volume, etcdMount: Mount)

  function StandardLayout(machine: string): Layout {
    Layout(DefaultVolumes(machine), KindMounts(),
           Volume(VAR_LIB_ETCD, EmptyDir(false)), Mount(VAR_LIB_ETCD, ETCD_PATH, "", false))
  }

  // ---- Containers

  const EMPTY_CONTAINER := Container("", "", Resources(map[], map[]), [], None, false, None, [], 0)

  /** One milli-cpu, in nano-units. */
  const MINIMAL_RESOURCES := Resources(map[Qos.CPU := 1_000_000], map[])

  /** The last container named kind, or -1. */
  function LastKind(cs: seq<Container>): (k: int)
    ensures -1 <= k < |cs|
    ensures k >= 0 ==> cs[k].name == KIND
    ensures forall i :: k < i < |cs| ==> cs[i].name != KIND
  {
    if cs == [] then -1
    else if cs[|cs| - 1].name == KIND then |cs| - 1
    else LastKind(cs[..|cs| - 1])
  }

  /** Where the kind container is put: over the last kind container, otherwise at index 0, because
      the index the search leaves behind is the -1 it started from. */
  function KindSlot(cs: seq<Container>): nat {
    if LastKind(cs) == -1 then 0 else LastKind(cs)
  }

  function Widened(cs: seq<Container>): (r: seq<Container>)
    ensures KindSlot(cs) < |r|
  {
    if LastKind(cs) == -1 then cs + [EMPTY_CONTAINER] else cs
  }

  /** The container that the builder turns into the kind container. */
  function SlotContainer(cs: seq<Container>): Container {
    Widened(cs)[KindSlot(cs)]
  }

  function Privileged(sc: Option<SecurityContext>): Option<SecurityContext> {
    var s := if sc.None? then SecurityContext(None, 0) else sc.value;
    Some(if s.privileged.None? then s.(privileged := Some(true)) else s)
  }

  function KindContainer(c: Container, image: string, bestEffort: bool, mounts: seq<Mount>): Container {
    c.(name := KIND, image := image,
       resources := if bestEffort then MINIMAL_RESOURCES else c.resources,
       securityContext := Privileged(c.securityContext),
       tty := true,
       mounts := SetMounts(c.mounts, mounts))
  }

  function WithKind(spec: PodSpec, image: string, mounts: seq<Mount>): PodSpec {
    var wide := Widened(spec.containers);
    var k := KindSlot(spec.containers);
    var bestEffort := Qos.Classify(wide + spec.initContainers) == Qos.BestEffort;
    spec.(containers := wide[k := KindContainer(wide[k], image, bestEffort, mounts)])
  }

  function ApiServerPort(port: Option<int>): int {
    if port.Some? then port.value else DEFAULT_API_SERVER_PORT
  }

  predicate HasPort(ps: seq<Port>, name: string) {
    exists p :: p in ps && p.name == name
  }

  function ControlPlaneContainer(c: Container, port: int, etcdMount: Mount): Container {
    c.(mounts := SetMount(c.mounts, etcdMount),
       probe := if c.probe.None? then Some(TcpProbe(port, 2, 2)) else c.probe,
       ports := if HasPort(c.ports, API_SERVER_PORT_NAME) then c.ports
                else c.ports + [Port(API_SERVER_PORT_NAME, "TCP", port)])
  }

  function PodImage(version: Option<string>): string {
    "kindest/node:" + if version.Some? then version.value else "v1.17.0"
  }

  // ---- The finished Pod

  function BaseSpec(l: Layout, spec: PodSpec): PodSpec {
    spec.(restartPolicy := "Never", volumes := FillMissing(spec.volumes, l.volumes))
  }

  function WorkerSpec(l: Layout, spec: PodSpec, machine: string, order: seq<string>, image: string): PodSpec {
    var base := BaseSpec(l, spec);
    WithKind(base.(volumes := UpdateStorage(base.volumes, order, machine)), image, l.mounts)
  }

  function ControlPlaneSpec(
    l: Layout, spec: PodSpec, machine: string, order: seq<string>, image: string, port: int): PodSpec
  {
    var w := WorkerSpec(l, spec, machine, order, image);
    var k := KindSlot(spec.containers);
    w.(volumes := FillMissing(w.volumes, [l.etcdVolume]),
       containers := w.containers[k := ControlPlaneContainer(w.containers[k], port, l.etcdMount)])
  }

  function MachineSpec(
    l: Layout, spec: PodSpec, machine: string, order: seq<string>, image: string,
    controlPlane: bool, port: int): PodSpec
  {
    if controlPlane then ControlPlaneSpec(l, spec, machine, order, image, port)
    else WorkerSpec(l, spec, machine, order, image)
  }

  /** The facts about the layout that the theorems below rest on. */
  ghost predicate Sound(l: Layout) {
    && DistinctNames(l.volumes)
    && (forall m :: m in l.mounts ==> m.name in Names(l.volumes))
    && l.etcdMount.name == l.etcdVolume.name
    && forall m :: m in l.mounts ==> m.path != l.etcdMount.path
  }

  // ---- Claim names

  /** Two templates of one machine never share a claim. */
  lemma ClaimNameInjective(s: string, t: string, machine: string)
    requires ClaimName(s, machine) == ClaimName(t, machine)
    ensures s == t
  {
    assert |ClaimName(s, machine)| == |s| + 1 + |machine|;
    assert |ClaimName(t, machine)| == |t| + 1 + |machine|;
    assert ClaimName(s, machine)[..|s|] == s;
    assert ClaimName(t, machine)[..|t|] == t;
  }

  /** Templates of two machines can share one. */
  lemma ClaimNameCollides()
    ensures ClaimName("data", "a-b") == ClaimName("data-a", "b")
  {
    assert ClaimName("data", "a-b") == "data-a-b" == ClaimName("data-a", "b");
  }

  /** The longer machine name is some text, a dash, and the shorter one. */
  predicate ExtendsAfterDash(longer: string, shorter: string) {
    |longer| > |shorter| && longer[|longer| - |shorter| - 1..] == "-" + shorter
  }

  /** Two machines can be given templates that share a claim exactly when one's name ends in a dash
      and the other's name. */
  lemma ClaimNamesCollideIff(m: string, n: string)
    requires m != n
    ensures (exists s, t :: ClaimName(s, m) == ClaimName(t, n)) <==> ExtendsAfterDash(m, n) || ExtendsAfterDash(n, m)
  {
    if s, t :| ClaimName(s, m) == ClaimName(t, n) {
      if |m| >= |n| {
        SharedClaim(s, m, t, n);
      } else {
        SharedClaim(t, n, s, m);
      }
    }
    if ExtendsAfterDash(m, n) {
      ShareClaim(m, n);
    }
    if ExtendsAfterDash(n, m) {
      ShareClaim(n, m);
    }
  }

  lemma SharedClaim(s: string, m: string, t: string, n: string)
    requires ClaimName(s, m) == ClaimName(t, n) && m != n && |m| >= |n|
    ensures ExtendsAfterDash(m, n)
  {
    var x := ClaimName(s, m);
    assert x[|s| + 1..] == m;
    assert x[|t|..] == "-" + n;
    assert x[|t| + 1..] == n && |s| + |m| == |t| + |n|;
    assert |m| != |n|;
    assert m[|m| - |n| - 1..] == x[|t|..];
  }

  lemma ShareClaim(m: string, n: string)
    requires ExtendsAfterDash(m, n)
    ensures exists s, t :: ClaimName(s, m) == ClaimName(t, n)
    ensures exists s, t :: ClaimName(s, n) == ClaimName(t, m)
  {
    var k := m[..|m| - |n| - 1];
    assert m == k + ("-" + n);
    assert ClaimName("", m) == ClaimName("-" + k, n);
  }

  // ---- Volumes of the finished Pod

  lemma {:induction false} SurvivorsKeepDistinct(vs: seq<Volume>, taken: set<string>)
    requires DistinctNames(vs)
    ensures DistinctNames(Survivors(vs, taken))
    ensures Names(Survivors(vs, taken)) == Names(vs) - taken
  {
    if vs != [] {
      var tail := vs[1..];
      SurvivorsKeepDistinct(tail, taken);
      forall v | v in Survivors(tail, taken) ensures v.name != vs[0].name {
        var i :| 0 <= i < |tail| && tail[i] == v;
        assert vs[i + 1] == v;
      }
    }
    forall n ensures n in Names(Survivors(vs, taken)) <==> n in Names(vs) - taken {
      if n in Names(vs) - taken {
        var v :| v in vs && v.name == n;
        assert v in Survivors(vs, taken);
      }
    }
  }

  lemma {:induction false} SurvivorsOfConcat(a: seq<Volume>, b: seq<Volume>, taken: set<string>)
    ensures Survivors(a + b, taken) == Survivors(a, taken) + Survivors(b, taken)
  {
    if a == [] {
      assert a + b == b;
    } else {
      assert (a + b)[1..] == a[1..] + b;
      SurvivorsOfConcat(a[1..], b, taken);
    }
  }

  lemma ConcatDistinct(a: seq<Volume>, b: seq<Volume>)
    requires DistinctNames(a) && DistinctNames(b) && Names(a) !! Names(b)
    ensures DistinctNames(a + b) && Names(a + b) == Names(a) + Names(b)
  {
    assert forall v :: v in a ==> v.name in Names(a);
    assert forall v :: v in b ==> v.name in Names(b);
  }

  lemma NamesOfConcat(a: seq<Volume>, b: seq<Volume>)
    ensures Names(a + b) == Names(a) + Names(b)
  {}

  lemma FillMissingDistinct(vs: seq<Volume>, defaults: seq<Volume>)
    requires DistinctNames(vs) && DistinctNames(defaults)
    ensures DistinctNames(FillMissing(vs, defaults))
    ensures Names(FillMissing(vs, defaults)) == Names(vs) + Names(defaults)
  {
    SurvivorsKeepDistinct(defaults, Names(vs));
    ConcatDistinct(vs, Survivors(defaults, Names(vs)));
  }

  lemma ClaimVolumesDistinct(order: seq<string>, machine: string)
    requires forall i, j :: 0 <= i < j < |order| ==> order[i] != order[j]
    ensures DistinctNames(ClaimVolumes(order, machine))
    ensures Names(ClaimVolumes(order, machine)) == set t | t in order
  {
    var cv := ClaimVolumes(order, machine);
    forall t | t in order ensures t in Names(cv) {
      var i :| 0 <= i < |order| && order[i] == t;
      assert cv[i].name == t;
    }
  }

  lemma UpdateStorageDistinct(vs: seq<Volume>, order: seq<string>, machine: string)
    requires DistinctNames(vs) && forall i, j :: 0 <= i < j < |order| ==> order[i] != order[j]
    ensures DistinctNames(UpdateStorage(vs, order, machine))
    ensures Names(UpdateStorage(vs, order, machine)) == Names(vs) + set t | t in order
  {
    var taken := set t | t in order;
    ClaimVolumesDistinct(order, machine);
    SurvivorsKeepDistinct(vs, taken);
    ConcatDistinct(ClaimVolumes(order, machine), Survivors(vs, taken));
  }

  lemma NameLengths()
    ensures |TMP| == 3 && |RUN| == 3 && TMP != RUN
    ensures |LIB_MODULES| == 11 && |VAR_LOG| == 7 && |CLOUD_INIT_UNITS| == 24 && |KUBELET_DROPIN| == 36
    ensures |VAR_LIB_CONTAINERD| == 18 && |CLOUD_INIT_SCRIPTS| == 18 && VAR_LIB_CONTAINERD != CLOUD_INIT_SCRIPTS
  {
    assert TMP[0] != RUN[0];
    assert VAR_LIB_CONTAINERD[0] != CLOUD_INIT_SCRIPTS[0];
  }

  lemma DefaultNamesDistinct(machine: string)
    ensures DistinctNames(DefaultVolumes(machine))
  {
    NameLengths();
  }

  /** The standard layout has distinct volume names, mounts only its own volumes, and leaves the
      etcd directory to the control plane. */
  lemma StandardIsSound(machine: string)
    ensures Sound(StandardLayout(machine))
  {
    DefaultNamesDistinct(machine);
    KindMountsNameDefaults(machine);
    KindMountsAvoidEtcd();
  }

  lemma KindMountsNameDefaults(machine: string)
    ensures forall m :: m in KindMounts() ==> m.name in Names(DefaultVolumes(machine))
  {
    var ms, ds := KindMounts(), DefaultVolumes(machine);
    assert forall i :: 0 <= i < 8 ==> ds[i] in ds;
    forall i | 0 <= i < |ms| ensures ms[i].name in Names(ds) {
      var at := if i < 7 then i else if i < 9 then 6 else 7;
      assert ms[i].name == ds[at].name;
    }
  }

  lemma ShortPathsAvoidEtcd()
    ensures "/tmp" != ETCD_PATH && "/run" != ETCD_PATH && "/lib/modules" != ETCD_PATH
    ensures "/var/lib/containerd" != ETCD_PATH && "/var/log" != ETCD_PATH && "/opt/cloud-init" != ETCD_PATH
  {
    assert |ETCD_PATH| == 13;
    assert |"/tmp"| == 4 && |"/run"| == 4 && |"/lib/modules"| == 12;
    assert |"/var/lib/containerd"| == 19 && |"/var/log"| == 8 && |"/opt/cloud-init"| == 15;
  }

  lemma UnitPathsAvoidEtcd()
    ensures "/etc/systemd/system/cloud-init.service" != ETCD_PATH
    ensures "/etc/systemd/system/cloud-init.path" != ETCD_PATH
    ensures "/etc/systemd/system/kubelet.service.d/20-capk.conf" != ETCD_PATH
  {
    assert |ETCD_PATH| == 13;
    assert |"/etc/systemd/system/cloud-init.service"| == 38;
    assert |"/etc/systemd/system/cloud-init.path"| == 35;
    assert |"/etc/systemd/system/kubelet.service.d/20-capk.conf"| == 50;
  }

  lemma KindMountsAvoidEtcd()
    ensures forall m :: m in KindMounts() ==> m.path != ETCD_PATH
  {
    ShortPathsAvoidEtcd();
    UnitPathsAvoidEtcd();
    var ms := KindMounts();
    forall i | 0 <= i < |ms| ensures ms[i].path != ETCD_PATH {
    }
  }

  /** What the controller itself appends after the user's surviving volumes. */
  function AddedVolumes(
    l: Layout, spec: PodSpec, machine: string, order: seq<string>, controlPlane: bool): seq<Volume> {
    var taken := set t | t in order;
    var defaults := Survivors(Survivors(l.volumes, Names(spec.volumes)), taken);
    var soFar := UpdateStorage(FillMissing(spec.volumes, l.volumes), order, machine);
    defaults + if controlPlane then Survivors([l.etcdVolume], Names(soFar)) else []
  }

  lemma AddedVolumesAreNew(
    l: Layout, spec: PodSpec, machine: string, order: seq<string>, controlPlane: bool)
    requires Sound(l) && DistinctNames(spec.volumes)
    requires forall i, j :: 0 <= i < j < |order| ==> order[i] != order[j]
    ensures forall v :: v in AddedVolumes(l, spec, machine, order, controlPlane) ==>
              v.name !in Names(spec.volumes) && v.name !in order
  {
    var base := FillMissing(spec.volumes, l.volumes);
    FillMissingDistinct(spec.volumes, l.volumes);
    UpdateStorageDistinct(base, order, machine);
  }

  lemma FinishedNames(
    l: Layout, spec: PodSpec, machine: string, order: seq<string>, image: string, controlPlane: bool, port: int)
    requires Sound(l) && DistinctNames(spec.volumes)
    requires forall i, j :: 0 <= i < j < |order| ==> order[i] != order[j]
    ensures var final := MachineSpec(l, spec, machine, order, image, controlPlane, port).volumes;
            && DistinctNames(final)
            && Names(final) == Names(spec.volumes) + Names(l.volumes) + (set t | t in order)
                               + (if controlPlane then {l.etcdVolume.name} else {})
  {
    var base := FillMissing(spec.volumes, l.volumes);
    var stored := UpdateStorage(base, order, machine);
    FillMissingDistinct(spec.volumes, l.volumes);
    UpdateStorageDistinct(base, order, machine);
    assert Names([l.etcdVolume]) == {l.etcdVolume.name};
    FillMissingDistinct(stored, [l.etcdVolume]);
  }

  lemma FinishedShape(
    l: Layout, spec: PodSpec, machine: string, order: seq<string>, image: string, controlPlane: bool, port: int)
    ensures MachineSpec(l, spec, machine, order, image, controlPlane, port).volumes ==
            ClaimVolumes(order, machine) + Survivors(spec.volumes, set t | t in order)
            + AddedVolumes(l, spec, machine, order, controlPlane)
  {
    hide Survivors, Names, Qos.Classify, LastKind, ClaimVolumes, ControlPlaneContainer, KindContainer;
    SurvivorsOfConcat(spec.volumes, Survivors(l.volumes, Names(spec.volumes)), set t | t in order);
  }

  /** Whatever order the claim map is visited in, the finished Pod's volumes are: one claim-backed
      volume per template, then the user's volumes that no template displaces, in their own order,
      then the controller's own; all names differ when the user's do. */
  lemma FinishedVolumes(
    l: Layout, spec: PodSpec, machine: string, templates: set<string>, order: seq<string>, image: string,
    controlPlane: bool, port: int)
    requires Sound(l) && IsOrder(order, templates) && DistinctNames(spec.volumes)
    ensures var final := MachineSpec(l, spec, machine, order, image, controlPlane, port).volumes;
            var added := AddedVolumes(l, spec, machine, order, controlPlane);
            && DistinctNames(final)
            && final == ClaimVolumes(order, machine) + Survivors(spec.volumes, templates) + added
            && (forall v :: v in added ==> v.name !in Names(spec.volumes) && v.name !in templates)
            && (forall v :: v in final && v.name in templates ==>
                  v.source == PersistentVolumeClaim(v.name + "-" + machine, false))
            && Names(final) == Names(spec.volumes) + Names(l.volumes) + templates
                               + (if controlPlane then {l.etcdVolume.name} else {})
  {
    assert (set t | t in order) == templates;
    FinishedNames(l, spec, machine, order, image, controlPlane, port);
    FinishedShape(l, spec, machine, order, image, controlPlane, port);
    AddedVolumesAreNew(l, spec, machine, order, controlPlane);
    var final := MachineSpec(l, spec, machine, order, image, controlPlane, port).volumes;
    forall v | v in final && v.name in templates ensures v == ClaimVolume(v.name, machine) {
      assert v in ClaimVolumes(order, machine);
    }
  }

  // ---- Mounts of the finished kind container

  lemma {:induction false} SetMountsGrows(ms: seq<Mount>, adds: seq<Mount>)
    ensures ms <= SetMounts(ms, adds)
    ensures DistinctPaths(ms) ==> DistinctPaths(SetMounts(ms, adds))
    ensures forall m :: m in SetMounts(ms, adds) ==> m in ms || m in adds
    ensures forall m :: m in ms || m in adds ==> Mounted(SetMounts(ms, adds), m.path)
  {
    if adds == [] {
    } else {
      var front, last := adds[..|adds| - 1], adds[|adds| - 1];
      SetMountsGrows(ms, front);
      var before := SetMounts(ms, front);
      assert adds == front + [last];
      forall m | m in ms || m in adds ensures Mounted(SetMount(before, last), m.path) {
        if m in ms || m in front {
          var w :| w in before && w.path == m.path;
          assert w in SetMount(before, last);
        } else {
          assert m == last;
          if !Mounted(before, last.path) {
            assert last in SetMount(before, last);
          }
        }
      }
    }
  }

  /** The mounts of the finished kind container extend the user's; a path the user mounted is never
      mounted again; and every mount the controller adds names a volume of the Pod. */
  lemma FinishedMounts(
    l: Layout, spec: PodSpec, machine: string, templates: set<string>, order: seq<string>, image: string,
    controlPlane: bool, port: int)
    requires Sound(l) && IsOrder(order, templates) && DistinctNames(spec.volumes)
    ensures var final := MachineSpec(l, spec, machine, order, image, controlPlane, port);
            var k := KindSlot(spec.containers);
            var user := SlotContainer(spec.containers).mounts;
            var mounts := final.containers[k].mounts;
            && final.containers[k].name == KIND
            && user <= mounts
            && (DistinctPaths(user) ==> DistinctPaths(mounts))
            && (forall m :: m in mounts && m !in user ==> m.name in Names(final.volumes))
            && (forall m :: m in l.mounts ==> Mounted(mounts, m.path))
            && (controlPlane ==> Mounted(mounts, l.etcdMount.path))
  {
    hide LastKind, Survivors, FillMissing, UpdateStorage, AddedVolumes, Names, Qos.Classify, Privileged;
    var final := MachineSpec(l, spec, machine, order, image, controlPlane, port);
    var user := SlotContainer(spec.containers).mounts;
    var extra := if controlPlane then [l.etcdMount] else [];
    var kinds := SetMounts(user, l.mounts);
    FinishedVolumes(l, spec, machine, templates, order, image, controlPlane, port);
    SetMountsGrows(user, l.mounts);
    SetMountsGrows(kinds, extra);
    assert final.containers[KindSlot(spec.containers)].mounts == SetMounts(kinds, extra) by {
      assert [l.etcdMount][..0] == [];
    }
    forall m | m in l.mounts ensures Mounted(SetMounts(kinds, extra), m.path) {
      var w :| w in kinds && w.path == m.path;
    }
    assert controlPlane ==> l.etcdMount in extra;
  }

  // ---- Containers of the finished Pod

  /** Containers other than the kind one come out as they went in, provided the spec lists a kind
      container or no container at all. */
  lemma OtherContainersUnchanged(
    l: Layout, spec: PodSpec, machine: string, order: seq<string>, image: string, controlPlane: bool, port: int)
    requires LastKind(spec.containers) != -1 || spec.containers == []
    ensures var final := MachineSpec(l, spec, machine, order, image, controlPlane, port);
            && final.initContainers == spec.initContainers
            && (forall i :: 0 <= i < |spec.containers| && i != LastKind(spec.containers) ==>
                  i < |final.containers| && final.containers[i] == spec.containers[i])
            && |final.containers| == if spec.containers == [] then 1 else |spec.containers|
  {}

  /** In the remaining case, a spec that lists only other containers, the first of them is turned
      into the kind container and a nameless container is appended. */
  lemma OnlyOthersLoseTheFirst(
    l: Layout, spec: PodSpec, machine: string, order: seq<string>, image: string, controlPlane: bool, port: int)
    requires LastKind(spec.containers) == -1 && spec.containers != []
    ensures var final := MachineSpec(l, spec, machine, order, image, controlPlane, port).containers;
            && |final| == |spec.containers| + 1
            && final[0].name == KIND && final[0].image == image && final[0] != spec.containers[0]
            && final[|final| - 1] == EMPTY_CONTAINER
            && forall i :: 1 <= i < |spec.containers| ==> final[i] == spec.containers[i]
  {
    assert spec.containers[0].name != KIND;
  }

  /** The finished Pod is never BestEffort, and the kind container's resources are replaced exactly
      when the Pod would otherwise be. */
  lemma NeverBestEffort(
    l: Layout, spec: PodSpec, machine: string, order: seq<string>, image: string, controlPlane: bool, port: int)
    ensures var final := MachineSpec(l, spec, machine, order, image, controlPlane, port);
            var before := SlotContainer(spec.containers).resources;
            var after := final.containers[KindSlot(spec.containers)].resources;
            && Qos.Classify(Qos.AllContainers(final)) != Qos.BestEffort
            && after == if Qos.Classify(Qos.AllContainers(spec)) == Qos.BestEffort then MINIMAL_RESOURCES else before
  {
    var final := MachineSpec(l, spec, machine, order, image, controlPlane, port);
    var k := KindSlot(spec.containers);
    var wide := Widened(spec.containers);
    EmptyAddsNothing(spec);
    if Qos.Classify(wide + spec.initContainers) == Qos.BestEffort {
      assert Qos.Positive(Qos.Requests(final.containers[k]), Qos.CPU) > 0;
      SomeoneAsks(final, k);
    } else {
      var c :| c in wide + spec.initContainers && !Qos.AsksNothing(c);
      if c in spec.initContainers {
        assert c in Qos.AllContainers(final);
      } else {
        var i :| 0 <= i < |wide| && wide[i] == c;
        assert final.containers[i].resources == c.resources;
        SomeoneAsks(final, i);
      }
    }
  }

  lemma SomeoneAsks(p: PodSpec, i: nat)
    requires i < |p.containers| && !Qos.AsksNothing(p.containers[i])
    ensures Qos.Classify(Qos.AllContainers(p)) != Qos.BestEffort
  {
    assert Qos.AllContainers(p)[i] == p.containers[i];
  }

  lemma EmptyAddsNothing(spec: PodSpec)
    ensures Qos.Classify(Widened(spec.containers) + spec.initContainers) == Qos.BestEffort <==>
            Qos.Classify(Qos.AllContainers(spec)) == Qos.BestEffort
  {
    assert Qos.AsksNothing(EMPTY_CONTAINER);
    assert forall c :: c in Widened(spec.containers) ==> c in spec.containers || c == EMPTY_CONTAINER;
    assert forall c :: c in spec.containers ==> c in Widened(spec.containers);
  }

  // ---- Persistence

  /** The etcd data directory of the Pod's container `k` is backed by the claim of the etcd template,
      and by nothing else. */
  ghost predicate EtcdPersisted(l: Layout, p: PodSpec, k: nat, machine: string) {
    && k < |p.containers|
    && Mounted(p.containers[k].mounts, l.etcdMount.path)
    && (forall m :: m in p.containers[k].mounts && m.path == l.etcdMount.path ==> m.name == l.etcdVolume.name)
    && l.etcdVolume.name in Names(p.volumes)
    && (forall v :: v in p.volumes && v.name == l.etcdVolume.name ==> v == ClaimVolume(v.name, machine))
  }

  /** The user's own mounts at the etcd directory, if any, name the etcd volume. */
  ghost predicate EtcdMountsAgree(l: Layout, spec: PodSpec) {
    forall m :: m in SlotContainer(spec.containers).mounts && m.path == l.etcdMount.path ==> m.name == l.etcdVolume.name
  }

  /** With a template for it, the etcd directory is kept on its claim exactly when no mount of the
      user's there names another volume. */
  lemma EtcdOnClaim(
    l: Layout, spec: PodSpec, machine: string, templates: set<string>, order: seq<string>, image: string, port: int)
    requires Sound(l) && IsOrder(order, templates) && l.etcdVolume.name in templates
    ensures EtcdPersisted(l, ControlPlaneSpec(l, spec, machine, order, image, port), KindSlot(spec.containers), machine)
            <==> EtcdMountsAgree(l, spec)
  {
    var final := ControlPlaneSpec(l, spec, machine, order, image, port);
    var k := KindSlot(spec.containers);
    var user := SlotContainer(spec.containers).mounts;
    var kinds := SetMounts(user, l.mounts);
    SetMountsGrows(user, l.mounts);
    SetMountsGrows(kinds, [l.etcdMount]);
    assert SetMounts(kinds, [l.etcdMount]) == SetMount(kinds, l.etcdMount) by { assert [l.etcdMount][..0] == []; }
    assert final.containers[k].mounts == SetMount(kinds, l.etcdMount);
    assert l.etcdMount in [l.etcdMount];
    EtcdVolumeIsClaim(l, spec, machine, order, image);
  }

  lemma EtcdVolumeIsClaim(l: Layout, spec: PodSpec, machine: string, order: seq<string>, image: string)
    requires l.etcdVolume.name in order
    ensures var stored := WorkerSpec(l, spec, machine, order, image).volumes;
            && l.etcdVolume.name in Names(stored)
            && FillMissing(stored, [l.etcdVolume]) == stored
            && forall v :: v in stored && v.name == l.etcdVolume.name ==> v == ClaimVolume(v.name, machine)
  {
    var stored := WorkerSpec(l, spec, machine, order, image).volumes;
    var i :| 0 <= i < |order| && order[i] == l.etcdVolume.name;
    assert stored[i] == ClaimVolume(l.etcdVolume.name, machine);
    assert stored[i] in stored;
    assert Survivors([l.etcdVolume], Names(stored)) == [];
  }
}
