/** The finished machine Pod, spelled out. */
module FinishedPod {
  import opened Common
  import opened Pods
  import opened PodBuilder
  import Machine
  import Qos

  // ---- The kind container

  /** The user's flag is kept; without one the container is privileged, in a new SecurityContext if the
      user gave none. */
  ghost predicate RunsPrivileged(user: Option<SecurityContext>, final: Option<SecurityContext>) {
    && final.Some?
    && (user.None? ==> final.value == SecurityContext(Some(true), 0))
    && (user.Some? ==> final.value.rest == user.value.rest)
    && (user.Some? && user.value.privileged.Some? ==> final == user)
    && (user.Some? && user.value.privileged.None? ==> final.value.privileged == Some(true))
  }

  /** Each field of the finished Pod that the theorems on volumes, mounts, ports and resources leave
      open. */
  lemma FinishedFields(
    l: Layout, spec: PodSpec, machine: string, order: seq<string>, image: string, controlPlane: bool, port: int)
    ensures KindSlot(spec.containers) < |MachineSpec(l, spec, machine, order, image, controlPlane, port).containers|
    ensures var final := MachineSpec(l, spec, machine, order, image, controlPlane, port);
            var user, kind := SlotContainer(spec.containers), final.containers[KindSlot(spec.containers)];
            && final.restartPolicy == "Never"
            && final.hostname == spec.hostname && final.rest == spec.rest && final.initContainers == spec.initContainers
            && kind.name == "kind" && kind.image == image && kind.tty && kind.rest == user.rest
            && RunsPrivileged(user.securityContext, kind.securityContext)
            && kind.probe == (if controlPlane && user.probe.None? then Some(TcpProbe(port, 2, 2)) else user.probe)
            && (!controlPlane ==> kind.ports == user.ports)
            && (kind.resources == user.resources || kind.resources == Resources(map["cpu" := 1_000_000], map[]))
  {
    hide LastKind, UpdateStorage, FillMissing, SetMounts, SetMount, Qos.Classify, HasPort;
  }

  // ---- The controller's own volumes and mounts

  /** The controller's own volumes, by name. */
  function OwnSources(machine: string): map<string, VolumeSource> {
    var secret := machine + "-cloud-init";
    map["tmp" := EmptyDir(true),
        "run" := EmptyDir(true),
        "lib-modules" := HostPathDirectory("/lib/modules"),
        "var-lib-containerd" := EmptyDir(false),
        "var-log" := EmptyDir(false),
        "cloud-init-scripts" := SecretItems(secret, ["bootstrap.sh", "install.sh"], Some(320)),
        "cloud-init-systemd-units" := SecretItems(secret, ["cloud-init.service", "cloud-init.path"], None),
        "etc-systemd-system-kubelet-service-d" := SecretItems(secret, ["20-capk.conf"], None)]
  }

  lemma DefaultsSpelledOut(machine: string)
    ensures forall v :: v in DefaultVolumes(machine) <==>
              v.name in OwnSources(machine) && v.source == OwnSources(machine)[v.name]
  {
    NameLengths();
    var ds, own := DefaultVolumes(machine), OwnSources(machine);
    assert forall i :: 0 <= i < 8 ==> ds[i].name in own && ds[i].source == own[ds[i].name];
    forall v: Volume | v.name in own && v.source == own[v.name] ensures v in ds {
      assert v in [ds[0], ds[1], ds[2], ds[3], ds[4], ds[5], ds[6], ds[7]];
    }
  }

  /** Every volume of the Pod that neither the user nor a template named is one of the controller's own,
      with its own source; and every name of the controller's own is in the Pod. */
  lemma OwnVolumes(
    spec: PodSpec, machine: string, templates: set<string>, order: seq<string>, image: string,
    controlPlane: bool, port: int)
    requires IsOrder(order, templates) && DistinctNames(spec.volumes)
    ensures var final := MachineSpec(StandardLayout(machine), spec, machine, order, image, controlPlane, port).volumes;
            && (forall v :: v in final && v.name !in Names(spec.volumes) && v.name !in templates ==>
                  || (v.name in OwnSources(machine) && v.source == OwnSources(machine)[v.name])
                  || (controlPlane && v == Volume("var-lib-etcd", EmptyDir(false))))
            && (forall name :: name in OwnSources(machine) ==> name in Names(final))
            && (controlPlane ==> "var-lib-etcd" in Names(final))
  {
    var l := StandardLayout(machine);
    StandardIsSound(machine);
    DefaultsSpelledOut(machine);
    assert l.volumes == DefaultVolumes(machine) && l.etcdVolume == Volume("var-lib-etcd", EmptyDir(false));
    hide OwnSources, DefaultVolumes, StandardLayout, Sound, MachineSpec, Names;
    VolumesAccounted(l, spec, machine, templates, order, image, controlPlane, port);
    forall name | name in OwnSources(machine) ensures name in Names(l.volumes) {
      var v := Volume(name, OwnSources(machine)[name]);
      assert v in l.volumes;
      Named(l.volumes, v);
    }
  }

  lemma Named(vs: seq<Volume>, v: Volume)
    requires v in vs
    ensures v.name in Names(vs)
  {}

  lemma VolumesAccounted(
    l: Layout, spec: PodSpec, machine: string, templates: set<string>, order: seq<string>, image: string,
    controlPlane: bool, port: int)
    requires Sound(l) && IsOrder(order, templates) && DistinctNames(spec.volumes)
    ensures var final := MachineSpec(l, spec, machine, order, image, controlPlane, port).volumes;
            && (forall v :: v in final && v.name !in Names(spec.volumes) && v.name !in templates ==>
                  v in l.volumes || (controlPlane && v == l.etcdVolume))
            && Names(l.volumes) <= Names(final) && (controlPlane ==> l.etcdVolume.name in Names(final))
  {
    FinishedVolumes(l, spec, machine, templates, order, image, controlPlane, port);
    var final := MachineSpec(l, spec, machine, order, image, controlPlane, port).volumes;
    AddedAreOwn(l, spec, machine, order, controlPlane);
    hide MachineSpec, AddedVolumes, ClaimVolumes, Sound;
    forall v | v in final && v.name !in Names(spec.volumes) && v.name !in templates
      ensures v in AddedVolumes(l, spec, machine, order, controlPlane)
    {
      NotClaimed(order, machine, v, templates);
    }
  }

  lemma AddedAreOwn(l: Layout, spec: PodSpec, machine: string, order: seq<string>, controlPlane: bool)
    ensures forall v :: v in AddedVolumes(l, spec, machine, order, controlPlane) ==>
              v in l.volumes || (controlPlane && v == l.etcdVolume)
  {
    hide UpdateStorage, FillMissing, Names;
  }

  lemma NotClaimed(order: seq<string>, machine: string, v: Volume, templates: set<string>)
    requires IsOrder(order, templates) && v.name !in templates
    ensures v !in ClaimVolumes(order, machine)
  {
    var cs := ClaimVolumes(order, machine);
    forall i | 0 <= i < |cs| ensures cs[i] != v {
      assert order[i] in order;
    }
  }

  function OwnMounts(): seq<Mount> {
    [ Mount("tmp", "/tmp", "", false),
      Mount("run", "/run", "", false),
      Mount("lib-modules", "/lib/modules", "", true),
      Mount("var-lib-containerd", "/var/lib/containerd", "", false),
      Mount("var-log", "/var/log", "", false),
      Mount("cloud-init-scripts", "/opt/cloud-init", "", false),
      Mount("cloud-init-systemd-units", "/etc/systemd/system/cloud-init.service", "cloud-init.service", false),
      Mount("cloud-init-systemd-units", "/etc/systemd/system/cloud-init.path", "cloud-init.path", false),
      Mount("etc-systemd-system-kubelet-service-d", "/etc/systemd/system/kubelet.service.d/20-capk.conf",
            "20-capk.conf", false) ]
  }

  /** A path is mounted once, by whoever names it first. */
  lemma {:induction false} FirstMountWins(ms: seq<Mount>, adds: seq<Mount>, i: nat)
    requires i < |adds| && !Mounted(ms, adds[i].path)
    requires forall j :: 0 <= j < i ==> adds[j].path != adds[i].path
    ensures adds[i] in SetMounts(ms, adds)
  {
    var front, last := adds[..|adds| - 1], adds[|adds| - 1];
    if i < |front| {
      FirstMountWins(ms, front, i);
      assert forall m :: m in SetMounts(ms, front) ==> m in SetMount(SetMounts(ms, front), last);
    } else {
      SetMountsGrows(ms, front);
      assert !Mounted(SetMounts(ms, front), last.path) by {
        forall m | m in SetMounts(ms, front) ensures m.path != last.path {
          if m in front {
            var j :| 0 <= j < |front| && front[j] == m;
            assert adds[j] == m;
          }
        }
      }
      assert last in SetMounts(ms, front) + [last];
    }
  }

  lemma PathsApart()
    ensures forall i, j :: 0 <= i < j < 9 ==> OwnMounts()[i].path != OwnMounts()[j].path
  {
    var ms := OwnMounts();
    assert |ms[0].path| == 4 && |ms[1].path| == 4 && |ms[2].path| == 12 && |ms[3].path| == 19 && |ms[4].path| == 8;
    assert |ms[5].path| == 15 && |ms[6].path| == 38 && |ms[7].path| == 35 && |ms[8].path| == 50;
    assert ms[0].path[1] != ms[1].path[1];
  }

  lemma MountsSpelledOut()
    ensures |KindMounts()| == 10
    ensures forall i :: 0 <= i < 8 ==> KindMounts()[i] == OwnMounts()[i]
    ensures KindMounts()[8] == OwnMounts()[7] && KindMounts()[9] == OwnMounts()[8]
  {}

  /** Every path of the controller's own that the user leaves free is mounted from its own volume. */
  lemma OwnPaths(
    spec: PodSpec, machine: string, order: seq<string>, image: string, controlPlane: bool, port: int, i: nat)
    requires i < 9
    ensures var l, k := StandardLayout(machine), KindSlot(spec.containers);
            var final := MachineSpec(l, spec, machine, order, image, controlPlane, port).containers;
            !Mounted(SlotContainer(spec.containers).mounts, OwnMounts()[i].path) ==>
              k < |final| && OwnMounts()[i] in final[k].mounts
  {
    if Mounted(SlotContainer(spec.containers).mounts, OwnMounts()[i].path) {
      return;
    }
    var user, ms := SlotContainer(spec.containers).mounts, KindMounts();
    MountsSpelledOut();
    PathsApart();
    var at := if i < 8 then i else 9;
    FirstMountWins(user, ms, at);
    assert StandardLayout(machine).mounts == ms;
    var l := StandardLayout(machine);
    hide StandardLayout, OwnMounts, KindMounts, LastKind, UpdateStorage, FillMissing, SetMounts, Qos.Classify, HasPort;
    assert l.mounts == ms;
  }

  // ---- The Pod as created

  lemma Labels(cfg: Machine.Config, cl: Machine.Cluster, om: Machine.OwnerMachine, order: seq<string>)
    ensures var labels := Machine.NewPod(cfg, cl, om, order).labels;
            && labels.Keys == {"cluster.x-k8s.io/cluster-name"}
                              + (if om.controlPlane then {"cluster.x-k8s.io/control-plane"} else {})
            && labels["cluster.x-k8s.io/cluster-name"] == cl.name
            && (om.controlPlane ==> labels["cluster.x-k8s.io/control-plane"] == "")
  {
    hide MachineSpec, StandardLayout;
    LabelsDiffer();
  }

  lemma Image(version: Option<string>)
    ensures PodImage(version) == if version.None? then "kindest/node:v1.17.0" else "kindest/node:" + version.value
  {
    assert "kindest/node:" + "v1.17.0" == "kindest/node:v1.17.0";
  }

  /** A created Pod is the machine's own, new, labelled for its cluster and its role, and runs the node
      image of the owner's version. */
  lemma CreatedPod(cfg: Machine.Config, cl: Machine.Cluster, om: Machine.OwnerMachine, order: seq<string>)
    ensures var pod, slot := Machine.NewPod(cfg, cl, om, order), KindSlot(cfg.podSpec.containers);
            && pod.owner == Some(cfg.uid) && !pod.deleting && pod.statuses == [] && pod.conditions == []
            && pod.labels.Keys == {"cluster.x-k8s.io/cluster-name"}
                                  + (if om.controlPlane then {"cluster.x-k8s.io/control-plane"} else {})
            && pod.labels["cluster.x-k8s.io/cluster-name"] == cl.name
            && (om.controlPlane ==> pod.labels["cluster.x-k8s.io/control-plane"] == "")
            && slot < |pod.spec.containers|
            && pod.spec.containers[slot].image ==
               (if om.version.None? then "kindest/node:v1.17.0" else "kindest/node:" + om.version.value)
            && (om.controlPlane && SlotContainer(cfg.podSpec.containers).probe.None? ==>
                  pod.spec.containers[slot].probe ==
                  Some(TcpProbe(if cl.apiServerPort.None? then 6443 else cl.apiServerPort.value, 2, 2)))
  {
    hide MachineSpec, StandardLayout, LastKind, KindSlot, SlotContainer, RunsPrivileged, PodImage;
    Labels(cfg, cl, om, order);
    Image(om.version);
    var l, image, port := StandardLayout(cfg.name), PodImage(om.version), ApiServerPort(cl.apiServerPort);
    FinishedFields(l, cfg.podSpec, cfg.name, order, image, om.controlPlane, port);
    SpecBuilt(cfg, cl, om, order);
    hide Machine.NewPod;
  }

  lemma SpecBuilt(cfg: Machine.Config, cl: Machine.Cluster, om: Machine.OwnerMachine, order: seq<string>)
    ensures var pod := Machine.NewPod(cfg, cl, om, order);
            && pod.spec == MachineSpec(StandardLayout(cfg.name), cfg.podSpec, cfg.name, order, PodImage(om.version),
                                       om.controlPlane, ApiServerPort(cl.apiServerPort))
            && pod.owner == Some(cfg.uid) && !pod.deleting && pod.statuses == [] && pod.conditions == []
  {
    hide MachineSpec, StandardLayout, PodImage;
  }
}
