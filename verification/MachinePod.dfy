/** The Pod builder as it runs: a deep copy of the machine's own PodSpec whose volume list is
    reassigned, whose container slice is written through a pointer to one of its elements, and one of
    whose SecurityContexts is written through that element. */
module MachinePod {
  import opened Common
  import opened Pods
  import opened PodBuilder
  import Qos

  // ---- A PodSpec in memory

  class SecurityContextCell {
    var privileged: Option<bool>
    const rest: nat

    function View(): SecurityContext
      reads this
    {
      SecurityContext(privileged, rest)
    }

    constructor (c: SecurityContext)
      ensures View() == c
    {
      privileged, rest := c.privileged, c.rest;
    }
  }

  /** An element of the container slice. Of its pointers only the SecurityContext's is ever written
      through; everything else is replaced as a whole. */
  datatype ContainerCell = ContainerCell(
    name: string,
    image: string,
    resources: Resources,
    mounts: seq<Mount>,
    context: SecurityContextCell?,
    tty: bool,
    probe: Option<Probe>,
    ports: seq<Port>,
    rest: nat)

  const EMPTY_CELL := ContainerCell("", "", Resources(map[], map[]), [], null, false, None, [], 0)

  function ViewOf(c: ContainerCell): Container
    reads c.context
  {
    Container(c.name, c.image, c.resources, c.mounts, if c.context == null then None else Some(c.context.View()),
              c.tty, c.probe, c.ports, c.rest)
  }

  ghost function Contexts(cs: seq<ContainerCell>): set<SecurityContextCell> {
    set c | c in cs && c.context != null :: c.context as SecurityContextCell
  }

  function Views(cs: seq<ContainerCell>): (r: seq<Container>)
    reads Contexts(cs)
    ensures |r| == |cs| && forall i :: 0 <= i < |cs| ==> r[i] == ViewOf(cs[i])
  {
    if cs == [] then []
    else
      assert cs[|cs| - 1] in cs;
      Views(cs[..|cs| - 1]) + [ViewOf(cs[|cs| - 1])]
  }

  /** No two containers share a SecurityContext. */
  ghost predicate Separate(cs: seq<ContainerCell>) {
    forall i, j :: 0 <= i < j < |cs| && cs[i].context != null ==> cs[i].context != cs[j].context
  }

  /** The container slice is an array, and a pointer to one of its elements is an index into it. */
  class PodSpecCell {
    var volumes: seq<Volume>
    var containers: array<ContainerCell>
    const initContainers: seq<Container>
    var restartPolicy: string
    const hostname: string
    const rest: nat

    function View(): PodSpec
      reads this, containers, Contexts(containers[..])
    {
      PodSpec(volumes, Views(containers[..]), initContainers, restartPolicy, hostname, rest)
    }

    constructor (p: PodSpec)
      ensures View() == p && fresh(containers) && fresh(Contexts(containers[..])) && Separate(containers[..])
    {
      volumes, initContainers, restartPolicy := p.volumes, p.initContainers, p.restartPolicy;
      hostname, rest := p.hostname, p.rest;
      var cells := Allocate(p.containers);
      containers := new ContainerCell[|cells|](i requires 0 <= i < |cells| => cells[i]);
      new;
      hide Views, Separate, Contexts;
      assert containers[..] == cells;
    }

    /** An equal PodSpec that shares no storage with this one, nor within itself even if this one does. */
    method DeepCopy() returns (copy: PodSpecCell)
      ensures copy.View() == View()
      ensures fresh(copy) && fresh(copy.containers) && fresh(Contexts(copy.containers[..]))
      ensures Separate(copy.containers[..])
    {
      copy := new PodSpecCell(View());
    }
  }

  method Allocate(cs: seq<Container>) returns (cells: seq<ContainerCell>)
    ensures Views(cells) == cs && fresh(Contexts(cells)) && Separate(cells)
  {
    cells := [];
    for i := 0 to |cs|
      invariant |cells| == i && fresh(Contexts(cells)) && Separate(cells)
      invariant forall j :: 0 <= j < i ==> ViewOf(cells[j]) == cs[j]
    {
      var c := cs[i];
      var context: SecurityContextCell? := null;
      assert forall j :: 0 <= j < i ==> cells[j] in cells;
      if c.securityContext.Some? {
        context := new SecurityContextCell(c.securityContext.value);
      }
      var cell := ContainerCell(c.name, c.image, c.resources, c.mounts, context, c.tty, c.probe, c.ports, c.rest);
      assert Contexts(cells + [cell]) == Contexts(cells) + if context == null then {} else {context};
      cells := cells + [cell];
    }
  }

  // ---- Volumes

  /** Which defaults the user left out is decided before any of them is appended. */
  method FillVolumes(pod: PodSpecCell, defaults: seq<Volume>)
    modifies pod`volumes
    ensures pod.volumes == FillMissing(old(pod.volumes), defaults)
  {
    hide Names;
    var user := pod.volumes;
    var missing := FindMissing(user, defaults);
    for j := 0 to |defaults|
      invariant pod.volumes == user + Survivors(defaults[..j], Names(user))
    {
      assert defaults[..j + 1] == defaults[..j] + [defaults[j]];
      SurvivorsOfConcat(defaults[..j], [defaults[j]], Names(user));
      if missing[j] {
        pod.volumes := pod.volumes + [defaults[j]];
      }
    }
    assert defaults[..|defaults|] == defaults;
  }

  /** One flag per default, cleared when some volume has its name. */
  method FindMissing(user: seq<Volume>, defaults: seq<Volume>) returns (missing: seq<bool>)
    ensures |missing| == |defaults|
    ensures forall j :: 0 <= j < |defaults| ==> (missing[j] <==> defaults[j].name !in Names(user))
  {
    missing := seq(|defaults|, _ => true);
    for i := 0 to |user|
      invariant |missing| == |defaults|
      invariant forall j :: 0 <= j < |defaults| ==> (missing[j] <==> defaults[j].name !in Names(user[..i]))
    {
      ghost var before := missing;
      assert user[..i + 1] == user[..i] + [user[i]];
      NamesOfConcat(user[..i], [user[i]]);
      assert Names([user[i]]) == {user[i].name};
      for j := 0 to |defaults|
        invariant |missing| == |defaults|
        invariant forall n :: j <= n < |defaults| ==> missing[n] == before[n]
        invariant forall n :: 0 <= n < j ==> (missing[n] <==> before[n] && defaults[n].name != user[i].name)
      {
        if user[i].name == defaults[j].name {
          missing := missing[j := false];
        }
      }
    }
    assert user[..|user|] == user;
  }

  /** `order` is the order in which this run visits the claim map. */
  method UpdateStorageInPlace(pod: PodSpecCell, order: seq<string>, machine: string)
    modifies pod`volumes
    ensures pod.volumes == UpdateStorage(old(pod.volumes), order, machine)
  {
    var currentVolumes := pod.volumes;
    var newVolumes: seq<Volume> := [];
    for i := 0 to |order|
      invariant newVolumes == ClaimVolumes(order, machine)[..i]
    {
      newVolumes := newVolumes + [ClaimVolume(order[i], machine)];
    }
    ghost var taken := set t | t in order;
    for i := 0 to |currentVolumes|
      invariant newVolumes == ClaimVolumes(order, machine) + Survivors(currentVolumes[..i], taken)
    {
      assert currentVolumes[..i + 1] == currentVolumes[..i] + [currentVolumes[i]];
      SurvivorsOfConcat(currentVolumes[..i], [currentVolumes[i]], taken);
      if currentVolumes[i].name !in order {
        newVolumes := newVolumes + [currentVolumes[i]];
      }
    }
    assert currentVolumes[..|currentVolumes|] == currentVolumes;
    pod.volumes := newVolumes;
  }

  // ---- The kind container

  method SetVolumeMount(containers: array<ContainerCell>, k: nat, m: Mount)
    requires k < containers.Length
    modifies containers
    ensures containers[..] ==
            old(containers[..])[k := old(containers[k]).(mounts := SetMount(old(containers[k].mounts), m))]
  {
    var mounts := containers[k].mounts;
    var pathMissing := true;
    for i := 0 to |mounts|
      invariant pathMissing
      invariant forall j :: 0 <= j < i ==> mounts[j].path != m.path
    {
      if mounts[i].path == m.path {
        pathMissing := false;
        assert mounts[i] in mounts;
        break;
      }
    }
    if pathMissing {
      containers[k] := containers[k].(mounts := mounts + [m]);
    }
  }

  method SetAllMounts(containers: array<ContainerCell>, k: nat, adds: seq<Mount>)
    requires k < containers.Length
    modifies containers
    ensures containers[..] ==
            old(containers[..])[k := old(containers[k]).(mounts := SetMounts(old(containers[k].mounts), adds))]
  {
    ghost var was := containers[..];
    for i := 0 to |adds|
      invariant containers[..] == was[k := was[k].(mounts := SetMounts(was[k].mounts, adds[..i]))]
    {
      assert adds[..i + 1][..i] == adds[..i];
      SetVolumeMount(containers, k, adds[i]);
    }
    assert adds[..|adds|] == adds;
  }

  /** Find the element to become kind. The search has an index of its own, so the outer `index` is
      still -1 when an element is appended. */
  method FindKind(pod: PodSpecCell) returns (k: nat)
    modifies pod`containers
    ensures pod.View() == old(pod.View()).(containers := Widened(old(pod.View().containers)))
    ensures k == KindSlot(old(pod.View().containers)) && k < pod.containers.Length
    ensures pod.containers == old(pod.containers) || fresh(pod.containers)
    ensures Contexts(pod.containers[..]) == old(Contexts(pod.containers[..]))
    ensures old(Separate(pod.containers[..])) ==> Separate(pod.containers[..])
  {
    hide Views, LastKind, Contexts, Separate;
    var index := -1;
    var cs := pod.containers[..];
    var found := SearchKind(cs);
    if found == -1 {
      var wide := cs + [EMPTY_CELL];
      pod.containers := new ContainerCell[|wide|](i requires 0 <= i < |wide| => wide[i]);
      assert pod.containers[..] == wide;
      EmptyAppended(cs);
      k := index + 1;
    } else {
      k := found;
    }
  }

  method SearchKind(cs: seq<ContainerCell>) returns (found: int)
    ensures found == LastKind(Views(cs))
  {
    hide Views;
    found := -1;
    ghost var views := Views(cs);
    for i := 0 to |cs|
      invariant found == LastKind(views[..i])
    {
      assert views[..i + 1][..i] == views[..i];
      if cs[i].name == KIND {
        found := i;
      }
    }
    assert views[..|cs|] == views;
  }

  lemma EmptyAppended(cs: seq<ContainerCell>)
    ensures Views(cs + [EMPTY_CELL]) == Views(cs) + [EMPTY_CONTAINER]
    ensures Contexts(cs + [EMPTY_CELL]) == Contexts(cs)
    ensures Separate(cs) ==> Separate(cs + [EMPTY_CELL])
  {}

  lemma ViewsOfUpdate(cs: seq<ContainerCell>, k: nat, c: ContainerCell)
    requires k < |cs|
    ensures Views(cs[k := c]) == Views(cs)[k := ViewOf(c)]
  {}

  lemma SameContexts(cs: seq<ContainerCell>, k: nat, c: ContainerCell)
    requires k < |cs| && c.context == cs[k].context
    ensures Contexts(cs[k := c]) == Contexts(cs)
  {
    var ds := cs[k := c];
    forall x | x in cs ensures exists y :: y in ds && y.context == x.context {
      var i :| 0 <= i < |cs| && cs[i] == x;
      assert ds[i] in ds;
    }
    forall y | y in ds ensures exists x :: x in cs && x.context == y.context {
      var i :| 0 <= i < |ds| && ds[i] == y;
      assert cs[i] in cs;
    }
  }

  /** Replacing an element keeps the SecurityContexts apart if it brings none that others have. */
  lemma ContextsOfUpdate(cs: seq<ContainerCell>, k: nat, c: ContainerCell)
    requires k < |cs|
    ensures Contexts(cs[k := c]) <= Contexts(cs) + {c.context}
    ensures cs[k].context != null ==> cs[k].context in Contexts(cs)
    ensures c.context == cs[k].context && Separate(cs) ==> Separate(cs[k := c])
  {
    assert forall x :: x in cs[k := c] ==> x == c || x in cs;
  }

  /** Name and image, and minimal resources where the Pod, as it then is, asks for none. */
  method NameKind(pod: PodSpecCell, k: nat, image: string)
    requires k < pod.containers.Length
    modifies pod.containers
    ensures var was := old(Views(pod.containers[..]));
            var bestEffort := Qos.Classify(was + pod.initContainers) == Qos.BestEffort;
            Views(pod.containers[..]) == was[k := was[k].(
              name := KIND, image := image, resources := if bestEffort then MINIMAL_RESOURCES else was[k].resources)]
    ensures Contexts(pod.containers[..]) == old(Contexts(pod.containers[..]))
    ensures old(Separate(pod.containers[..])) ==> Separate(pod.containers[..])
  {
    hide Qos.Classify, Views, Contexts, Separate;
    var cs := pod.containers;
    ghost var cells, was := cs[..], Views(cs[..]);
    cs[k] := cs[k].(name := KIND);
    cs[k] := cs[k].(image := image);
    assert cs[..] == cells[k := cs[k]];
    ViewsOfUpdate(cells, k, cs[k]);
    NamesDoNotCount(was, k, ViewOf(cs[k]), pod.initContainers);
    var bestEffort := IsBestEffort(pod);
    if bestEffort {
      cs[k] := cs[k].(resources := MINIMAL_RESOURCES);
    }
    assert cs[..] == cells[k := cs[k]];
    ViewsOfUpdate(cells, k, cs[k]);
    SameContexts(cells, k, cs[k]);
    ContextsOfUpdate(cells, k, cs[k]);
  }

  method IsBestEffort(pod: PodSpecCell) returns (bestEffort: bool)
    ensures bestEffort <==> Qos.Classify(old(Views(pod.containers[..])) + pod.initContainers) == Qos.BestEffort
  {
    hide Qos.Classify;
    var qos := Qos.GetPodQOS(pod.View());
    bestEffort := qos == Qos.BestEffort;
  }

  /** The flag is set through the container's pointer, in a new SecurityContext if there was none. */
  method SetPrivileged(cs: array<ContainerCell>, k: nat)
    requires k < cs.Length && Separate(cs[..])
    modifies cs, cs[k].context
    ensures var was := old(Views(cs[..]));
            Views(cs[..]) == was[k := was[k].(securityContext := Privileged(was[k].securityContext))]
    ensures forall o :: o in Contexts(cs[..]) ==> o in old(Contexts(cs[..])) || fresh(o)
  {
    hide Views, Contexts;
    ghost var cells, was := cs[..], Views(cs[..]);
    if cs[k].context == null {
      var context := new SecurityContextCell(SecurityContext(None, 0));
      cs[k] := cs[k].(context := context);
    }
    if cs[k].context.privileged.None? {
      cs[k].context.privileged := Some(true);
    }
    assert cs[..] == cells[k := cs[k]];
    ContextsOfUpdate(cells, k, cs[k]);
    assert forall i :: 0 <= i < cs.Length && i != k ==> ViewOf(cs[i]) == was[i];
  }

  /** The terminal and the mounts. */
  method FinishKind(cs: array<ContainerCell>, k: nat, mounts: seq<Mount>)
    requires k < cs.Length
    modifies cs
    ensures var was := old(Views(cs[..]));
            Views(cs[..]) == was[k := was[k].(tty := true, mounts := SetMounts(was[k].mounts, mounts))]
    ensures Contexts(cs[..]) == old(Contexts(cs[..]))
  {
    hide Views, Contexts, SetMounts;
    ghost var cells := cs[..];
    cs[k] := cs[k].(tty := true);
    SetAllMounts(cs, k, mounts);
    assert cs[..] == cells[k := cs[k]];
    ViewsOfUpdate(cells, k, cs[k]);
    SameContexts(cells, k, cs[k]);
  }

  /** Turn one element of the slice into the kind container; no other element changes. */
  method SetKindContainerBase(pod: PodSpecCell, image: string, mounts: seq<Mount>) returns (k: nat)
    requires Separate(pod.containers[..])
    modifies pod`containers, pod.containers, Contexts(pod.containers[..])
    ensures pod.View() == WithKind(old(pod.View()), image, mounts)
    ensures k == KindSlot(old(pod.View().containers)) && k < pod.containers.Length
    ensures pod.containers == old(pod.containers) || fresh(pod.containers)
    ensures forall o :: o in Contexts(pod.containers[..]) ==> o in old(Contexts(pod.containers[..])) || fresh(o)
  {
    hide LastKind, SetMounts, Qos.Classify, Privileged, Contexts, Views, ViewOf, Widened, KindSlot, Separate;
    ghost var contexts := Contexts(pod.containers[..]);
    k := FindKind(pod);
    var cs := pod.containers;
    NameKind(pod, k, image);
    ContextsOfUpdate(cs[..], k, cs[k]);
    assert Contexts(cs[..]) == contexts;
    SetPrivileged(cs, k);
    FinishKind(cs, k, mounts);
  }

  lemma NamesDoNotCount(cs: seq<Container>, k: nat, c: Container, inits: seq<Container>)
    requires k < |cs| && c.resources == cs[k].resources
    ensures Qos.Classify(cs[k := c] + inits) == Qos.BestEffort <==> Qos.Classify(cs + inits) == Qos.BestEffort
  {
    hide Qos.Positive, Qos.TotalRequests, Qos.TotalLimits;
    var ds := cs[k := c];
    assert Qos.AsksNothing(c) <==> Qos.AsksNothing(cs[k]);
    assert forall x :: x in ds ==> x in cs || x == c;
    forall x | x in cs ensures x in ds || x == cs[k] {
      var i :| 0 <= i < |cs| && cs[i] == x;
      assert i != k ==> ds[i] == x;
    }
    assert ds[k] in ds + inits && cs[k] in cs + inits;
  }

  // ---- The finished Pod

  /** The part every machine Pod has. */
  method BuildWorkerPod(l: Layout, spec: PodSpecCell, machine: string, order: seq<string>, image: string)
    returns (pod: PodSpecCell, k: nat)
    ensures fresh(pod) && fresh(pod.containers) && fresh(Contexts(pod.containers[..]))
    ensures pod.View() == WorkerSpec(l, spec.View(), machine, order, image)
    ensures spec.View() == old(spec.View())
    ensures k == KindSlot(spec.View().containers) && k < pod.containers.Length
  {
    hide FillMissing, UpdateStorage, WithKind, KindSlot, Views, ViewOf, Separate;
    ghost var was, mine := spec.View(), Contexts(spec.containers[..]);
    pod := spec.DeepCopy();
    ghost var cells := pod.containers[..];
    assert mine !! Contexts(cells);
    pod.restartPolicy := "Never";
    FillVolumes(pod, l.volumes);
    UpdateStorageInPlace(pod, order, machine);
    assert pod.containers[..] == cells;
    assert pod.View().containers == was.containers;
    assert pod.View() == BaseSpec(l, was).(volumes := UpdateStorage(BaseSpec(l, was).volumes, order, machine));
    k := SetKindContainerBase(pod, image, l.mounts);
    assert spec.View() == was;
  }

  /** Building a machine Pod writes to nothing that existed before: the machine's own PodSpec comes
      out as it went in, and the Pod shares no storage with it. */
  method BuildMachinePod(
    l: Layout, spec: PodSpecCell, machine: string, order: seq<string>, image: string, controlPlane: bool, port: int)
    returns (pod: PodSpecCell)
    ensures fresh(pod) && fresh(pod.containers) && fresh(Contexts(pod.containers[..]))
    ensures pod.View() == MachineSpec(l, spec.View(), machine, order, image, controlPlane, port)
    ensures spec.View() == old(spec.View())
  {
    hide FillMissing, WorkerSpec, ControlPlaneContainer, KindSlot, Views, ViewOf;
    ghost var was, mine := spec.View(), Contexts(spec.containers[..]);
    var k;
    pod, k := BuildWorkerPod(l, spec, machine, order, image);
    assert mine !! Contexts(pod.containers[..]) && spec.View() == was;
    assert pod.View().containers[k] == ViewOf(pod.containers[k]);
    if controlPlane {
      SetControlPlane(pod, k, l, port);
    }
    assert spec.View() == was;
  }

  method SetControlPlane(pod: PodSpecCell, k: nat, l: Layout, port: int)
    requires k < pod.containers.Length
    modifies pod`volumes, pod.containers
    ensures pod.View() == old(pod.View()).(
              volumes := FillMissing(old(pod.volumes), [l.etcdVolume]),
              containers := old(pod.View().containers)[
                k := ControlPlaneContainer(old(ViewOf(pod.containers[k])), port, l.etcdMount)])
    ensures Contexts(pod.containers[..]) == old(Contexts(pod.containers[..]))
  {
    hide FillMissing, SetMount, HasPort, Contexts, Views;
    ghost var was := pod.containers[..];
    FillVolumes(pod, [l.etcdVolume]);
    SetControlPlaneFields(pod.containers, k, l.etcdMount, port);
    ViewsOfUpdate(was, k, pod.containers[k]);
    SameContexts(was, k, pod.containers[k]);
  }

  method SetControlPlaneFields(cs: array<ContainerCell>, k: nat, mount: Mount, port: int)
    requires k < cs.Length
    modifies cs
    ensures var c := old(cs[k]);
            cs[..] == old(cs[..])[k := c.(
              mounts := SetMount(c.mounts, mount),
              probe := if c.probe.None? then Some(TcpProbe(port, 2, 2)) else c.probe,
              ports := if HasPort(c.ports, API_SERVER_PORT_NAME) then c.ports
                       else c.ports + [Port(API_SERVER_PORT_NAME, "TCP", port)])]
  {
    hide SetMount;
    SetVolumeMount(cs, k, mount);
    if cs[k].probe.None? {
      cs[k] := cs[k].(probe := Some(TcpProbe(port, 2, 2)));
    }
    var ports := cs[k].ports;
    var portMissing := true;
    for i := 0 to |ports|
      invariant portMissing <==> !HasPort(ports[..i], API_SERVER_PORT_NAME)
    {
      assert ports[..i + 1] == ports[..i] + [ports[i]];
      if ports[i].name == API_SERVER_PORT_NAME {
        assert ports[i] in ports[..i + 1];
        portMissing := false;
      }
    }
    assert ports[..|ports|] == ports;
    if portMissing {
      cs[k] := cs[k].(ports := ports + [Port(API_SERVER_PORT_NAME, "TCP", port)]);
    }
  }
}
