/** The two controllers together: the Service one creates reaches the Pods the other creates. */
module Routing {
  import opened Common
  import opened Pods
  import Machine
  import Cluster
  import PodBuilder
  import Qos

  /** A Pod is selected when it carries every label of the selector. */
  ghost predicate Selects(selector: map<string, string>, labels: map<string, string>) {
    forall key :: key in selector ==> key in labels && labels[key] == selector[key]
  }

  /** Whatever the endpoint, the Service selects a machine Pod exactly when it is a control-plane Pod
      of its own cluster, and every port it forwards to is one the Pod's kind container names. */
  lemma ServiceReachesControlPlane(
    service: Cluster.Config, cluster: string, k: Cluster.Record,
    machine: Machine.Config, cl: Machine.Cluster, om: Machine.OwnerMachine, order: seq<string>)
    ensures var request := Cluster.Request(service, cluster, k);
            var pod := Machine.NewPod(machine, cl, om, order);
            && (Selects(request.selector, pod.labels) <==> om.controlPlane && cl.name == cluster)
            && (om.controlPlane ==>
                  var slot := PodBuilder.KindSlot(machine.podSpec.containers);
                  && slot < |pod.spec.containers| && pod.spec.containers[slot].name == PodBuilder.KIND
                  && forall p :: p in request.ports ==> PodBuilder.HasPort(pod.spec.containers[slot].ports, p.target))
  {
    hide PodBuilder.StandardLayout, PodBuilder.BaseSpec, PodBuilder.UpdateStorage, PodBuilder.LastKind,
      PodBuilder.FillMissing,
      PodBuilder.PodImage, PodBuilder.ApiServerPort;
    PodBuilder.LabelsDiffer();
    var request := Cluster.Request(service, cluster, k);
    var pod := Machine.NewPod(machine, cl, om, order);
    assert PodBuilder.CLUSTER_LABEL in request.selector && PodBuilder.CONTROL_PLANE_LABEL in request.selector;
    if om.controlPlane {
      PodServesApi(PodBuilder.StandardLayout(machine.name), machine.podSpec, machine.name, order,
                   PodBuilder.PodImage(om.version), PodBuilder.ApiServerPort(cl.apiServerPort));
    }
  }

  /** The kind container of a control-plane Pod names the API-server port; a port of that name given by
      the user is left alone, and otherwise it is the cluster's. */
  lemma PodServesApi(
    l: PodBuilder.Layout, spec: PodSpec, machine: string, order: seq<string>, image: string, port: int)
    ensures PodBuilder.KindSlot(spec.containers) <
            |PodBuilder.ControlPlaneSpec(l, spec, machine, order, image, port).containers|
    ensures var kind := PodBuilder.ControlPlaneSpec(l, spec, machine, order, image, port)
                      .containers[PodBuilder.KindSlot(spec.containers)];
            var user := PodBuilder.SlotContainer(spec.containers).ports;
            && kind.name == PodBuilder.KIND
            && PodBuilder.HasPort(kind.ports, PodBuilder.API_SERVER_PORT_NAME)
            && user <= kind.ports && |kind.ports| <= |user| + 1
            && (forall p :: p in kind.ports && p !in user ==> p == Port(PodBuilder.API_SERVER_PORT_NAME, "TCP", port))
            && (PodBuilder.HasPort(user, PodBuilder.API_SERVER_PORT_NAME) ==> kind.ports == user)
  {
    hide PodBuilder.LastKind, PodBuilder.UpdateStorage, PodBuilder.FillMissing, PodBuilder.SetMounts,
      PodBuilder.SetMount, Qos.Classify;
    var kind := PodBuilder.ControlPlaneSpec(l, spec, machine, order, image, port)
              .containers[PodBuilder.KindSlot(spec.containers)];
    var user := PodBuilder.SlotContainer(spec.containers).ports;
    if !PodBuilder.HasPort(user, PodBuilder.API_SERVER_PORT_NAME) {
      var added := Port(PodBuilder.API_SERVER_PORT_NAME, "TCP", port);
      assert kind.ports == user + [added];
      assert added in kind.ports;
    }
  }
}
