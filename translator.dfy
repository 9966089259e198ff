/**
 * The spec translator: the desired Deployment and Service, derived from a Kluster spec
 * by `recreateDeployment` and `recreateService`, and the helpers `int32Ptr` and `intstrPtr`.
 */
module Translator {
  import opened Wrappers
  import opened GoTypes
  import opened Fmt
  import opened V1alpha1
  import opened Api

  /** The port used when a Kluster leaves its port unset (zero). */
  const DefaultPort: Int32 := 9090

  const DeploymentName: string := "bookapi-deployment"
  const ServiceName: string := "bookapi-service"
  const Namespace: string := "default"
  const ContainerName: string := "bookapi-container"
  const AppKey: string := "app"
  const AppValue: string := "bookapi"
  const AppLabels: Labels := map[AppKey := AppValue]

  /** `int32Ptr`: a non-nil pointer to a copy of `i`. */
  function Int32Ptr(i: Int32): (r: Option<Int32>)
    ensures r.Some? && r.value == i
  {
    Some(i)
  }

  /** `intstrPtr`: an integer-tagged IntOrString whose value is `int32(i)`. */
  function IntStr(i: int): (r: IntOrString)
    ensures r.kind == IntKind && r.strVal == ""
    ensures MinInt32 <= i <= MaxInt32 ==> r.intVal == i
    ensures (r.intVal - i) % 0x1_0000_0000 == 0
  {
    IntOrString(IntKind, Wrap32(i), "")
  }

  /** The port both derivations use: the spec's port, or the default when it is zero. */
  function ResolvePort(p: Int32): (r: Int32)
    ensures r != 0
    ensures p != 0 ==> r == p
    ensures p == 0 ==> r == DefaultPort
  {
    if p == 0 then DefaultPort else p
  }

  /** The container's command: start the BookApi binary listening on `port`, written in decimal. */
  function ContainerCommand(port: Int32): (c: seq<string>)
    ensures |c| == 4 && c[..3] == ["./BookApi", "start", "-p"]
    ensures c[3] == FormatInt(port) && ParseInt(c[3]) == Some(port as int)
  {
    FormatIntRoundTrip(port);
    ["./BookApi", "start", "-p", FormatInt(port)]
  }

  /**
   * The desired Deployment: replicas and image copied unchanged (zero replicas and an empty image are not
   * rejected), one container listening on the resolved port, and a selector that selects its own pods.
   */
  function DeriveDeployment(spec: KlusterSpec): (d: Deployment)
    ensures d.meta.name == DeploymentName && d.meta.namespace == Namespace
    ensures d.spec.replicas == Some(spec.replicas)
    ensures |d.spec.template.containers| == 1
    ensures d.spec.template.containers[0].image == spec.image
    ensures d.spec.template.containers[0].ports == [ContainerPort(ResolvePort(spec.port))]
    ensures Selects(d.spec.selector, d.spec.template.meta.labels)
  {
    var port := ResolvePort(spec.port);
    Deployment(
      ObjectMeta(DeploymentName, Namespace, AppLabels),
      DeploymentSpec(
        Int32Ptr(spec.replicas),
        AppLabels,
        PodTemplateSpec(
          ObjectMeta("", "", AppLabels),
          [Container(ContainerName, spec.image, ContainerCommand(port), [ContainerPort(port)])])))
  }

  /** The desired Service: a cluster-internal endpoint whose one port and target port are the resolved port. */
  function DeriveService(spec: KlusterSpec): (v: Service)
    ensures v.meta.name == ServiceName && v.meta.namespace == Namespace
    ensures v.spec.serviceType == ClusterIP
    ensures v.spec.ports == [ServicePort(ResolvePort(spec.port), IntOrString(IntKind, ResolvePort(spec.port), ""))]
  {
    var port := ResolvePort(spec.port);
    Service(
      ObjectMeta(ServiceName, Namespace, AppLabels),
      ServiceSpec(ClusterIP, AppLabels, [ServicePort(port, IntStr(port as int))]))
  }

  /** The one container of a derived Deployment. */
  function TheContainer(d: Deployment): (c: Container)
    requires |d.spec.template.containers| == 1
    ensures c in d.spec.template.containers
  {
    d.spec.template.containers[0]
  }

  /** The container port, the argument of `-p`, the Service port and its target port all equal the resolved port. */
  lemma PortAgreement(spec: KlusterSpec)
    ensures var d, s, p := DeriveDeployment(spec), DeriveService(spec), ResolvePort(spec.port);
      && |d.spec.template.containers| == 1
      && TheContainer(d).ports == [ContainerPort(p)]
      && TheContainer(d).command == ["./BookApi", "start", "-p", FormatInt(p)]
      && ParseInt(TheContainer(d).command[3]) == Some(TheContainer(d).ports[0].containerPort as int)
      && |s.spec.ports| == 1
      && s.spec.ports[0].port == p
      && s.spec.ports[0].targetPort.kind == IntKind
      && s.spec.ports[0].targetPort.intVal == p
  {
  }

  /**
   * Names, namespace, labels, selectors, container name and Service type are the same whatever the spec,
   * the metadata carries app=bookapi, and the Deployment's and the Service's selectors both select the pods.
   */
  lemma FixedIdentity(spec: KlusterSpec)
    ensures var d, s := DeriveDeployment(spec), DeriveService(spec);
      && d.meta == ObjectMeta(DeploymentName, Namespace, AppLabels)
      && s.meta == ObjectMeta(ServiceName, Namespace, AppLabels)
      && MapIndex(d.meta.labels, AppKey) == AppValue
      && MapIndex(s.meta.labels, AppKey) == AppValue
      && d.spec.selector == AppLabels && d.spec.template.meta.labels == AppLabels
      && s.spec.selector == AppLabels && s.spec.serviceType == ClusterIP
      && |d.spec.template.containers| == 1 && TheContainer(d).name == ContainerName
      && Selects(d.spec.selector, d.spec.template.meta.labels)
      && Selects(s.spec.selector, d.spec.template.meta.labels)
  {
  }

  /** Two specs yield the same Deployment exactly when they agree on replicas, image and resolved port. */
  lemma DeploymentDeterminedBy(a: KlusterSpec, b: KlusterSpec)
    ensures DeriveDeployment(a) == DeriveDeployment(b)
      <==> a.replicas == b.replicas && a.image == b.image && ResolvePort(a.port) == ResolvePort(b.port)
  {
  }

  /** Two specs yield the same Service exactly when they resolve to the same port. */
  lemma ServiceDeterminedBy(a: KlusterSpec, b: KlusterSpec)
    ensures DeriveService(a) == DeriveService(b) <==> ResolvePort(a.port) == ResolvePort(b.port)
  {
  }

  /** An unset port and an explicit 9090 give identical objects. */
  lemma UnsetPortIsDefault(spec: KlusterSpec)
    requires spec.port == 0
    ensures DeriveDeployment(spec) == DeriveDeployment(spec.(port := DefaultPort))
    ensures DeriveService(spec) == DeriveService(spec.(port := DefaultPort))
  {
  }

  /** Kluster{replicas 3, image repo/bookapi:v1, port unset} yields the expected workload and endpoint. */
  lemma DefaultPortScenario()
    ensures var spec := KlusterSpec(3, "repo/bookapi:v1", 0);
      var d, s := DeriveDeployment(spec), DeriveService(spec);
      && d.spec.replicas == Some(3)
      && |d.spec.template.containers| == 1
      && TheContainer(d).image == "repo/bookapi:v1"
      && TheContainer(d).ports == [ContainerPort(9090)]
      && TheContainer(d).command == ["./BookApi", "start", "-p", "9090"]
      && s.spec.ports == [ServicePort(9090, IntOrString(IntKind, 9090, ""))]
  {
    FormatDefaultPort();
  }

  /** A Deployment is in the shape the controller creates: derived from some spec. */
  ghost predicate IsDerivedDeployment(d: Deployment) {
    exists spec :: DeriveDeployment(spec) == d
  }

  ghost predicate IsDerivedService(s: Service) {
    exists spec :: DeriveService(spec) == s
  }
}
