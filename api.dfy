/**
 * The fields of the Kubernetes Deployment and Service objects that the controller sets
 * (packages apps/v1, core/v1, meta/v1 and util/intstr); every other field is left out.
 */
module Api {
  import opened Wrappers
  import opened GoTypes

  type Labels = map<string, string>

  datatype ObjectMeta = ObjectMeta(name: string, namespace: string, labels: Labels)

  datatype ContainerPort = ContainerPort(containerPort: Int32)

  datatype Container = Container(name: string, image: string, command: seq<string>, ports: seq<ContainerPort>)

  datatype PodTemplateSpec = PodTemplateSpec(meta: ObjectMeta, containers: seq<Container>)

  /** `replicas` is a pointer in the API: None is nil, which the API server reads as its own default. */
  datatype DeploymentSpec = DeploymentSpec(replicas: Option<Int32>, selector: Labels, template: PodTemplateSpec)

  datatype Deployment = Deployment(meta: ObjectMeta, spec: DeploymentSpec)

  datatype ServiceType = ClusterIP | NodePort | LoadBalancer | ExternalName

  datatype IntOrStringKind = IntKind | StringKind

  /** `intstr.IntOrString`: a tag and both payloads, of which the tag says which one is meant. */
  datatype IntOrString = IntOrString(kind: IntOrStringKind, intVal: Int32, strVal: string)

  datatype ServicePort = ServicePort(port: Int32, targetPort: IntOrString)

  datatype ServiceSpec = ServiceSpec(serviceType: ServiceType, selector: Labels, ports: seq<ServicePort>)

  datatype Service = Service(meta: ObjectMeta, spec: ServiceSpec)

  /** A label selector (match labels only) selects an object when every pair it names is among the object's labels. */
  predicate Selects(selector: Labels, labels: Labels) {
    forall k :: k in selector ==> k in labels && labels[k] == selector[k]
  }
}
