/** The Kluster custom resource of API group pulok.dev, version v1alpha1. */
module V1alpha1 {
  import opened GoTypes

  /** The user's desired state: replica count, container image and port (0 means "use the default"). */
  datatype KlusterSpec = KlusterSpec(replicas: Int32, image: string, port: Int32)

  /** A Kluster object; of its metadata only the name is used. */
  datatype Kluster = Kluster(name: string, spec: KlusterSpec)
}
