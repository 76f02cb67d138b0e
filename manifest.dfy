/** The parts of a Kubernetes pod spec that the patcher reads or writes, as
    values. A key that may be absent from the manifest is an `Option`, so that
    "absent" stays distinct from "present and empty". */
module Manifest {
  import opened Wrappers

  /** An entry of a container's `env` list: a literal value, or a value taken
      from a field of the pod (`valueFrom.fieldRef`). */
  datatype EnvVar =
    | EnvValue(name: string, value: string)
    | EnvFieldRef(name: string, apiVersion: string, fieldPath: string)

  /** An entry of a container's `volumeMounts` list. */
  datatype VolumeMount = VolumeMount(name: string, mountPath: string, readOnly: bool)

  /** An entry of the pod's `volumes` list. */
  datatype Volume = Volume(name: string)

  /** A container or init container; `runAsUser` is `securityContext.runAsUser`. */
  datatype Container = Container(
    name: string,
    image: string,
    command: Option<seq<string>>,
    env: Option<seq<EnvVar>>,
    volumeMounts: Option<seq<VolumeMount>>,
    runAsUser: Option<int>)

  /** A snapshot of `spec.template.spec` of a Deployment. */
  datatype Pod = Pod(
    containers: seq<Container>,
    initContainers: Option<seq<Container>>,
    volumes: Option<seq<Volume>>,
    shareProcessNamespace: Option<bool>)

  /** The names of a list of containers, in order. */
  function Names(cs: seq<Container>): seq<string> {
    seq(|cs|, i requires 0 <= i < |cs| => cs[i].name)
  }

  /** How many containers of `cs` are called `name`. */
  function CountNamed(cs: seq<Container>, name: string): nat {
    multiset(Names(cs))[name]
  }
}
