/** The object patcher: the edits that turn a Deployment's pod spec into one
    that runs the Datadog agent as a sidecar and traces every selected
    application container through the CWS instrumentation binary.

    The edits are specified by pure functions on `Pod` values (`WithSidecar`,
    `WithInitContainer`, `WithCwsVolume`, `WithSharedPid`, `RewriteApps`,
    composed in `Patched`); the class `PodSpec` performs them in place and
    each of its methods is proved against the matching function. */
module Patcher {
  import opened Wrappers
  import opened Manifest

  const DefaultSite: string := "datadoghq.com"
  const DefaultAgentImage: string := "public.ecr.aws/datadog/agent:latest"
  const DefaultCwsInstImage: string := "public.ecr.aws/datadog/cws-instrumentation:latest"

  const AgentName: string := "datadog-agent"
  const InitName: string := "cws-instrumentation-init"
  const VolumeName: string := "cws-instrumentation-volume"
  const MountPath: string := "/cws-instrumentation-volume"

  /** What an application container is made to run in front of its entry point. */
  const TracePrefix: seq<string> := ["/cws-instrumentation-volume/cws-instrumentation", "trace", "--"]

  /** What the init container runs: copy the binary into the shared volume. */
  const SetupCommand: seq<string> := ["/cws-instrumentation", "setup", "--cws-volume-mount", "/cws-instrumentation-volume"]

  /** The caller's settings of one patch run. */
  datatype Options = Options(
    apiKey: string,
    site: string,
    service: string,
    entryPoint: seq<string>,
    agentImage: string,
    cwsInstImage: string,
    containerNames: seq<string>)

  /** The two lookups the patcher delegates: the default entry point of an
      image (pulled from a registry), and the edit that turns on CWS in an
      agent's environment list. Both are taken as given functions. */
  datatype Collaborators = Collaborators(
    retrieveEntrypoint: string -> seq<string>,
    enableCws: seq<EnvVar> -> seq<EnvVar>)

  function SiteOrDefault(site: string): string {
    if site == "" then DefaultSite else site
  }

  function AgentImageOrDefault(image: string): string {
    if image == "" then DefaultAgentImage else image
  }

  function CwsInstImageOrDefault(image: string): string {
    if image == "" then DefaultCwsInstImage else image
  }

  /** The agent sidecar built when the pod has none. */
  function SidecarDefinition(image: string, apiKey: string, site: string, service: string): Container {
    Container(AgentName, image, None,
      Some([ EnvValue("DD_API_KEY", apiKey),
             EnvValue("DD_SITE", site),
             EnvValue("DD_EKS_FARGATE", "true"),
             EnvValue("DD_RUNTIME_SECURITY_CONFIG_ENABLED", "true"),
             EnvValue("DD_RUNTIME_SECURITY_CONFIG_EBPFLESS_ENABLED", "true"),
             EnvValue("DD_SERVICE", service),
             EnvFieldRef("DD_KUBERNETES_KUBELET_NODENAME", "v1", "spec.nodeName") ]),
      None, None)
  }

  /** The init container that stages the instrumentation binary; it mounts
      the shared volume writable and runs as root. */
  function InitContainerDefinition(image: string): Container {
    Container(InitName, image, Some(SetupCommand), None,
      Some([VolumeMount(VolumeName, MountPath, false)]), Some(0))
  }

  const CwsVolume: Volume := Volume(VolumeName)

  /** The mount every patched application container gains. */
  const ReadOnlyMount: VolumeMount := VolumeMount(VolumeName, MountPath, true)

  /** The position of the first container called `name`, if any. */
  function FirstIndex(cs: seq<Container>, name: string): (r: Option<nat>)
    ensures r.Some? ==> r.value < |cs| && cs[r.value].name == name
    ensures r.Some? ==> forall j :: 0 <= j < r.value ==> cs[j].name != name
    ensures r.None? <==> forall j :: 0 <= j < |cs| ==> cs[j].name != name
  {
    if cs == [] then None
    else if cs[0].name == name then Some(0)
    else match FirstIndex(cs[1..], name)
      case None => None
      case Some(k) => Some(k + 1)
  }

  /** An agent container after CWS is enabled: a missing `env` counts as []. */
  function WithCwsEnabled(c: Container, enableCws: seq<EnvVar> -> seq<EnvVar>): Container {
    c.(env := Some(enableCws(c.env.GetOr([]))))
  }

  /** Step 1: enable CWS on the first agent container, or append a new one. */
  function WithSidecar(p: Pod, agentImage: string, apiKey: string, site: string, service: string,
                       enableCws: seq<EnvVar> -> seq<EnvVar>): Pod
  {
    match FirstIndex(p.containers, AgentName)
    case Some(k) =>
      p.(containers := p.containers[k := WithCwsEnabled(p.containers[k], enableCws)])
    case None =>
      p.(containers := p.containers + [SidecarDefinition(AgentImageOrDefault(agentImage), apiKey, site, service)])
  }

  /** Step 2: append the init container, whatever is already there. */
  function WithInitContainer(p: Pod, cwsInstImage: string): Pod {
    p.(initContainers := Some(p.initContainers.GetOr([]) + [InitContainerDefinition(CwsInstImageOrDefault(cwsInstImage))]))
  }

  /** Step 3: append the shared volume, whatever is already there. */
  function WithCwsVolume(p: Pod): Pod {
    p.(volumes := Some(p.volumes.GetOr([]) + [CwsVolume]))
  }

  /** Step 4: share the process namespace. */
  function WithSharedPid(p: Pod): Pod {
    p.(shareProcessNamespace := Some(true))
  }

  /** The command of a traced container: the trace prefix, then its own
      command if it has one, else the given entry point if that is non-empty,
      else the entry point of its image. */
  function TracedCommand(c: Container, entryPoint: seq<string>, retrieveEntrypoint: string -> seq<string>): (cmd: seq<string>)
    ensures |cmd| >= |TracePrefix| && cmd[..|TracePrefix|] == TracePrefix
    ensures c.command.Some? ==> cmd[|TracePrefix|..] == c.command.value
    ensures c.command.None? && entryPoint != [] ==> cmd[|TracePrefix|..] == entryPoint
    ensures c.command.None? && entryPoint == [] ==> cmd[|TracePrefix|..] == retrieveEntrypoint(c.image)
  {
    if c.command.Some? then TracePrefix + c.command.value
    else if |entryPoint| == 0 then TracePrefix + retrieveEntrypoint(c.image)
    else TracePrefix + entryPoint
  }

  function WithTracedEntryPoint(c: Container, entryPoint: seq<string>, retrieveEntrypoint: string -> seq<string>): Container {
    c.(command := Some(TracedCommand(c, entryPoint, retrieveEntrypoint)))
  }

  function WithCwsMount(c: Container): Container {
    c.(volumeMounts := Some(c.volumeMounts.GetOr([]) + [ReadOnlyMount]))
  }

  predicate IsReserved(name: string) {
    name == AgentName || name == InitName
  }

  /** Whether an application container is rewritten: not the agent or the
      init container, and named in `containerNames` unless that is empty. */
  predicate Selected(c: Container, containerNames: seq<string>) {
    !IsReserved(c.name) && (|containerNames| == 0 || c.name in containerNames)
  }

  function RewriteApp(c: Container, o: Options, ext: Collaborators): Container {
    if Selected(c, o.containerNames) then WithCwsMount(WithTracedEntryPoint(c, o.entryPoint, ext.retrieveEntrypoint))
    else c
  }

  /** Step 5: rewrite every selected container, in place. */
  function RewriteApps(cs: seq<Container>, o: Options, ext: Collaborators): seq<Container> {
    seq(|cs|, i requires 0 <= i < |cs| => RewriteApp(cs[i], o, ext))
  }

  /** The whole patch, the specification of `PodSpec.PatchDeployment`. */
  function Patched(p: Pod, o: Options, ext: Collaborators): Pod {
    var staged := WithSharedPid(WithCwsVolume(WithInitContainer(
      WithSidecar(p, o.agentImage, o.apiKey, SiteOrDefault(o.site), o.service, ext.enableCws),
      o.cwsInstImage)));
    staged.(containers := RewriteApps(staged.containers, o, ext))
  }

  /** The mutable pod spec object (`deployment.spec.template.spec`). */
  class PodSpec {
    var containers: seq<Container>
    var initContainers: Option<seq<Container>>
    var volumes: Option<seq<Volume>>
    var shareProcessNamespace: Option<bool>

    function Value(): Pod
      reads this
    {
      Pod(containers, initContainers, volumes, shareProcessNamespace)
    }

    /** A fresh object holding the given pod spec (what `doc.toJS()` yields). */
    constructor (p: Pod)
      ensures Value() == p
    {
      containers := p.containers;
      initContainers := p.initContainers;
      volumes := p.volumes;
      shareProcessNamespace := p.shareProcessNamespace;
    }

    /** Turn on CWS in the agent container at position `k`. */
    method EnableCws(k: nat, enableCws: seq<EnvVar> -> seq<EnvVar>)
      requires k < |containers|
      modifies this
      ensures containers == old(containers)[k := WithCwsEnabled(old(containers[k]), enableCws)]
      ensures initContainers == old(initContainers) && volumes == old(volumes)
      ensures shareProcessNamespace == old(shareProcessNamespace)
    {
      var c := containers[k];
      if c.env.None? {
        c := c.(env := Some([]));
      }
      c := c.(env := Some(enableCws(c.env.value)));
      containers := containers[k := c];
    }

    method AddDatadogSidecar(apiKey: string, site: string, service: string, agentImage: string,
                             enableCws: seq<EnvVar> -> seq<EnvVar>)
      modifies this
      ensures Value() == WithSidecar(old(Value()), agentImage, apiKey, site, service, enableCws)
    {
      var image := agentImage;
      if image == "" {
        image := DefaultAgentImage;
      }
      for i := 0 to |containers|
        invariant unchanged(this)
        invariant forall j :: 0 <= j < i ==> containers[j].name != AgentName
      {
        if containers[i].name == AgentName {
          // the first agent container: enable CWS on it and stop
          assert FirstIndex(containers, AgentName) == Some(i);
          EnableCws(i, enableCws);
          return;
        }
      }
      containers := containers + [SidecarDefinition(image, apiKey, site, service)];
    }

    method AddCwsInstrumentationInit(cwsInstImage: string)
      modifies this
      ensures Value() == WithInitContainer(old(Value()), cwsInstImage)
    {
      var image := cwsInstImage;
      if image == "" {
        image := DefaultCwsInstImage;
      }
      if initContainers.None? {
        initContainers := Some([]);
      }
      initContainers := Some(initContainers.value + [InitContainerDefinition(image)]);
    }

    method AddVolumes()
      modifies this
      ensures Value() == WithCwsVolume(old(Value()))
    {
      if volumes.None? {
        volumes := Some([]);
      }
      volumes := Some(volumes.value + [CwsVolume]);
    }

    method PatchPidMode()
      modifies this
      ensures Value() == WithSharedPid(old(Value()))
    {
      shareProcessNamespace := Some(true);
    }

    /** Prefix the command of the container at position `i` with the trace wrapper. */
    method PatchContainerEntryPoint(i: nat, entryPoint: seq<string>, retrieveEntrypoint: string -> seq<string>)
      requires i < |containers|
      modifies this
      ensures containers == old(containers)[i := WithTracedEntryPoint(old(containers[i]), entryPoint, retrieveEntrypoint)]
      ensures initContainers == old(initContainers) && volumes == old(volumes)
      ensures shareProcessNamespace == old(shareProcessNamespace)
    {
      var c := containers[i];
      if c.command.None? {
        var target := entryPoint;
        if |target| == 0 {
          target := retrieveEntrypoint(c.image);
        }
        c := c.(command := Some(TracePrefix + target));
      } else {
        c := c.(command := Some(TracePrefix + c.command.value));
      }
      containers := containers[i := c];
    }

    /** Give the container at position `i` the read-only shared-volume mount. */
    method PatchContainerMounts(i: nat)
      requires i < |containers|
      modifies this
      ensures containers == old(containers)[i := WithCwsMount(old(containers[i]))]
      ensures initContainers == old(initContainers) && volumes == old(volumes)
      ensures shareProcessNamespace == old(shareProcessNamespace)
    {
      var c := containers[i];
      if c.volumeMounts.None? {
        c := c.(volumeMounts := Some([]));
      }
      c := c.(volumeMounts := Some(c.volumeMounts.value + [ReadOnlyMount]));
      containers := containers[i := c];
    }

    /** Step 5 in place: the loop of `PatchDeployment` over the containers. */
    method PatchApplicationContainers(o: Options, ext: Collaborators)
      modifies this
      ensures containers == RewriteApps(old(containers), o, ext)
      ensures initContainers == old(initContainers) && volumes == old(volumes)
      ensures shareProcessNamespace == old(shareProcessNamespace)
    {
      for i := 0 to |containers|
        invariant |containers| == |old(containers)|
        invariant initContainers == old(initContainers) && volumes == old(volumes)
        invariant shareProcessNamespace == old(shareProcessNamespace)
        invariant forall j :: 0 <= j < i ==> containers[j] == RewriteApp(old(containers[j]), o, ext)
        invariant forall j :: i <= j < |containers| ==> containers[j] == old(containers[j])
      {
        var name := containers[i].name;
        if name == AgentName || name == InitName {
          continue;
        }
        if |o.containerNames| > 0 && name !in o.containerNames {
          continue;
        }
        PatchContainerEntryPoint(i, o.entryPoint, ext.retrieveEntrypoint);
        PatchContainerMounts(i);
      }
    }

    method PatchDeployment(o: Options, ext: Collaborators)
      modifies this
      ensures Value() == Patched(old(Value()), o, ext)
    {
      var site := o.site;
      if site == "" {
        site := DefaultSite;
      }
      AddDatadogSidecar(o.apiKey, site, o.service, o.agentImage, ext.enableCws);
      AddCwsInstrumentationInit(o.cwsInstImage);
      AddVolumes();
      PatchPidMode();
      PatchApplicationContainers(o, ext);
    }
  }
}
