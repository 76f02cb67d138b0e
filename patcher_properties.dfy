/** What one patch run does to a pod spec, and what a second run does on
    top of it. Every lemma is about `Patched`, which `PodSpec.PatchDeployment`
    is proved to compute. */
module PatcherProperties {
  import opened Wrappers
  import opened Manifest
  import opened Patcher

  /** Without an agent container, exactly one is appended at the end, holding
      the seven agent settings in order and no command, mounts or security
      context (so it is not traced itself); the containers before it are the
      original ones, each rewritten or left as it was. */
  lemma PatchedAddsSidecar(p: Pod, o: Options, ext: Collaborators)
    requires forall j :: 0 <= j < |p.containers| ==> p.containers[j].name != AgentName
    ensures var r := Patched(p, o, ext);
      && |r.containers| == |p.containers| + 1
      && r.containers[..|p.containers|] == RewriteApps(p.containers, o, ext)
      && r.containers[|p.containers|] == Container(
           AgentName,
           if o.agentImage == "" then DefaultAgentImage else o.agentImage,
           None,
           Some([ EnvValue("DD_API_KEY", o.apiKey),
                  EnvValue("DD_SITE", if o.site == "" then DefaultSite else o.site),
                  EnvValue("DD_EKS_FARGATE", "true"),
                  EnvValue("DD_RUNTIME_SECURITY_CONFIG_ENABLED", "true"),
                  EnvValue("DD_RUNTIME_SECURITY_CONFIG_EBPFLESS_ENABLED", "true"),
                  EnvValue("DD_SERVICE", o.service),
                  EnvFieldRef("DD_KUBERNETES_KUBELET_NODENAME", "v1", "spec.nodeName") ]),
           None,
           None)
  {
  }

  /** With an agent container at `k` (the first one), the list keeps its
      length and order: that container only has its `env` changed (absent
      counts as []), and every other one is rewritten or left as it was. */
  lemma PatchedUpdatesSidecar(p: Pod, o: Options, ext: Collaborators, k: nat)
    requires k < |p.containers| && p.containers[k].name == AgentName
    requires forall j :: 0 <= j < k ==> p.containers[j].name != AgentName
    ensures var r := Patched(p, o, ext);
      && |r.containers| == |p.containers|
      && r.containers[k] == p.containers[k].(env := Some(ext.enableCws(p.containers[k].env.GetOr([]))))
      && forall j :: 0 <= j < |p.containers| && j != k ==> r.containers[j] == RewriteApp(p.containers[j], o, ext)
  {
  }

  /** Nothing else changes: a container that is not selected (reserved, or
      left out by a non-empty `containerNames`) is kept exactly, except the
      first agent container, whose `env` is updated. */
  lemma PatchedKeepsUnselected(p: Pod, o: Options, ext: Collaborators, i: nat)
    requires i < |p.containers| && !Selected(p.containers[i], o.containerNames)
    requires FirstIndex(p.containers, AgentName) != Some(i)
    ensures Patched(p, o, ext).containers[i] == p.containers[i]
  {
  }

  /** A selected container keeps its name, image, environment and security
      context; its command becomes the trace prefix followed by its old
      command, or the given entry point, or its image's entry point; and it
      gains exactly one read-only mount of the shared volume, at the end. */
  lemma PatchedRewritesSelected(p: Pod, o: Options, ext: Collaborators, i: nat)
    requires i < |p.containers| && Selected(p.containers[i], o.containerNames)
    ensures var c, c' := p.containers[i], Patched(p, o, ext).containers[i];
      && c'.name == c.name && c'.image == c.image && c'.env == c.env && c'.runAsUser == c.runAsUser
      && c'.command == Some(TracePrefix + (if c.command.Some? then c.command.value
                                           else if o.entryPoint != [] then o.entryPoint
                                           else ext.retrieveEntrypoint(c.image)))
      && c'.volumeMounts == Some(c.volumeMounts.GetOr([]) + [VolumeMount(VolumeName, MountPath, true)])
  {
  }

  /** The pod-level edits: one init container and one volume are appended to
      the lists (absent counts as []), and the process namespace is shared.
      The init container runs the setup command as root and mounts the shared
      volume writable at the same path the application containers use. */
  lemma PatchedPodLevel(p: Pod, o: Options, ext: Collaborators)
    ensures var r := Patched(p, o, ext);
      && r.initContainers.Some? && r.volumes.Some?
      && r.initContainers.value[..|p.initContainers.GetOr([])|] == p.initContainers.GetOr([])
      && r.initContainers.value[|p.initContainers.GetOr([])|..] == [
           Container(InitName, if o.cwsInstImage == "" then DefaultCwsInstImage else o.cwsInstImage,
                     Some(SetupCommand), None, Some([VolumeMount(VolumeName, MountPath, false)]), Some(0)) ]
      && r.volumes.value == p.volumes.GetOr([]) + [Volume(VolumeName)]
      && r.shareProcessNamespace == Some(true)
  {
  }

  /** The patch never renames, drops or reorders a container: the names are
      the old ones, plus the agent's at the end when there was none. */
  lemma PatchedNames(p: Pod, o: Options, ext: Collaborators)
    ensures FirstIndex(p.containers, AgentName).None? ==>
      Names(Patched(p, o, ext).containers) == Names(p.containers) + [AgentName]
    ensures FirstIndex(p.containers, AgentName).Some? ==>
      Names(Patched(p, o, ext).containers) == Names(p.containers)
  {
  }

  /** After a patch there is at least one agent container, and exactly one
      when there was at most one before. */
  lemma PatchedAgentCount(p: Pod, o: Options, ext: Collaborators)
    ensures CountNamed(Patched(p, o, ext).containers, AgentName) ==
      if CountNamed(p.containers, AgentName) == 0 then 1 else CountNamed(p.containers, AgentName)
  {
    PatchedNames(p, o, ext);
    var f := FirstIndex(p.containers, AgentName);
    if f.None? {
      assert AgentName !in multiset(Names(p.containers));
    } else {
      assert Names(p.containers)[f.value] == AgentName;
      assert AgentName in multiset(Names(p.containers));
    }
  }

  /** Each patch appends one more init container named
      `cws-instrumentation-init`, whatever is already there. */
  lemma PatchedInitCount(p: Pod, o: Options, ext: Collaborators)
    ensures CountNamed(Patched(p, o, ext).initContainers.value, InitName) ==
      CountNamed(p.initContainers.GetOr([]), InitName) + 1
  {
    var before := p.initContainers.GetOr([]);
    var after := Patched(p, o, ext).initContainers.value;
    assert Names(after) == Names(before) + [InitName];
  }

  /** Patching twice: the agent container stays unique, but the init
      container and the shared volume are each added twice. */
  lemma PatchTwiceDuplicates(p: Pod, o: Options, ext: Collaborators)
    requires CountNamed(p.containers, AgentName) <= 1
    ensures var r := Patched(Patched(p, o, ext), o, ext);
      && CountNamed(r.containers, AgentName) == 1
      && CountNamed(r.initContainers.value, InitName) == CountNamed(p.initContainers.GetOr([]), InitName) + 2
      && |r.volumes.value| == |p.volumes.GetOr([])| + 2
  {
    var once := Patched(p, o, ext);
    PatchedAgentCount(p, o, ext);
    PatchedAgentCount(once, o, ext);
    PatchedInitCount(p, o, ext);
    PatchedInitCount(once, o, ext);
  }

  /** Patching twice puts the trace prefix twice in front of a selected
      container's command. */
  lemma PatchTwiceStacksPrefix(p: Pod, o: Options, ext: Collaborators, i: nat)
    requires i < |p.containers| && Selected(p.containers[i], o.containerNames)
    ensures var c := p.containers[i];
      Patched(Patched(p, o, ext), o, ext).containers[i].command == Some(TracePrefix + TracePrefix + (
        if c.command.Some? then c.command.value
        else if o.entryPoint != [] then o.entryPoint
        else ext.retrieveEntrypoint(c.image)))
  {
    var once := Patched(p, o, ext);
    PatchedRewritesSelected(p, o, ext, i);
    PatchedNames(p, o, ext);
    var c := p.containers[i];
    var target := if c.command.Some? then c.command.value
                  else if o.entryPoint != [] then o.entryPoint
                  else ext.retrieveEntrypoint(c.image);
    assert Names(once.containers)[i] == Names(p.containers)[i];
    assert once.containers[i].command == Some(TracePrefix + target);
    PatchedRewritesSelected(once, o, ext, i);
    assert TracePrefix + (TracePrefix + target) == TracePrefix + TracePrefix + target;
  }
}
