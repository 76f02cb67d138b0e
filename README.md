# CWS Fargate patcher for EKS Deployments, in Dafny

This project models the core of the EKS patcher of `cws-fargate-td-patcher`:
the engine that edits a Kubernetes Deployment so that its pod runs the
Datadog agent as a sidecar and traces every selected application container
through the CWS instrumentation binary, and the adapter that applies it to
raw manifest text (one JSON document, or a stream of YAML documents).

- `wrappers.dfy` — `Option` and `Result`.
- `manifest.dfy` — the pod spec as values: `Container`, `EnvVar`,
  `VolumeMount`, `Volume`, `Pod`. Keys a manifest may omit (`command`, `env`,
  `volumeMounts`, `initContainers`, `volumes`, `shareProcessNamespace`) are
  `Option`s, so "absent" and "empty" stay apart.
- `patcher.dfy` — the constants (default site and images, reserved names,
  the trace prefix), one pure function per edit (`WithSidecar`,
  `WithInitContainer`, `WithCwsVolume`, `WithSharedPid`, `RewriteApps`),
  their composition `Patched`, and the class `PodSpec`, whose fields are the
  pod spec's lists and flag and whose methods perform the edits in place.
  Every method is proved to leave the object holding the matching function
  of its old value.
- `patcher_properties.dfy` — what one patch does (sidecar added or updated,
  containers selected and rewritten, pod-level appends) and what a second
  patch adds on top of the first.
- `document_adapter.dfy` — `PatchRawDeployment` with its JSON attempt and
  its YAML fallback loop, specified by `RenderDocs`, with lemmas on faults
  and on in-order pass-through.

The image-entrypoint lookup (`RetrieveEntrypoint`) and the agent environment
edit (`EnableCWS`) live in a file that is not part of this model; both are
parameters (`Collaborators`), and nothing is claimed about what they return.
The JSON and YAML libraries are parameters too (`Formats`): documents are
their parsed values and serialisation is a given function.

Only the sidecar is guarded by a name lookup. The init container, the
volume and the command prefix are added again on every run, so a second
patch duplicates them (`PatchTwiceDuplicates`, `PatchTwiceStacksPrefix`).
The first `datadog-agent` container has its `env` changed even when a
non-empty `containerNames` leaves it out (`PatchedKeepsUnselected` states
the exception).

## Model

| member | source | states |
|---|---|---|
| `Patcher.FirstIndex` | src/eks/patcher.js:77-82 | the search the sidecar step runs: the first position whose container has the name, and None exactly when no container has it |
| `Patcher.TracedCommand` | src/eks/patcher.js:139-164 | a traced command starts with the three-word trace prefix; the rest is the old command when there was one, else the given entry point when non-empty, else the image's entry point |
| `Patcher.PodSpec.EnableCws` | src/eks/patcher.js:16-26 | only the container at the given position changes, and only its `env`, which becomes the collaborator's edit of the old list (absent taken as empty) |
| `Patcher.PodSpec.AddDatadogSidecar` | src/eks/patcher.js:28-85 | the object ends holding `WithSidecar` of its old value: CWS enabled on the first `datadog-agent` container, or a new agent container appended when there is none |
| `Patcher.PodSpec.AddCwsInstrumentationInit` | src/eks/patcher.js:87-121 | the object ends holding `WithInitContainer` of its old value: the init container appended to the list (absent taken as empty), no lookup |
| `Patcher.PodSpec.AddVolumes` | src/eks/patcher.js:123-136 | the object ends holding `WithCwsVolume` of its old value: the shared volume appended to the list (absent taken as empty), no lookup |
| `Patcher.PodSpec.PatchPidMode` | src/eks/patcher.js:184-190 | the object ends holding its old value with `shareProcessNamespace` set to true |
| `Patcher.PodSpec.PatchContainerEntryPoint` | src/eks/patcher.js:139-165 | only the container at the given position changes, and only its command, which becomes `TracedCommand` of it |
| `Patcher.PodSpec.PatchContainerMounts` | src/eks/patcher.js:167-182 | only the container at the given position changes, and only its mounts, which gain the read-only shared mount at the end |
| `Patcher.PodSpec.PatchApplicationContainers` | src/eks/patcher.js:214-225 | every container is replaced by `RewriteApp` of itself (rewritten when selected, else kept), in place and in order; the pod-level fields are unchanged |
| `Patcher.PodSpec.PatchDeployment` | src/eks/patcher.js:192-228 | the object ends holding `Patched` of its old value: the five edits in the source's order, with the empty site replaced by the default |
| `PatcherProperties.PatchedAddsSidecar` | src/eks/patcher.js:33-84 | with no agent container, exactly one is appended last and it is exactly the template: agent name, the given or default image, no command, the seven agent settings in order (default site when the site is empty), no mounts, no security context; the original containers precede it |
| `PatcherProperties.PatchedUpdatesSidecar` | src/eks/patcher.js:16-84 | with an agent container, the list keeps its length and order; the first agent container only has its `env` replaced by the collaborator's edit of the old list or of []; every other container is rewritten or kept |
| `PatcherProperties.PatchedKeepsUnselected` | src/eks/patcher.js:214-222 | a reserved container, or one left out by a non-empty `containerNames`, comes out exactly as it went in, unless it is the first agent container |
| `PatcherProperties.PatchedRewritesSelected` | src/eks/patcher.js:139-182 | a selected container keeps name, image, env and security context; its command is the trace prefix then the old command, the given entry point or the image's; its mounts gain exactly the read-only shared mount at the end |
| `PatcherProperties.PatchedPodLevel` | src/eks/patcher.js:87-190 | the init and volume lists keep their old entries and gain exactly one entry each (absent taken as empty); the init container runs the setup command as root with a writable mount at the shared path; the namespace is shared |
| `PatcherProperties.PatchedNames` | src/eks/patcher.js:192-228 | the patch never renames, drops or reorders a container: the names are the old ones, plus `datadog-agent` at the end when none was there |
| `PatcherProperties.PatchedAgentCount` | src/eks/patcher.js:77-84 | after a patch the number of agent containers is the old number, or one when it was zero |
| `PatcherProperties.PatchedInitCount` | src/eks/patcher.js:117-120 | each patch adds exactly one more init container named `cws-instrumentation-init` |
| `PatcherProperties.PatchTwiceDuplicates` | src/eks/patcher.js:192-228 | patching twice leaves one agent container (when there was at most one) but two more init containers and two more volumes |
| `PatcherProperties.PatchTwiceStacksPrefix` | src/eks/patcher.js:139-164 | patching twice puts the trace prefix twice in front of a selected container's command |
| `DocumentAdapter.PatchRawDeployment` | src/eks/patcher.js:230-249 | when the text is JSON with a reachable pod spec the result is the patched workload as JSON, whatever its kind; any other outcome falls back to the YAML stream, whose result is `RenderDocs` |
| `DocumentAdapter.RenderPrefixErr` | src/eks/patcher.js:236-247 | once a document throws, the whole YAML path fails with that fault: no partial output |
| `DocumentAdapter.RenderOkIff` | src/eks/patcher.js:238-246 | the YAML path fails exactly when some document is null or is a Deployment without a pod spec |
| `DocumentAdapter.RenderJoinsPieces` | src/eks/patcher.js:236-247 | when no document fails, the output is one piece per document joined in the original order: the patched YAML of a Deployment, the library's rendering of the parsed document for any other |
| `DocumentAdapter.NonDeploymentsPassThrough` | src/eks/patcher.js:243-245 | a stream with no Deployments and no empty (null) documents comes out as its documents' own renderings (`doc.toString()`), in order; an empty document makes the path fail instead (see `RenderOkIff`) |

## Left out

- Parsing and serialising (`JSON.parse`, `JSON.stringify`, `YAML.parseAllDocuments`, `doc.toJS`, `doc.toString`, `YAML.stringify`) are library calls; they are given functions, and YAML syntax errors are not modelled.
- The sidecar, init container and volume are built as values rather than as JSON text that is then parsed, so the parse failure caused by a quote character in `apiKey`, `site`, `service` or an image name is not modelled.
- `RetrieveEntrypoint` pulls and inspects an image over the network, and `EnableCWS` edits the agent's environment list; both are given functions, and their faults (which in the JSON path would also trigger the YAML fallback) are not modelled.
- Keys of a container, volume or pod spec that the patcher never reads or writes (ports, resources, `emptyDir`, `serviceAccountName`, …) are not represented; the source carries them through unchanged. The rest of a workload is an opaque `others` field.
- Containers are values inside the `PodSpec` object, so sharing of one container object between two places of a manifest is not modelled.
- The `verbose` flag only writes log lines and has no effect on data.
- A missing `spec.template.spec` or `containers` list in the object handed to `PatchDeployment` is excluded by the types; in the raw adapter it is modelled (JSON path: fallback, YAML path: fault).
- Environment entries other than a literal value or a `fieldRef` (`secretKeyRef`, `configMapKeyRef`, `resourceFieldRef`, …) are not represented, so an existing agent container whose `env` uses them, as is common for `DD_API_KEY`, is outside the model.
- A JavaScript value that is present but not of the expected type (a `null` or non-array `command`, `env`, `volumeMounts`, `initContainers` or `volumes`, a non-string `site`) is not modelled; every field is either absent or well-typed.
