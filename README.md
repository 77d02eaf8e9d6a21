# spring-boot-operator, modelled in Dafny

A Dafny model of the decision logic of a Kubernetes operator that turns one
`SpringBootApplication` resource into child objects: a ConfigMap holding the rendered
Spring configuration, a ClusterIP Service, a Deployment and a HorizontalPodAutoscaler.
It covers:

- the resource-requirement resolver (preset table or explicit cpu/memory quantities);
- the Deployment builder, including its in-place update of the application's label map;
- the autoscaler spec builder with its per-framework defaults and block-wise behaviour merge;
- the config merge that injects `server.port = 8080` only when the user did not set one;
- the "read, diff, write only if changed" upserts of the ConfigMap, Service, Deployment and HPA;
- the Reconcile sequence;
- the defaulting admission webhook.

Layout, one module per file:

| file | module | models |
|---|---|---|
| wrappers.dfy | Wrappers | Option and Result |
| api.dfy | Api | spec types, errors, int32 casts, quantity parsing, the in-memory `Application` and its custom `ScalingBehaviour` object |
| objects.dfy | Objects | the Kubernetes child objects |
| resources.dfy | Resources | `createResources`, `createSpringResourceRequirements` |
| deployment.dfy | DeploymentBuilder | `createDeploymentObject` |
| hpa.dfy | Autoscaling | `createAutoscalerSpec`, `getDefaultBehaviour`, `createBehaviour`, `mergeBehaviours` |
| config.dfy | ConfigMerge | `mergeConfigWithDefaultPort` |
| controller.dfy | Controller | the store, `ensureConfigMap`, `ensureService`, the `ensureDeployment` and `ensureAutoscaler` closures, `Reconcile` |
| webhook.dfy | Webhook | `SpringBootApplicationResourceDefaulter.Default` |

The Kubernetes store is a `Store` value: one map per kind from (namespace, name) to object,
a log of the Create and Update calls issued, and the set of kinds whose Get fails with an
error other than NotFound. Each upsert is specified by a function from the old store to the
new one (`SyncConfigMap`, `SyncService`, `SyncDeployment`, `SyncAutoscaler`,
`ReconcileModel`). The class `Controller.Cluster` holds the same maps as fields and carries
each operation out step by step, proved equal to its function. For example, `EnsureService`
copies fields onto the existing object and raises a `needsUpdate` flag, and `Reconcile` works
on a fresh in-memory copy of the stored application, as the Go code's `Get` does.

Mutation of shared objects is modelled where the code relies on it:

- `CreateDeploymentObject` writes the `app` label into the application's own label map when
  that map is non-nil. The write happens before resources are resolved, so it also happens
  when the build then fails. The Deployment's own labels are that same map.
- `MergeBehaviours` fills the nil blocks of the caller's custom behaviour object and returns
  that same object, so after `CreateAutoscalerSpec` the application carries the merged
  behaviour.
- `Default` rewrites only `ResourcePreset` on the object it is given.

JSON decoding and YAML encoding are not modelled. They come in as a `Codec` parameter:
`decode` returns the top-level object or nothing, and `encode` returns text or nothing.

## Where the code and the documented design disagree

The model follows the code in each case below.

- `Reconcile` (internal/controller/springbootapplication_controller.go:61-80) never calls
  `ensureAutoscaler`. It writes no status condition and drops the merge error and every
  ensure error. It always finishes with no error once the app has been read. When the merge
  fails, it still syncs the ConfigMap with an empty `application.yaml` and the Service with
  target port 0 (`ReconcileAfterDecodeFailure`).
- The config merge keeps a user-supplied `server.port` and adds 8080 only when none is set.
  It does not read the spec's port, and it writes no context path.
- No builder produces probes, so probes and context-path handling are not modelled.
- Only the Deployment and the HPA receive an owner link. The ConfigMap and the Service are
  created and updated without one (`ChildOwnerLinks`), although the controller test expects
  owner references on both.
- The controller test expects `Reconcile` to fail for an application with neither a preset nor
  resources. The code drops the Deployment's error and returns nil (`ReconcileModel`).
- The autoscaler test expects an HPA after `Reconcile`, which never calls `ensureAutoscaler`.
- springbootapplication_controller.go also defines `ensureDeployment`, `createDeploymentObject`,
  `createResources` and `createSpringResourceRequirements` (lines 189-350). These duplicate the
  versions in springbootapplication_deployment.go. The model uses the deployment.go versions.
  Those take the container port from the spec's `port`, while the Service targets the port the
  config merge returns, so the two can differ (`ServiceAndContainerPortsCanDisagree`). The
  controller test expects the container port 3333 taken from the config's `server.port`; the
  deployment.go builder exposes the spec's port instead.

## Model

| member | source | states |
|---|---|---|
| Api.ToInt32 | internal/controller/springbootapplication_deployment.go:102 | Go's int32 conversion lands in the int32 range, leaves in-range values alone and keeps the value modulo 2^32 |
| Api.ParseQuantity | internal/controller/springbootapplication_deployment.go:169-178 | a quantity string is accepted iff it is a run of digits followed by a known suffix; success returns that quantity and failure reports the rejected text |
| Resources.CreateSpringResourceRequirements | internal/controller/springbootapplication_deployment.go:195-205 | requests are exactly {cpu, memory}, limits exactly {memory} with the memory request's value, and there is never a CPU limit |
| Resources.CreateResources | internal/controller/springbootapplication_deployment.go:161-193 | a set preset wins and maps through the closed table (anything else is an unrecognised-preset error); with no preset and no resources the result is an error; otherwise cpu is parsed before memory, the first parse failure is returned, and success obeys the cpu-request-only / memory-request-equals-limit policy |
| Resources.PresetLiteralsParse | internal/controller/springbootapplication_deployment.go:183-189 | every literal the preset table passes to MustParse is a well-formed quantity, so it never panics |
| Resources.PresetTable | internal/controller/springbootapplication_deployment.go:183-189 | small, medium and large give cpu 1/2/4 and memory 1Gi/2Gi/4Gi requests with a memory-only limit |
| Resources.PresetIgnoresResources | internal/controller/springbootapplication_deployment.go:162-192 | when a preset is set, the explicit resources have no effect on the result |
| Resources.ExplicitResourcesUsedAsGiven | internal/controller/springbootapplication_deployment.go:162-180 | cpu "2" and memory "8Gi" with no preset give exactly those requests and a limit of memory "8Gi" only |
| DeploymentBuilder.WithAppLabel | internal/controller/springbootapplication_deployment.go:49-57 | a nil label map stays nil; any other map gains app = name, overriding a user value, and keeps every other entry |
| DeploymentBuilder.DeploymentFor | internal/controller/springbootapplication_deployment.go:48-159 | fails exactly when resource resolution fails, with its error; on success: replicas unset, selector exactly {app: name} and matched by the template labels, template labels = the app's labels plus app = name, the pod and container hardened (non-root, RuntimeDefault seccomp, no privilege escalation, read-only root FS, drop ALL), one container "app" with the spec image, one port "http" = int32(spec port), the resolved resources, the two fixed env vars in order, and one "config" volume of ConfigMap `name` mounted at /config |
| DeploymentBuilder.CreateDeploymentObject | internal/controller/springbootapplication_deployment.go:48-159 | returns DeploymentFor of the app as it was, and leaves the app's own label map updated in place with app = name (a nil map stays nil), even when the build fails |
| DeploymentBuilder.DeploymentIgnoresScalingAndConfig | internal/controller/springbootapplication_deployment.go:67-152 | the Deployment does not depend on the framework type, the raw config, the autoscaler settings or the custom behaviour |
| Autoscaling.CreateBehaviour | internal/controller/springbootapplication_hpa.go:125-143 | scale-up has the given stabilization window and exactly one Percent policy with the given value and period; scale-down has only a stabilization window and no policies |
| Autoscaling.DefaultBehaviour | internal/controller/springbootapplication_hpa.go:145-156 | succeeds iff the type is web, webflux or native, with a profile of that shape; any other type is an unhandled-framework error |
| Autoscaling.DefaultCpuTarget | internal/controller/springbootapplication_hpa.go:66-79 | a default CPU target exists iff the type is known, and it lies in 1..100 |
| Autoscaling.DefaultTables | internal/controller/springbootapplication_hpa.go:66-156 | web 70% (30, 50%, 60s; 300s), webflux 75% (20, 75%, 60s; 240s), native 65% (10, 100%, 30s; 120s) |
| Autoscaling.MergeBlocks | internal/controller/springbootapplication_hpa.go:112-123 | each block of the merge is the custom block when set and the default block otherwise |
| Autoscaling.MergeIdempotent | internal/controller/springbootapplication_hpa.go:112-123 | merging again with the same default changes nothing, and an empty custom behaviour merges to the default |
| Autoscaling.MergeIsBlockGranular | internal/controller/springbootapplication_hpa.go:112-123 | each block of the result is a whole block of one input, never mixed field by field; a custom block on one side leaves the other side exactly the default |
| Autoscaling.MergeBehaviours | internal/controller/springbootapplication_hpa.go:112-123 | fills the caller's custom object in place with MergeBlocks and returns that same object |
| Autoscaling.AutoscalerSpecFor | internal/controller/springbootapplication_hpa.go:49-110 | succeeds iff the type is known, even when a CPU percentage is given; the error is unrecognised-type without a percentage and unhandled-framework with one; on success the target is Deployment/apps/v1/name, min and max replicas are the int32 casts of the config, the one metric is Resource/CPU/Utilization at the given or default percentage, and the behaviour is the default or the merge of the custom one with it |
| Autoscaling.CreateAutoscalerSpec | internal/controller/springbootapplication_hpa.go:49-110 | returns AutoscalerSpecFor of the app as it was; on success the app's custom behaviour object now holds the HPA's behaviour, and on failure it is untouched |
| Autoscaling.WebAutoscalerDefaults | internal/controller/springbootapplication_hpa.go:55-110 | a web app with replicas 1..5 gets min 1, max 5, 70% CPU and the web default behaviour |
| Autoscaling.CustomScaleUpKeepsDefaultScaleDown | internal/controller/springbootapplication_hpa.go:102-123 | a custom scale-up alone keeps the web default scale-down of 300 seconds |
| ConfigMerge.Truncate | internal/controller/springbootapplication_controller.go:374-375 | converting a float to int truncates toward zero |
| ConfigMerge.EffectivePort | internal/controller/springbootapplication_controller.go:366-379 | the returned port is the user's integer server.port, or the truncation of a float one, or 8080 when there is none or it is not a number |
| ConfigMerge.MergedDocument | internal/controller/springbootapplication_controller.go:357-386 | top-level keys other than server are kept; server is always a map holding port; a user-set port is left exactly as written; a missing or non-map server becomes {port: 8080} |
| ConfigMerge.MergeOutcome | internal/controller/springbootapplication_controller.go:355-395 | absent or empty raw config is an empty map; a decode failure or an encode failure gives ("", 0) and that error; otherwise the result is the rendered merged tree and EffectivePort |
| ConfigMerge.MergeConfigWithDefaultPort | internal/controller/springbootapplication_controller.go:355-395 | the step-by-step merge of the decoded map and its server map returns exactly MergeOutcome |
| ConfigMerge.EmptyConfigGetsDefaultPort | internal/controller/springbootapplication_controller.go:357-384 | an empty config merges to {server: {port: 8080}} and port 8080 |
| ConfigMerge.UserPortWins | internal/controller/springbootapplication_controller.go:372-384 | a user's numeric server.port stays in the tree unchanged and is the returned port |
| ConfigMerge.MergeIsStable | internal/controller/springbootapplication_controller.go:366-386 | the returned port agrees with the merged tree's numeric port, and merging the merged tree again changes neither the tree nor the port |
| Controller.DesiredConfigMap | internal/controller/springbootapplication_controller.go:93-102 | the desired data is exactly {application.yaml: config}, with no owner link |
| Controller.SyncConfigMap | internal/controller/springbootapplication_controller.go:83-114 | a failed Get is returned with no write; an absent ConfigMap is created; a present one is replaced iff its data differs; otherwise nothing is written; afterwards the data is in sync and only that ConfigMap changed |
| Controller.DesiredService | internal/controller/springbootapplication_controller.go:126-145 | ClusterIP, one port http 80 -> int32(internal port), selector exactly {app: name}, no owner link |
| Controller.WithOwnedFields | internal/controller/springbootapplication_controller.go:158-176 | copies Ports, Selector and Type only; labels and every other field are kept; the result equals the existing object iff nothing differed |
| Controller.SyncService | internal/controller/springbootapplication_controller.go:117-187 | a failed Get is returned with no write; an absent Service is created; a present one is updated iff an owned field differs, keeping its metadata and other fields; a Service already in sync is left alone |
| Controller.ClaimDeployment | internal/controller/springbootapplication_deployment.go:32-43 | the closure sets Labels and Spec from the desired Deployment and stamps the controller link, keeping annotations and status |
| Controller.SyncDeployment | internal/controller/springbootapplication_deployment.go:16-46 | a failed Get or a failed build is returned with no write; otherwise the claimed Deployment is created, or written back iff claiming changed it; afterwards it is in sync and only it changed |
| Controller.ClaimAutoscaler | internal/controller/springbootapplication_hpa.go:33-44 | the closure sets the app's labels, the built spec and the controller link, keeping annotations and status |
| Controller.SyncAutoscaler | internal/controller/springbootapplication_hpa.go:16-47 | same protocol as SyncDeployment for the HorizontalPodAutoscaler: a failed Get or build writes nothing; otherwise it is created, or written back iff claiming changed it, keeping its annotations and currentReplicas; afterwards it is in sync and only it changed |
| Controller.ReconcileModel | internal/controller/springbootapplication_controller.go:61-80 | a failed read of the app is the only error it returns, with the store untouched; a missing app changes nothing; once the app is read, every later error (merge, ConfigMap, Service, Deployment) is dropped and the result is no error; for every store, each readable child kind ends in sync with the merge output (the ConfigMap with the rendered text, the Service with the returned port, the Deployment with the app), the apps and autoscalers are untouched, and the log grows by writes for this app only, at most one per child, in the order ConfigMap, Service, Deployment; children under other keys are untouched, an unreadable kind's objects are untouched, and a failed Deployment build leaves the Deployments as they were |
| Controller.ReconcileIdempotent | internal/controller/springbootapplication_controller.go:61-80 | a second Reconcile with nothing changed in between writes nothing and changes nothing |
| Controller.ReconcileAfterDecodeFailure | internal/controller/springbootapplication_controller.go:73-76 | when the config does not decode, the ConfigMap still gets an empty application.yaml and the Service targets port 0 |
| Controller.ReconcileCreatesChildrenInOrder | internal/controller/springbootapplication_controller.go:73-77 | against a store without the children, Reconcile issues exactly Create ConfigMap, Create Service, Create Deployment, in that order |
| Controller.ChildOwnerLinks | internal/controller/springbootapplication_controller.go:93-153 | the ConfigMap and the Service are written without an owner link; the Deployment and the HPA carry the app's controller reference |
| Controller.ServiceAndContainerPortsCanDisagree | internal/controller/springbootapplication_controller.go:73-77 | spec port 8080 with server.port 3333 in the config gives a Service targeting 3333 and a container port of 8080 |
| Controller.Cluster.EnsureConfigMap | internal/controller/springbootapplication_controller.go:83-114 | the store after the call and the error returned are those of SyncConfigMap |
| Controller.Cluster.EnsureService | internal/controller/springbootapplication_controller.go:117-187 | the field-by-field copy with its needsUpdate flag produces exactly SyncService |
| Controller.Cluster.EnsureDeployment | internal/controller/springbootapplication_deployment.go:16-46 | produces exactly SyncDeployment, and the app's label map gains the app label whenever the Get succeeds |
| Controller.Cluster.EnsureAutoscaler | internal/controller/springbootapplication_hpa.go:16-47 | produces exactly SyncAutoscaler; when the Get and the build succeed, the app's custom behaviour object now holds the HPA's merged behaviour, and otherwise it is unchanged |
| Controller.Cluster.Reconcile | internal/controller/springbootapplication_controller.go:61-80 | working on a fresh copy of the stored app, produces exactly ReconcileModel |
| Webhook.Defaulted | internal/webhook/v1alpha1/springbootapplication_webhook.go:61-65 | explicit resources clear the preset; with neither set the preset becomes small; a set preset without resources is kept; afterwards exactly one of the two is set and no other field changed |
| Webhook.Default | internal/webhook/v1alpha1/springbootapplication_webhook.go:53-68 | another kind of object is rejected with an error and nothing is changed; an application's spec becomes Defaulted of the old spec and its labels stay as they were |
| Webhook.DefaultIdempotent | internal/webhook/v1alpha1/springbootapplication_webhook.go:61-65 | defaulting twice is the same as defaulting once |
| Webhook.DefaultedSpecResolves | internal/webhook/v1alpha1/springbootapplication_webhook.go:61-65 | after defaulting, the resolver never reports missing resources, and a spec with neither field resolves to the small preset |

## Left out

- Kubernetes client I/O: `Get`, `Create` and `Update` are map reads and writes. A failing Get is a per-kind flag on the store. Writes always succeed, so there are no optimistic-concurrency conflicts and no resource versions.
- Server-side defaulting is not modelled. In a real cluster the stored Service port gains protocol TCP and the stored Deployment gains default fields, so the comparisons in `ensureService` and `CreateOrUpdate` would find a difference on every pass. `ReconcileIdempotent` holds for a store that keeps objects as written.
- `controllerutil.CreateOrUpdate` internals: its second Get is taken to return what the first one did.
- `SetControllerReference` stamps one owner link. Its scheme lookup and its error when another controller already owns the object are not modelled, and the call in `createDeploymentObject` is taken to succeed.
- `createAutoscalerSpec` also returns a partly filled spec with its error. The model drops that spec, because the closure's caller writes nothing when the closure fails.
- Api.ParseQuantity: the model accepts only unsigned integers with one of the suffixes n, u, m, k, M, G, T, P, E, Ki, Mi, Gi, Ti, Pi, Ei or none. `resource.ParseQuantity` also accepts signs, decimals and exponents ("+1", "0.5", "1e3"); the model rejects them, and neither is canonical equality of quantities (1024Mi against 1Gi). A quantity keeps its text.
- Errors are a datatype rather than formatted strings. `MalformedQuantity` carries the rejected text so that the cpu and memory failures can be told apart; the library's error does not carry it.
- JSON decoding and YAML encoding are the `Codec` parameter, so byte-exact YAML rendering is not modelled. JSON numbers are reals: float64 rounding and out-of-range float-to-int conversion are not modelled.
- Labels on stored objects are plain maps, because a nil map and an empty one are the same to the store and to semantic equality. Only the in-memory application keeps the nil distinction, because it decides whether the map is updated in place.
- `cpuPercentage` is an int32 in the API type and is used as given.
- Logging, `SetupWithManager`, the webhook registration, the context argument and the always-empty `ctrl.Result` are left out.
- Status conditions, probes and context-path normalisation are left out because no code in the core produces them.
- The stale duplicates in springbootapplication_controller.go (lines 189-350) are left out.
