# Meshery adapter core: kubeconfig bootstrap and SMI conformance run

A Dafny model of two pieces of decision logic in the `adapter` package of the
Meshery adapter library.

**Bootstrap** (`adapter/configure.go`). `CreateInstance` runs four fallible
steps in order and stops at the first failure, wrapping it in
`ErrCreateInstance`:

1. `validateKubeconfig` loads the kubeconfig and filters its auth-infos. It then
   flattens and minifies the document, and stores it only when all four succeed.
2. `createKubeClient` builds the typed and dynamic clients. It takes the
   from-bytes branch for a non-empty kubeconfig and the in-cluster branch
   otherwise, and tunes the connection to QPS 50 and burst 100.
3. `createKubeconfig` records the document's top-level fields in a key-value
   store.
4. `createMesheryKubeclient` wraps the client in a meshery client.

Only after all four succeed does the adapter take the caller's context name
and channel. The auth-info filter keeps an entry when it has inline certificate
data or, failing that, when its certificate path is accessible. It fails when
nothing is left.

**SMI conformance run** (`adapter/smi.go`). `RunSMITest` first builds a meshery
kube client. It then fills in a `Response` and runs the phases install,
connect, run and delete strictly in order. A failing phase stamps its status
("installing", "connecting", "running" or "deleting") and returns its own error.
No later phase runs after a failure. If every phase succeeds the status is
"completed". The run phase copies the tool's pass count and percentage
verbatim. It maps each remote assertion to a `Detail` record, keeping the
order. All of this happens before the session is closed.

Modules:

- `Wrappers` holds `Option` and `Result`.
- `Errors` holds the adapter's error constructors, plus `Cause` for failures
  of code outside the model.
- `Decimal` is Go's `%d` with its inverse.
- `Kubeconfig` holds the document and the auth-info filter.
- `Configure` models bootstrap.
- `Smi` models the phase machine and the aggregation. The straight-line body of
  `RunSMITest` is split into the run from each phase on (`FromInstall`,
  `FromConnect`, `FromRun`), so that each part carries its own contract.

Collaborators are handled as follows:

- client-go, `os.Stat`, the YAML store and `mesherykube.New` are fields of a
  `ClientGo` record. Each field is a function that returns a value or fails.
  `os.Stat` becomes the `accessible` predicate on paths.
- The cluster, network and conformance-tool calls of a run are supplied as one
  `Outcomes` record, with one answer per call site. This is because the manifest
  is fetched and applied twice, and the two answers may differ.
- The run returns a trace of the calls it made, with their arguments, and the
  list of phases it entered. The two manifest fetches are the same call in the
  code; the trace marks which phase issued each one.
- The timestamp is an input string.

Some behaviour of the code is easy to overlook, and the model keeps it as
written:

- Namespace. The comment at `adapter/smi.go:69` says the namespace defaults to
  "meshery", but `RunSMITest` passes `opts.Namespace` through unchanged
  (`adapter/smi.go:113,128`). The model has no default.
- Report on init failure. When the meshery client cannot be built,
  `RunSMITest` returns an empty `Response{}` with no id, timestamp or status
  (`adapter/smi.go:88-91`).
- Closing the session. `runConformanceTest` closes the conformance client only
  after `RunTest` succeeded (`adapter/smi.go:189-221`). The trace shows
  `CloseClient` exactly then.
- Input to steps 2 and 3. `createKubeClient` and `createKubeconfig` read the
  raw kubeconfig bytes, not the sanitized document
  (`adapter/configure.go:24,29`). The sanitized document is used only for the
  stored `ClientcmdConfig`.
- Effects of earlier steps. When a later bootstrap step fails, the effects of
  the steps that already succeeded remain on the adapter. For example, the
  stored config is already replaced when client construction fails
  (`adapter/configure.go:101`).

## Model

| member | source | states |
|---|---|---|
| Kubeconfig.Retained | adapter/configure.go:158-168 | The surviving entries are a sub-map of the input with unchanged values. Every entry with inline certificate data is kept. An entry is dropped exactly when it has no inline data and its certificate path is inaccessible. |
| Kubeconfig.FilterAuthInfos | adapter/configure.go:158-176 | The filter fails, with ErrAuthInfosInvalid, exactly when no entry is usable. This includes the empty map. Otherwise it returns the non-empty surviving map. |
| Kubeconfig.FilterK8sConfigAuthInfos | adapter/configure.go:158-176 | The delete-while-iterating loop leaves exactly the surviving entries. It reports an error exactly when the result is empty. |
| Kubeconfig.FilterIdempotent | adapter/configure.go:158-168 | Filtering an already filtered map under the same accessibility predicate changes nothing. |
| Kubeconfig.InlineDataPasses | adapter/configure.go:158-176 | One entry with inline certificate data makes the filter succeed and keep that entry, whatever the other paths are. |
| Kubeconfig.NoUsableCredentialFails | adapter/configure.go:158-176 | If every entry lacks inline data and has an inaccessible path, the filter fails with ErrAuthInfosInvalid. |
| Configure.ValidateKubeconfig | adapter/configure.go:83-104 | Succeeds exactly when load, filter, flatten and minify all succeed. Only then is the sanitized document stored, and nothing else changes. Any failure is an ErrValidateKubeconfig and leaves the adapter as it was. Each failing step has its own cause: load, then filter, then flatten of the filtered document, then minify of the flattened one. |
| Configure.CreateKubeClient | adapter/configure.go:45-81 | A non-empty kubeconfig takes the from-bytes branch and an empty one the in-cluster branch. The step succeeds exactly when the branch yields a config and both client constructors accept the tuned config (QPS 50, burst 100). Each failure carries its own cause: the branch's config call, the clientset or the dynamic client. On success, both clients are built from the tuned config and only the client fields change. All failures are ErrClientSet. |
| Configure.CreateKubeconfig | adapter/configure.go:106-138 | Fails exactly when the document cannot be recorded. Otherwise only the key-value store changes. |
| Configure.CreateMesheryKubeclient | adapter/configure.go:140-147 | On success, the meshery client wraps the adapter's current client and rest config, and nothing else changes. |
| Configure.CreateInstance | adapter/configure.go:18-43 | Each step runs only after the previous ones succeeded. A failing step ends the run: the result is the adapter as the earlier steps left it, that step's own error wrapped in ErrCreateInstance, and the steps up to and including it. Bootstrap succeeds exactly when validation, the config branch, both client constructors, the key-value store and the meshery client all succeed. On success the adapter is the caller's adapter with exactly seven fields replaced. The stored config is the sanitized document with the caller's current context. Both clients and the meshery client wrap the tuned rest config, and the rest config itself is stored. The key-value store holds what was unmarshalled from the kubeconfig, and the channel is the caller's. |
| Configure.UnusableCredentialsAbortBootstrap | adapter/configure.go:18-22 | A kubeconfig whose every credential is unusable stops bootstrap in validation with ErrCreateInstance(ErrValidateKubeconfig(ErrAuthInfosInvalid)), and the adapter is left unchanged. |
| Configure.InlineCredentialValidates | adapter/configure.go:83-103 | One inline credential is enough for validation to succeed, given that flattening the filtered document and then minifying the result both succeed. No assumption is made about any other document. |
| Configure.BootstrapSucceeds | adapter/configure.go:18-43 | When every collaborator call succeeds on the arguments bootstrap passes it, bootstrap completes without error. |
| Decimal.FromInt | adapter/smi.go:178 | The port text is an optional minus sign followed by digits, with no other characters. It is canonical as `%d` prints it: a minus sign only for negative numbers, no leading zero, and no "-0". |
| Decimal.IntRoundTrip | adapter/smi.go:178 | Reading the printed port back gives the port. |
| Smi.AddressRoundTrip | adapter/smi.go:178 | The `address:port` string determines the endpoint it was formatted from. The split is made at the last colon, so this holds even for hosts that contain colons. |
| Smi.Aggregate | adapter/smi.go:202-216 | The details list has one record per remote assertion, in the same order, and each record is built from the assertion at its index. |
| Smi.CollectDetails | adapter/smi.go:202-216 | The append loop produces as many records as assertions. Each record carries the seven copied fields of its assertion, and its smi_version is empty. |
| Smi.AggregateRoundTrip | adapter/smi.go:202-216 | Reading the assertions back from the details gives exactly the list the tool sent. Nothing is dropped, added or reordered. |
| Smi.InstallConformanceTool | adapter/smi.go:138-152 | Fetches the manifest from the options' location. A failed fetch ends the step with no apply. Otherwise the fetched text is applied in the options' namespace without the delete flag. Succeeds exactly when both succeed. The response is untouched. |
| Smi.ConnectConformanceTool | adapter/smi.go:172-180 | Looks up the smi-conformance service in the options' namespace. On success the stored address is exactly `address:port` of the endpoint found, and it parses back to that endpoint. |
| Smi.RunConformanceTest | adapter/smi.go:183-224 | Once the test has answered, the counts are copied verbatim and the details aggregated, even if closing then fails. Otherwise the response is untouched. The session is closed only after a successful test call. Succeeds exactly when create, run and close all succeed. |
| Smi.DeleteConformanceTool | adapter/smi.go:155-169 | Re-fetches the same manifest location. A failed fetch ends the step with no delete. Otherwise the text is applied in the same namespace with the delete flag set. Succeeds exactly when both succeed. |
| Smi.RunSmiTest | adapter/smi.go:83-224 | A meshery-client failure gives an empty response, ErrSmiInit, no phase and only the client call. Otherwise the response carries the operation id, the timestamp and the adapter's name and version. The run succeeds exactly when the phase scan finds no failing phase, and then the status is "completed". If a phase fails, the phases entered end with it and the status names it. The error is that phase's error wrapping the cause of its first failing call. The counts and details are the tool's answer once it replied, and "0", "0" and empty before that. The trace is the client call followed by the calls of each phase entered, in phase order, read off the outcomes alone. A completed run makes exactly nine calls, in order. |
| Smi.FromInstall | adapter/smi.go:113-134 | The run from the install phase on satisfies `Continues`: it keeps the response's header fields, and reports the same failing phase, status, error and counts as the whole run. |
| Smi.FromConnect | adapter/smi.go:118-134 | The same as FromInstall, once installing has succeeded. |
| Smi.FromRun | adapter/smi.go:123-134 | The same as FromInstall, once installing and connecting have succeeded and the session holds the endpoint's address. |
| Smi.FromInstallTrace | adapter/smi.go:113-224 | From the install phase on, the run appends exactly the reference calls of the phases it enters. |
| Smi.CallArguments | adapter/smi.go:113-194 | The meshery client is built from the adapter's client and rest config. Every manifest fetch uses the options' location. Every apply uses the options' namespace, and its delete flag picks which fetch supplied the text. The endpoint lookup names smi-conformance in that namespace. The client address parses to the endpoint found. The test request carries the labels, the annotations and the adapter's name and version. |
| Smi.LaterPhasesNeverRun | adapter/smi.go:113-131 | Every call in the trace belongs to a phase the run entered: the first fetch and the install to installing, the endpoint lookup to connecting, the tool session to running, and the re-fetch and delete to deleting. No call of a phase after the failing one is made. |
| Smi.InstallFetchFailure | adapter/smi.go:113-116 | A manifest that cannot be fetched ends the run with status "installing" and an ErrInstallSmi. The only calls made are the client construction and the one fetch. |
| Smi.CloseFailureKeepsResults | adapter/smi.go:199-221 | A session that fails to close keeps the copied counts and details. The status is "running" and the error is an ErrRunSmi. |
| Smi.HappyPath | adapter/smi.go:83-135 | With every call succeeding, a tool answer of eight passed cases and three assertions gives "completed", "8" and the three details in order. |

## Left out

- `adapter/validate.go` (`ValidateSMIConformance`) is not modelled. It is a thin wrapper around an external test runner plus event streaming and JSON marshalling.
- client-go internals are modelled only as success or failure. This covers `clientcmd.Load`, `FlattenConfig`, `MinifyConfig`, `RESTConfigFromKubeConfig`, `InClusterConfig`, `kubernetes.NewForConfig`, `dynamic.NewForConfig` and `mesherykube.New`. Each is a function that returns a value or fails, so no kubeconfig syntax or client behaviour is modelled.
- `os.Stat` is the abstract `accessible` predicate on paths. No file-system semantics are modelled.
- Auth-info entries model only the certificate path and the inline data. The remaining credential fields are one opaque `rest` value, which the filter never reads. A rest config is modelled as its host plus QPS and burst.
- `Configure.CreateKubeconfig`: the YAML unmarshalling and the seven key-value writes are one step that records a snapshot or fails. If a later `SetObject` fails, the earlier keys are already written, and the model does not show those partial writes.
- The network and cluster calls of a run are supplied outcomes. These are `ReadRemoteFile`, `ApplyManifest`, `GetServiceEndpoint` and the conformance client's `CreateClient`, `RunTest` and `Close`.
- `time.Now().Format(RFC3339)` is an input string. The 20-second sleep after install has no observable effect and is omitted.
- QPS is the integer 50. Its float32 type is not modelled.
- Building the meshery client in `RunSMITest` is recorded with its arguments, the adapter's client and rest config, but whether it succeeds is a supplied outcome of the run, not a function of those arguments.
- `Errors.ErrSmiInit` carries the cause of the failure, not the formatted message text. Error texts in general are not modelled.
- A nil details slice and an empty one are both the empty sequence.
- The adapter is an immutable value returned by each step, so concurrent use of the adapter's fields and channel semantics are not modelled. The channel is an opaque optional handle.
