# Cilium adapter: installing the mesh and its sample applications

A Dafny model of the operations by which the Meshery adapter for Cilium acts on a set of
Kubernetes clusters, each one given by a kubeconfig:

- `installCilium` looks up the mesh configuration, then installs (or, for a delete request,
  uninstalls) the Cilium Helm chart. It answers with a lifecycle status and an error.
- `applyHelmChart` builds the chart configuration: the `https://helm.cilium.io/` repository,
  chart and release name `cilium`, namespace `kube-system`, and a namespace created when
  missing. It then tries every cluster at once, one goroutine per kubeconfig, and sends
  the configuration to each cluster whose client could be built. The failures are collected under a mutex and merged into one error.
- `installSampleApp` applies the manifests of a sample application one after another. It
  stops at the first manifest that fails on some cluster, whether the cluster rejected it
  or no client could be built from the cluster's kubeconfig.
- `applyManifest` sends one manifest to every cluster at once, in the same fan-out as the
  chart.

The model is organised as follows.

- `Errors` holds the adapter's error values. The error helpers become constructors, so an
  error records only which error wraps which.
- `Cluster` holds the requests and calls that reach the clusters. It also holds `Env`, the
  answers of the collaborators.
- `Lifecycle` holds the status values.
- `Dispatch` holds the concurrent fan-out shared by both apply routines.
- `Install` and `SampleApps` hold the four operations.

Every collaborator is a pure function of its arguments, supplied in `Env`. These are the
mesh-configuration lookup, client construction from a kubeconfig, and a request sent
through a client. `installSampleApp` runs one fan-out per manifest, and every fan-out
builds its clients afresh. So each manifest is applied in a `Round` of its own, with its
own answers. Goroutine scheduling is an input as well. A fan-out is given the order in
which its goroutines append to the shared error list, a rearrangement of the kubeconfigs.
The calls an operation makes to the clusters are returned as a trace. This is how the
contracts state which clusters were contacted and what each one was sent.

## Model

| member | source | states |
|---|---|---|
| Lifecycle.InProgress | cilium/install.go:31-34 | the status returned while a request is in flight is a deletion status exactly when the request deletes |
| Lifecycle.Done | cilium/install.go:47-52 | the status returned after a completed install or removal is terminal, and is a deletion status exactly when the request deletes |
| Dispatch.AttemptCalls | cilium/install.go:85-100 | one goroutine builds a client from its own kubeconfig exactly once; the request is among its calls exactly when the client could be built; anything it sends is the request, through a client that could be built |
| Dispatch.AttemptSent | cilium/install.go:85-94 | one goroutine sends through its own kubeconfig's client exactly once when the client builds, and sends nothing when it does not |
| Dispatch.BuildableCount | cilium/install.go:85-94 | the targets a request is meant for are exactly the entries whose client builds, each as often as it occurs among the kubeconfigs |
| Dispatch.BuildablePermutation | cilium/install.go:81-103 | which targets the request is sent to does not depend on the order the goroutines finish in |
| Dispatch.AttemptErrors | cilium/install.go:85-100 | one goroutine appends nothing when its target succeeds, `ErrNilClient` when no client could be built, and otherwise the error the cluster returned unchanged |
| Dispatch.Trace | cilium/install.go:81-103 | the goroutines together build exactly one client per kubeconfig, in the order given; every request they send is the one request, through a client that could be built |
| Dispatch.TraceSent | cilium/install.go:81-103 | the goroutines together send the request exactly once to each kubeconfig whose client builds, in the order given, and to no other |
| Dispatch.Collect | cilium/install.go:81-103 | run in one order, the goroutines append exactly one error per failing kubeconfig |
| Dispatch.NoneFailing | cilium/install.go:106-108 | no kubeconfig fails exactly when every target accepts the request |
| Dispatch.CollectAppend | cilium/install.go:81-103 | the errors of two groups of goroutines, one after the other, are the errors of the first group followed by those of the second |
| Dispatch.CollectPermutation | cilium/install.go:83-99 | under the mutex, the collected errors are the same multiset whatever order the goroutines finish in |
| Dispatch.FanOut | cilium/sample_apps.go:26-56 | after the wait, the error list is a rearrangement of the in-order errors, with one entry per failing kubeconfig; it is empty exactly when every target succeeds; every kubeconfig was connected once; the request went once to each kubeconfig whose client builds and nowhere else, and every request sent is the given one |
| Install.ChartConfig | cilium/install.go:56-75 | the chart sent is `cilium` from `https://helm.cilium.io/` at the requested version, released as `cilium` into `kube-system`, which is created if missing; the action is uninstall exactly when a delete was asked for |
| Install.ApplyHelmChart | cilium/install.go:55-111 | the chart call fails exactly when some target fails; the failure is `ErrApplyHelmChart` around a merge of exactly the per-target errors; every cluster whose client builds receives the fixed chart configuration once, uninstalling exactly when asked, and no other cluster receives anything |
| Install.InstallCilium | cilium/install.go:26-53 | the status is a deletion status exactly when asked, and in flight exactly when an error is returned; success requires the mesh configuration and every target; a missing mesh configuration contacts no cluster and returns `ErrMeshConfig`; otherwise the chart configuration, and no other request, goes once to each cluster whose client builds; a chart failure comes back wrapped in `ErrApplyHelmChart` twice |
| Install.NoClustersSucceeds | cilium/install.go:105-108 | with no kubeconfigs and a mesh configuration present, the install reaches the terminal status with no error and no calls |
| Install.OneClientFailure | cilium/install.go:85-91 | when only one kubeconfig fails to give a client, the install reports the in-flight status and a merge of exactly one `ErrNilClient`, whatever order the goroutines finish in |
| Install.OnlyFailureCollected | cilium/install.go:86-89 | when only one target fails and it yields no client, the collected list is exactly `[ErrNilClient]` |
| SampleApps.ManifestRequest | cilium/sample_apps.go:42-46 | a manifest is sent with the requested namespace, always as an update in place, and as a deletion exactly when one was asked for |
| SampleApps.ApplyManifest | cilium/sample_apps.go:25-62 | the manifest call fails exactly when some target fails; the failure is a merge, without extra wrapping, of exactly the per-target errors; every kubeconfig is connected once; every request sent is the manifest as an in-place update that deletes exactly when asked |
| SampleApps.ApplyManifestSent | cilium/sample_apps.go:30-46 | whatever order the goroutines finish in, the manifest goes once to each cluster whose client builds, and to no other |
| SampleApps.FirstFailure | cilium/sample_apps.go:16-21 | the first manifest that fails on some cluster in its round: every earlier manifest applies everywhere in its own round, and this one does not |
| SampleApps.InstallSampleApp | cilium/sample_apps.go:11-23 | succeeds exactly when every manifest applies everywhere in its round, and then reports `Installed` even for a delete; otherwise it stops at the first failing manifest, applies no later one, and returns the in-flight status with `ErrSampleApp` around that manifest's merged errors |

## Left out

- Goroutines, the wait group and the mutex are not modelled as concurrency. Each append is
  atomic under the mutex, so a run is the sequence of appends in completion order. That
  order is an input constrained to be a rearrangement of the kubeconfigs.
- Client construction, the chart and manifest requests and the mesh-configuration lookup
  are oracles in `Env`. They are code outside these files (the Kubernetes and Helm client
  library and the adapter configuration). Within one fan-out, an oracle's answer depends
  only on its arguments. Two entries with the same kubeconfig in one fan-out therefore
  see the same outcome. Separate manifests of a sample application get separate rounds
  of answers.
- Error messages and codes of the error helpers, and the text `mergeErrors` builds, are
  left out. Errors are constructors that record only which error wraps which.
- Debug and info logging is left out: it has no effect on the results.
- Rendering a template to a string, and the conversion of contents and kubeconfigs to
  bytes, are left out. A template is modelled as its rendered manifest text.
- The namespace argument of `installCilium` and `applyHelmChart` is carried but, as in
  the code, not used. The release namespace is always `kube-system`.
- Dispatch.FanOut: states the merged errors only up to order. The Go list order depends on
  scheduling, and the model takes that order as an input.
- Timeouts and cancellation are left out: the code sets none. Every collaborator call
  returns in the model. In the code, a client construction or apply that never returns
  would block the wait for the goroutines (`install.go` line 105, `sample_apps.go`
  line 56) forever.
