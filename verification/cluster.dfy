/** The narrow interface to the clusters and the configuration store.
    Every external call is an oracle: a pure function of its arguments, fixed for one
    fan-out of a request over the clusters. */
module Cluster {
  import opened Errors

  /** Serialized cluster credentials, one per target cluster. */
  type Kubeconfig = string

  datatype HelmAction = Install | Uninstall

  datatype ChartLocation = ChartLocation(repository: string, chart: string, version: string)

  datatype HelmChartConfig = HelmChartConfig(
    location: ChartLocation,
    namespace: string,
    action: HelmAction,
    createNamespace: bool,
    releaseName: string)

  datatype ApplyOptions = ApplyOptions(namespace: string, update: bool, delete: bool)

  /** What a client is asked to do: apply a Helm chart, or apply (or delete) a manifest. */
  datatype Request =
    | Chart(config: HelmChartConfig)
    | Manifest(contents: string, options: ApplyOptions)

  /** One call that reaches a cluster: building a client from a kubeconfig, or a request
      sent through a client built from that kubeconfig. */
  datatype Call = Connect(kubeconfig: Kubeconfig) | Apply(kubeconfig: Kubeconfig, request: Request)

  /** The answers of the collaborators: the mesh-config lookup, client construction
      (`None` when a client could be built) and a request sent through a client. */
  datatype Env = Env(
    meshConfig: Option<Error>,
    newClient: Kubeconfig -> Option<Error>,
    apply: (Kubeconfig, Request) -> Option<Error>)

  /** The kubeconfigs a trace built a client from, in the order of the trace. */
  function Connected(calls: seq<Call>): seq<Kubeconfig>
  {
    if calls == [] then []
    else (if calls[0].Connect? then [calls[0].kubeconfig] else []) + Connected(calls[1..])
  }

  lemma {:induction false} ConnectedAppend(a: seq<Call>, b: seq<Call>)
    ensures Connected(a + b) == Connected(a) + Connected(b)
  {
    if a == [] {
      assert a + b == b;
    } else {
      assert (a + b)[1..] == a[1..] + b;
      ConnectedAppend(a[1..], b);
    }
  }

  /** The kubeconfigs a trace sent a request through, in the order of the trace. */
  function Sent(calls: seq<Call>): seq<Kubeconfig>
  {
    if calls == [] then []
    else (if calls[0].Apply? then [calls[0].kubeconfig] else []) + Sent(calls[1..])
  }

  lemma {:induction false} SentAppend(a: seq<Call>, b: seq<Call>)
    ensures Sent(a + b) == Sent(a) + Sent(b)
  {
    if a == [] {
      assert a + b == b;
    } else {
      assert (a + b)[1..] == a[1..] + b;
      SentAppend(a[1..], b);
    }
  }
}
