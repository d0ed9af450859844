/** Installing and removing the Cilium Helm chart on every cluster. */
module Install {
  import opened Errors
  import opened Lifecycle
  import opened Cluster
  import opened Dispatch

  const Repository: string := "https://helm.cilium.io/"
  const ChartName: string := "cilium"
  const ReleaseNamespace: string := "kube-system"

  /** The chart configuration sent to every cluster. The namespace the caller asked for
      plays no part in it. */
  function ChartConfig(del: bool, version: string): (c: HelmChartConfig)
    ensures c.location.repository == Repository && c.location.chart == ChartName
    ensures c.location.version == version
    ensures c.namespace == ReleaseNamespace
    ensures c.action == Uninstall <==> del
    ensures c.createNamespace
    ensures c.releaseName == c.location.chart
  {
    HelmChartConfig(
      ChartLocation(Repository, ChartName, version),
      ReleaseNamespace,
      if del then Uninstall else Install,
      true,
      ChartName)
  }

  /** Install (or, when `del`, uninstall) the chart on every cluster at once; the
      goroutines append their failures in the order `completion`. */
  function ApplyHelmChart(env: Env, del: bool, version: string, namespace: string,
                          kubeconfigs: seq<Kubeconfig>, completion: seq<Kubeconfig>): (a: Applied)
    requires Rearranges(completion, kubeconfigs)
    ensures a.err.None? <==> AllSucceed(env, Chart(ChartConfig(del, version)), kubeconfigs)
    ensures a.err.Some? ==>
      a.err.value.ErrApplyHelmChart? && MergeOf(a.err.value.cause, Collect(env, Chart(ChartConfig(del, version)), kubeconfigs))
    ensures a.err.Some? ==> |a.err.value.cause.parts| == CountFailing(env, Chart(ChartConfig(del, version)), kubeconfigs)
    ensures multiset(Connected(a.calls)) == multiset(kubeconfigs)
    ensures multiset(Sent(a.calls)) == multiset(Buildable(env, Chart(ChartConfig(del, version)), kubeconfigs))
    ensures forall c :: c in a.calls && c.Apply? ==> c.request == Chart(ChartConfig(del, version))
  {
    var run := FanOut(env, Chart(ChartConfig(del, version)), kubeconfigs, completion);
    if run.errs == [] then Applied(run.calls, None)
    else Applied(run.calls, Some(ErrApplyHelmChart(Merged(run.errs))))
  }

  /** The adapter operation: look up the mesh configuration, then apply the chart
      everywhere. On failure the in-progress status is returned with the error; the
      chart error is wrapped in `ErrApplyHelmChart` a second time here. */
  function InstallCilium(env: Env, del: bool, version: string, namespace: string,
                         kubeconfigs: seq<Kubeconfig>, completion: seq<Kubeconfig>): (r: Reply)
    requires Rearranges(completion, kubeconfigs)
    ensures Deleting(r.status) <==> del
    ensures InFlight(r.status) <==> r.err.Some?
    ensures r.err.None? <==>
      env.meshConfig.None? && AllSucceed(env, Chart(ChartConfig(del, version)), kubeconfigs)
    ensures env.meshConfig.Some? ==>
      r.calls == [] && r.status == InProgress(del) && r.err == Some(ErrMeshConfig(env.meshConfig.value))
    ensures env.meshConfig.None? ==> multiset(Connected(r.calls)) == multiset(kubeconfigs)
    ensures env.meshConfig.None? ==>
      multiset(Sent(r.calls)) == multiset(Buildable(env, Chart(ChartConfig(del, version)), kubeconfigs))
    ensures forall c :: c in r.calls && c.Apply? ==> c.request == Chart(ChartConfig(del, version))
    ensures env.meshConfig.None? && r.err.Some? ==>
      && r.err.value.ErrApplyHelmChart?
      && r.err.value.cause.ErrApplyHelmChart?
      && MergeOf(r.err.value.cause.cause, Collect(env, Chart(ChartConfig(del, version)), kubeconfigs))
  {
    var st := InProgress(del);
    match env.meshConfig
    case Some(e) => Reply([], st, Some(ErrMeshConfig(e)))
    case None =>
      var a := ApplyHelmChart(env, del, version, namespace, kubeconfigs, completion);
      match a.err
      case Some(e) => Reply(a.calls, st, Some(ErrApplyHelmChart(e)))
      case None => Reply(a.calls, Done(del), None)
  }

  /** With no kubeconfigs there is nothing to fail: a found mesh configuration is enough
      for the terminal status. */
  lemma NoClustersSucceeds(env: Env, del: bool, version: string, namespace: string)
    requires env.meshConfig.None?
    ensures InstallCilium(env, del, version, namespace, [], []) == Reply([], Done(del), None)
  {
  }

  /** Of the kubeconfigs, only the entry at `i` fails, and it yields no client: the install
      reports the in-progress status and exactly one `ErrNilClient`, whatever order the
      goroutines finish in. */
  lemma OneClientFailure(env: Env, del: bool, version: string, namespace: string,
                         kubeconfigs: seq<Kubeconfig>, completion: seq<Kubeconfig>, i: nat)
    requires Rearranges(completion, kubeconfigs)
    requires env.meshConfig.None?
    requires i < |kubeconfigs| && env.newClient(kubeconfigs[i]).Some?
    requires AllSucceed(env, Chart(ChartConfig(del, version)), kubeconfigs[..i])
    requires AllSucceed(env, Chart(ChartConfig(del, version)), kubeconfigs[i + 1..])
    ensures var r := InstallCilium(env, del, version, namespace, kubeconfigs, completion);
      && r.status == InProgress(del)
      && r.err == Some(ErrApplyHelmChart(ErrApplyHelmChart(Merged([ErrNilClient]))))
  {
    var req := Chart(ChartConfig(del, version));
    NoneFailing(env, req, kubeconfigs[..i]);
    NoneFailing(env, req, kubeconfigs[i + 1..]);
    OnlyFailureCollected(env, req, kubeconfigs, i);
    var r := InstallCilium(env, del, version, namespace, kubeconfigs, completion);
    SingletonMerge(r.err.value.cause.cause, ErrNilClient);
  }

  /** Read in kubeconfig order, the errors are those of the one failing target. */
  lemma OnlyFailureCollected(env: Env, req: Request, ks: seq<Kubeconfig>, i: nat)
    requires i < |ks| && env.newClient(ks[i]).Some?
    requires CountFailing(env, req, ks[..i]) == 0 && CountFailing(env, req, ks[i + 1..]) == 0
    ensures Collect(env, req, ks) == [ErrNilClient]
  {
    var l, x, r := ks[..i], ks[i], ks[i + 1..];
    assert Collect(env, req, ks) == Collect(env, req, l + [x]) + Collect(env, req, r) by {
      assert ks == (l + [x]) + r;
      CollectAppend(env, req, l + [x], r);
    }
    assert Collect(env, req, l + [x]) == Collect(env, req, l) + Collect(env, req, [x]) by {
      CollectAppend(env, req, l, [x]);
    }
    assert Collect(env, req, [x]) == [ErrNilClient] by {
      assert [x][1..] == [];
    }
  }

  /** A merge of exactly one error holds just that error. */
  lemma SingletonMerge(m: Error, e: Error)
    requires MergeOf(m, [e])
    ensures m == Merged([e])
  {
    assert |m.parts| == |multiset(m.parts)| == 1;
    assert m.parts[0] in multiset(m.parts);
  }
}
