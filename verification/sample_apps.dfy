/** Applying (or deleting) the manifests of a sample application on every cluster. */
module SampleApps {
  import opened Errors
  import opened Lifecycle
  import opened Cluster
  import opened Dispatch

  /** The request sent for one manifest: always an update in place, deleting when asked. */
  function ManifestRequest(contents: string, isDel: bool, namespace: string): (req: Request)
    ensures req.Manifest? && req.contents == contents
    ensures req.options.namespace == namespace
    ensures req.options.update
    ensures req.options.delete <==> isDel
  {
    Manifest(contents, ApplyOptions(namespace, true, isDel))
  }

  /** Apply (or delete) one manifest on every cluster at once; the goroutines append their
      failures in the order `completion`. */
  function ApplyManifest(env: Env, contents: string, isDel: bool, namespace: string,
                         kubeconfigs: seq<Kubeconfig>, completion: seq<Kubeconfig>): (a: Applied)
    requires Rearranges(completion, kubeconfigs)
    ensures a.err.None? <==> AllSucceed(env, ManifestRequest(contents, isDel, namespace), kubeconfigs)
    ensures a.err.Some? ==> MergeOf(a.err.value, Collect(env, ManifestRequest(contents, isDel, namespace), kubeconfigs))
    ensures a.err.Some? ==> |a.err.value.parts| == CountFailing(env, ManifestRequest(contents, isDel, namespace), kubeconfigs)
    ensures multiset(Connected(a.calls)) == multiset(kubeconfigs)
    ensures forall c :: c in a.calls && c.Apply? ==>
      c.request == Manifest(contents, ApplyOptions(namespace, true, isDel))
  {
    var run := FanOut(env, ManifestRequest(contents, isDel, namespace), kubeconfigs, completion);
    if run.errs == [] then Applied(run.calls, None)
    else Applied(run.calls, Some(Merged(run.errs)))
  }

  /** The manifest goes once to each cluster whose client builds, and to no other. */
  lemma ApplyManifestSent(env: Env, contents: string, isDel: bool, namespace: string,
                          kubeconfigs: seq<Kubeconfig>, completion: seq<Kubeconfig>)
    requires Rearranges(completion, kubeconfigs)
    ensures multiset(Sent(ApplyManifest(env, contents, isDel, namespace, kubeconfigs, completion).calls))
      == multiset(Buildable(env, ManifestRequest(contents, isDel, namespace), kubeconfigs))
  {
    var run := FanOut(env, ManifestRequest(contents, isDel, namespace), kubeconfigs, completion);
    assert ApplyManifest(env, contents, isDel, namespace, kubeconfigs, completion).calls == run.calls;
  }

  /** Every cluster accepts the manifest `t`. */
  predicate TemplateApplies(env: Env, t: string, del: bool, namespace: string, kubeconfigs: seq<Kubeconfig>) {
    AllSucceed(env, ManifestRequest(t, del, namespace), kubeconfigs)
  }

  /** What the clusters answer while one manifest is applied, and the order its goroutines
      finish in. Every manifest is applied by a fan-out of its own, which builds its
      clients afresh, so each has its own answers. */
  datatype Round = Round(env: Env, completion: seq<Kubeconfig>)

  /** One round per manifest, each finishing in a rearrangement of the kubeconfigs. */
  predicate Schedules(rounds: seq<Round>, templates: seq<string>, kubeconfigs: seq<Kubeconfig>) {
    |rounds| == |templates| && forall i :: 0 <= i < |rounds| ==> Rearranges(rounds[i].completion, kubeconfigs)
  }

  /** The index of the first manifest some cluster rejects in its round, or the number of
      manifests when every cluster accepts all of them. */
  function FirstFailure(rounds: seq<Round>, templates: seq<string>, del: bool, namespace: string,
                        kubeconfigs: seq<Kubeconfig>): (j: nat)
    requires |rounds| == |templates|
    ensures j <= |templates|
    ensures forall i :: 0 <= i < j ==> TemplateApplies(rounds[i].env, templates[i], del, namespace, kubeconfigs)
    ensures j < |templates| ==> !TemplateApplies(rounds[j].env, templates[j], del, namespace, kubeconfigs)
  {
    if templates == [] then 0
    else if !TemplateApplies(rounds[0].env, templates[0], del, namespace, kubeconfigs) then 0
    else 1 + FirstFailure(rounds[1..], templates[1..], del, namespace, kubeconfigs)
  }

  /** A manifest that fails, when no earlier one failed, is the first failure. */
  lemma FirstFailureAt(rounds: seq<Round>, templates: seq<string>, del: bool, namespace: string,
                       kubeconfigs: seq<Kubeconfig>, i: nat)
    requires |rounds| == |templates| && i < |templates|
    requires i <= FirstFailure(rounds, templates, del, namespace, kubeconfigs)
    requires !TemplateApplies(rounds[i].env, templates[i], del, namespace, kubeconfigs)
    ensures FirstFailure(rounds, templates, del, namespace, kubeconfigs) == i
  {
  }

  /** A manifest that applies, after all earlier ones applied, is not the first failure. */
  lemma FirstFailureBeyond(rounds: seq<Round>, templates: seq<string>, del: bool, namespace: string,
                           kubeconfigs: seq<Kubeconfig>, i: nat)
    requires |rounds| == |templates| && i < |templates|
    requires i <= FirstFailure(rounds, templates, del, namespace, kubeconfigs)
    requires TemplateApplies(rounds[i].env, templates[i], del, namespace, kubeconfigs)
    ensures i + 1 <= FirstFailure(rounds, templates, del, namespace, kubeconfigs)
  {
  }

  /** Every manifest applies exactly when none is the first failure. */
  lemma NoFailureIffAllApply(rounds: seq<Round>, templates: seq<string>, del: bool, namespace: string,
                             kubeconfigs: seq<Kubeconfig>)
    requires |rounds| == |templates|
    ensures FirstFailure(rounds, templates, del, namespace, kubeconfigs) == |templates| <==>
      forall i :: 0 <= i < |templates| ==> TemplateApplies(rounds[i].env, templates[i], del, namespace, kubeconfigs)
  {
  }

  /** The calls made by applying the first `n` manifests. */
  function CallsThrough(rounds: seq<Round>, templates: seq<string>, del: bool, namespace: string,
                        kubeconfigs: seq<Kubeconfig>, n: nat): seq<Call>
    requires Schedules(rounds, templates, kubeconfigs)
    requires n <= |templates|
  {
    if n == 0 then []
    else
      CallsThrough(rounds, templates, del, namespace, kubeconfigs, n - 1)
      + ApplyManifest(rounds[n - 1].env, templates[n - 1], del, namespace, kubeconfigs, rounds[n - 1].completion).calls
  }

  lemma CallsThroughStep(rounds: seq<Round>, templates: seq<string>, del: bool, namespace: string,
                          kubeconfigs: seq<Kubeconfig>, i: nat)
    requires Schedules(rounds, templates, kubeconfigs)
    requires i < |templates|
    ensures CallsThrough(rounds, templates, del, namespace, kubeconfigs, i + 1)
      == CallsThrough(rounds, templates, del, namespace, kubeconfigs, i)
         + ApplyManifest(rounds[i].env, templates[i], del, namespace, kubeconfigs, rounds[i].completion).calls
  {
  }

  /** The adapter operation: apply the manifests in order, stopping at the first one that
      fails on some cluster. Success is reported as `Installed` whether or not `del` is
      set. */
  method InstallSampleApp(rounds: seq<Round>, del: bool, namespace: string, templates: seq<string>,
                          kubeconfigs: seq<Kubeconfig>) returns (r: Reply)
    requires Schedules(rounds, templates, kubeconfigs)
    ensures r.err.None? <==>
      forall i :: 0 <= i < |templates| ==> TemplateApplies(rounds[i].env, templates[i], del, namespace, kubeconfigs)
    ensures r.err.None? ==> r.status == Installed
    ensures r.err.None? ==> r.calls == CallsThrough(rounds, templates, del, namespace, kubeconfigs, |templates|)
    ensures r.err.Some? ==> r.status == InProgress(del)
    ensures var j := FirstFailure(rounds, templates, del, namespace, kubeconfigs);
      j < |templates| ==> r.err.Some? && r.err.value.ErrSampleApp?
    ensures var j := FirstFailure(rounds, templates, del, namespace, kubeconfigs);
      j < |templates| && r.err.Some? && r.err.value.ErrSampleApp? ==>
        MergeOf(r.err.value.cause, Collect(rounds[j].env, ManifestRequest(templates[j], del, namespace), kubeconfigs))
    ensures var j := FirstFailure(rounds, templates, del, namespace, kubeconfigs);
      j < |templates| ==> r.calls == CallsThrough(rounds, templates, del, namespace, kubeconfigs, j + 1)
    ensures templates == [] ==> r == Reply([], Installed, None)
  {
    var st := InProgress(del);
    var calls: seq<Call> := [];
    var i := 0;
    while i < |templates|
      invariant 0 <= i <= |templates|
      invariant i <= FirstFailure(rounds, templates, del, namespace, kubeconfigs)
      invariant calls == CallsThrough(rounds, templates, del, namespace, kubeconfigs, i)
    {
      var a := ApplyManifest(rounds[i].env, templates[i], del, namespace, kubeconfigs, rounds[i].completion);
      CallsThroughStep(rounds, templates, del, namespace, kubeconfigs, i);
      if a.err.Some? {
        FirstFailureAt(rounds, templates, del, namespace, kubeconfigs, i);
        NoFailureIffAllApply(rounds, templates, del, namespace, kubeconfigs);
        return Reply(calls + a.calls, st, Some(ErrSampleApp(a.err.value)));
      }
      FirstFailureBeyond(rounds, templates, del, namespace, kubeconfigs, i);
      calls := calls + a.calls;
      i := i + 1;
    }
    NoFailureIffAllApply(rounds, templates, del, namespace, kubeconfigs);
    return Reply(calls, Installed, None);
  }
}
