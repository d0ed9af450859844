/** The per-target fan-out shared by the Helm and the manifest paths: one goroutine per
    kubeconfig builds a client and sends one request; failures are appended to a
    mutex-guarded list; the caller waits for every goroutine.

    The goroutines are modelled by the order in which they append: `completion`, a
    rearrangement of the kubeconfigs chosen by the scheduler. Each goroutine's append is
    atomic under the mutex, so the collected list is the per-target errors read in that
    order. */
module Dispatch {
  import opened Errors
  import opened Cluster

  /** How one target fared. */
  datatype Outcome = Ok | ClientFail | ApplyFail(err: Error)

  /** The outcome of sending `req` to the cluster of `k`. */
  function OutcomeOf(env: Env, req: Request, k: Kubeconfig): Outcome
  {
    match env.newClient(k)
    case Some(_) => ClientFail
    case None =>
      match env.apply(k, req)
      case None => Ok
      case Some(e) => ApplyFail(e)
  }

  /** Every target in `ks` succeeds. */
  predicate AllSucceed(env: Env, req: Request, ks: seq<Kubeconfig>) {
    forall k :: k in ks ==> OutcomeOf(env, req, k).Ok?
  }

  /** The number of entries of `ks` whose target fails. */
  function CountFailing(env: Env, req: Request, ks: seq<Kubeconfig>): nat
  {
    if ks == [] then 0
    else (if OutcomeOf(env, req, ks[0]).Ok? then 0 else 1) + CountFailing(env, req, ks[1..])
  }

  /** No entry fails exactly when every target succeeds. */
  lemma {:induction false} NoneFailing(env: Env, req: Request, ks: seq<Kubeconfig>)
    ensures CountFailing(env, req, ks) == 0 <==> AllSucceed(env, req, ks)
  {
    if ks != [] {
      NoneFailing(env, req, ks[1..]);
      assert ks == [ks[0]] + ks[1..];
    }
  }

  /** Every request in `calls` is `req`, sent through a client that could be built. */
  predicate AppliesOnly(env: Env, req: Request, calls: seq<Call>) {
    forall c :: c in calls && c.Apply? ==> c.request == req && env.newClient(c.kubeconfig).None?
  }

  lemma AppliesOnlyAppend(env: Env, req: Request, a: seq<Call>, b: seq<Call>)
    requires AppliesOnly(env, req, a) && AppliesOnly(env, req, b)
    ensures AppliesOnly(env, req, a + b)
  {
    forall c | c in a + b && c.Apply?
      ensures c.request == req && env.newClient(c.kubeconfig).None?
    {
      assert c in a || c in b;
    }
  }

  /** The calls the goroutine for `k` makes: it builds a client from `k` and, only if
      that succeeds, sends `req` through it once. */
  function AttemptCalls(env: Env, req: Request, k: Kubeconfig): (calls: seq<Call>)
    ensures Connected(calls) == [k]
    ensures AppliesOnly(env, req, calls)
    ensures env.newClient(k).None? <==> Apply(k, req) in calls
  {
    if env.newClient(k).Some? then [Connect(k)]
    else
      var calls := [Connect(k), Apply(k, req)];
      assert calls[1..] == [Apply(k, req)];
      assert calls[1..][1..] == [];
      assert Connected(calls[1..]) == [];
      calls
  }

  /** The goroutine for `k` sends the request through its own client once when the client
      builds, and sends nothing otherwise. */
  lemma AttemptSent(env: Env, req: Request, k: Kubeconfig)
    ensures Sent(AttemptCalls(env, req, k)) == if env.newClient(k).None? then [k] else []
  {
    var calls := AttemptCalls(env, req, k);
    if env.newClient(k).None? {
      assert calls[1..] == [Apply(k, req)];
      assert calls[1..][1..] == [];
      assert Sent(calls[1..]) == [k];
    } else {
      assert calls[1..] == [];
    }
  }

  /** The errors the goroutine for `k` appends: `ErrNilClient` when no client could be built,
      otherwise the error of the request, if any. */
  function AttemptErrors(env: Env, req: Request, k: Kubeconfig): (errs: seq<Error>)
    ensures errs == [] <==> OutcomeOf(env, req, k).Ok?
    ensures OutcomeOf(env, req, k).ClientFail? ==> errs == [ErrNilClient]
    ensures OutcomeOf(env, req, k).ApplyFail? ==> errs == [OutcomeOf(env, req, k).err]
  {
    if env.newClient(k).Some? then [ErrNilClient]
    else
      match env.apply(k, req)
      case None => []
      case Some(e) => [e]
  }

  /** The entries of `ks` whose client can be built, in order: the targets `req` is sent
      to. Which clients build does not depend on the request, so `req` plays no part. */
  function Buildable(env: Env, req: Request, ks: seq<Kubeconfig>): seq<Kubeconfig>
  {
    if ks == [] then []
    else (if env.newClient(ks[0]).None? then [ks[0]] else []) + Buildable(env, req, ks[1..])
  }

  /** `Buildable` keeps every entry whose client builds, as often as it occurs, and
      nothing else. */
  lemma {:induction false} BuildableCount(env: Env, req: Request, ks: seq<Kubeconfig>, k: Kubeconfig)
    ensures multiset(Buildable(env, req, ks))[k] ==
      if env.newClient(k).None? then multiset(ks)[k] else 0
  {
    if ks != [] {
      BuildableCount(env, req, ks[1..], k);
      assert ks == [ks[0]] + ks[1..];
      assert multiset(ks) == multiset{ks[0]} + multiset(ks[1..]);
    }
  }

  /** The targets sent to do not depend on the order the goroutines finish in, up to
      the order of the list. */
  lemma BuildablePermutation(env: Env, req: Request, a: seq<Kubeconfig>, b: seq<Kubeconfig>)
    requires multiset(a) == multiset(b)
    ensures multiset(Buildable(env, req, a)) == multiset(Buildable(env, req, b))
  {
    forall k
      ensures multiset(Buildable(env, req, a))[k] == multiset(Buildable(env, req, b))[k]
    {
      BuildableCount(env, req, a, k);
      BuildableCount(env, req, b, k);
    }
  }

  /** The calls of the goroutines for `order`. */
  function Trace(env: Env, req: Request, order: seq<Kubeconfig>): (calls: seq<Call>)
    ensures Connected(calls) == order
    ensures AppliesOnly(env, req, calls)
  {
    if order == [] then []
    else
      var first := AttemptCalls(env, req, order[0]);
      var rest := Trace(env, req, order[1..]);
      assert Connected(first + rest) == order by {
        ConnectedAppend(first, rest);
        assert order == [order[0]] + order[1..];
      }
      AppliesOnlyAppend(env, req, first, rest);
      first + rest
  }

  /** The goroutines for `order` send the request exactly to the entries whose client
      builds, once for each, in that order. */
  lemma {:induction false} TraceSent(env: Env, req: Request, order: seq<Kubeconfig>)
    ensures Sent(Trace(env, req, order)) == Buildable(env, req, order)
  {
    if order != [] {
      TraceSent(env, req, order[1..]);
      AttemptSent(env, req, order[0]);
      SentAppend(AttemptCalls(env, req, order[0]), Trace(env, req, order[1..]));
    }
  }

  /** The errors appended when the goroutines for `order` append one after another in
      that order. */
  function Collect(env: Env, req: Request, order: seq<Kubeconfig>): (errs: seq<Error>)
    ensures |errs| == CountFailing(env, req, order)
  {
    if order == [] then []
    else
      assert order == [order[0]] + order[1..];
      AttemptErrors(env, req, order[0]) + Collect(env, req, order[1..])
  }

  lemma {:induction false} CollectAppend(env: Env, req: Request, a: seq<Kubeconfig>, b: seq<Kubeconfig>)
    ensures Collect(env, req, a + b) == Collect(env, req, a) + Collect(env, req, b)
  {
    if a == [] {
      assert a + b == b;
    } else {
      var ab := a + b;
      assert ab[0] == a[0];
      assert ab[1..] == a[1..] + b;
      CollectAppend(env, req, a[1..], b);
    }
  }

  /** Taking the goroutine at position `j` out of an order takes exactly its errors out of
      the collected ones. */
  lemma CollectAround(env: Env, req: Request, b: seq<Kubeconfig>, j: nat)
    requires j < |b|
    ensures multiset(Collect(env, req, b))
      == multiset(Collect(env, req, b[..j] + b[j + 1..])) + multiset(Collect(env, req, [b[j]]))
  {
    var l, x, r := b[..j], b[j], b[j + 1..];
    assert b == (l + [x]) + r;
    CollectAppend(env, req, l + [x], r);
    CollectAppend(env, req, l, [x]);
    CollectAppend(env, req, l, r);
  }

  /** Removing the same element from two rearrangements of each other leaves
      rearrangements of each other. */
  lemma RemoveMatching(a: seq<Kubeconfig>, b: seq<Kubeconfig>, j: nat)
    requires multiset(a) == multiset(b)
    requires |a| > 0 && j < |b| && b[j] == a[0]
    ensures multiset(a[1..]) == multiset(b[..j] + b[j + 1..])
  {
    var x := a[0];
    assert multiset(a) == multiset{x} + multiset(a[1..]) by {
      assert a == [x] + a[1..];
    }
    assert multiset(b) == multiset(b[..j]) + multiset{x} + multiset(b[j + 1..]) by {
      assert b == b[..j] + [x] + b[j + 1..];
    }
    assert multiset(b[..j] + b[j + 1..]) == multiset(b[..j]) + multiset(b[j + 1..]);
    assert multiset(a[1..]) == multiset(a) - multiset{x};
    assert multiset(b[..j] + b[j + 1..]) == multiset(b) - multiset{x};
  }

  lemma CollectCons(env: Env, req: Request, a: seq<Kubeconfig>)
    requires |a| > 0
    ensures multiset(Collect(env, req, a)) == multiset(Collect(env, req, [a[0]])) + multiset(Collect(env, req, a[1..]))
  {
    assert a == [a[0]] + a[1..];
    CollectAppend(env, req, [a[0]], a[1..]);
  }

  /** The errors collected do not depend on the order the goroutines finish in, up to
      the order of the list. */
  lemma {:induction false} CollectPermutation(env: Env, req: Request, a: seq<Kubeconfig>, b: seq<Kubeconfig>)
    requires multiset(a) == multiset(b)
    ensures multiset(Collect(env, req, a)) == multiset(Collect(env, req, b))
    decreases |a|
  {
    if a == [] {
      assert |b| == |multiset(b)| == 0;
    } else {
      assert a[0] in multiset(b);
      var j :| 0 <= j < |b| && b[j] == a[0];
      RemoveMatching(a, b, j);
      CollectPermutation(env, req, a[1..], b[..j] + b[j + 1..]);
      CollectCons(env, req, a);
      CollectAround(env, req, b, j);
    }
  }

  /** A rearrangement of the kubeconfigs: the order in which their goroutines append. */
  predicate Rearranges(completion: seq<Kubeconfig>, ks: seq<Kubeconfig>) {
    multiset(completion) == multiset(ks)
  }

  /** The calls made and the errors collected by one fan-out. */
  datatype Run = Run(calls: seq<Call>, errs: seq<Error>)

  /** The concurrent fan-out of `req` over `ks`, with goroutines appending in the order
      `completion`. */
  function FanOut(env: Env, req: Request, ks: seq<Kubeconfig>, completion: seq<Kubeconfig>): (run: Run)
    requires Rearranges(completion, ks)
    ensures multiset(run.errs) == multiset(Collect(env, req, ks))
    ensures |run.errs| == CountFailing(env, req, ks)
    ensures run.errs == [] <==> AllSucceed(env, req, ks)
    ensures multiset(Connected(run.calls)) == multiset(ks)
    ensures multiset(Sent(run.calls)) == multiset(Buildable(env, req, ks))
    ensures AppliesOnly(env, req, run.calls)
  {
    CollectPermutation(env, req, completion, ks);
    TraceSent(env, req, completion);
    BuildablePermutation(env, req, completion, ks);
    NoneFailing(env, req, ks);
    var errs := Collect(env, req, completion);
    assert |errs| == |multiset(errs)| == |multiset(Collect(env, req, ks))| == |Collect(env, req, ks)|;
    Run(Trace(env, req, completion), errs)
  }

  /** What an apply routine returns, a possibly nil error, together with the calls it made
      to the clusters. */
  datatype Applied = Applied(calls: seq<Call>, err: Option<Error>)
}
