/** Errors the adapter reports, and the optional error a Go function returns.
    The error helpers of the adapter (ErrNilClient, ErrMeshConfig, ErrApplyHelmChart,
    ErrSampleApp, mergeErrors) are modelled as constructors: their message formatting is
    opaque, only which error wraps which matters. */
module Errors {

  /** A Go `error` that may be nil: `None` is nil. */
  datatype Option<+T> = None | Some(value: T)

  datatype Error =
    | ErrNilClient                     // a kubeconfig did not yield a client
    | Remote(detail: string)           // an error returned verbatim by a cluster or the config store
    | ErrMeshConfig(cause: Error)
    | ErrApplyHelmChart(cause: Error)
    | ErrSampleApp(cause: Error)
    | Merged(parts: seq<Error>)        // mergeErrors(errs)

  /** `e` is a merge of exactly the errors `errs`, in some order. */
  predicate MergeOf(e: Error, errs: seq<Error>) {
    e.Merged? && multiset(e.parts) == multiset(errs)
  }
}
