/** The lifecycle status values an adapter operation reports. */
module Lifecycle {
  import opened Errors
  import opened Cluster

  datatype Status = Installing | Installed | Removing | Removed

  /** The operation has been accepted but has not completed. */
  predicate InFlight(s: Status) {
    s.Installing? || s.Removing?
  }

  /** The status belongs to a removal rather than an installation. */
  predicate Deleting(s: Status) {
    s.Removing? || s.Removed?
  }

  /** The status reported while a request is being carried out. */
  function InProgress(del: bool): (s: Status)
    ensures InFlight(s)
    ensures Deleting(s) <==> del
  {
    if del then Removing else Installing
  }

  /** The status reported once a request has been carried out. */
  function Done(del: bool): (s: Status)
    ensures !InFlight(s)
    ensures Deleting(s) <==> del
  {
    if del then Removed else Installed
  }

  /** A status is determined by whether it is in flight and whether it deletes, so
      `InProgress` and `Done` are the only statuses with their characterisations. */
  lemma StatusDeterminedByKind(s: Status, t: Status)
    requires InFlight(s) == InFlight(t)
    requires Deleting(s) == Deleting(t)
    ensures s == t
  {
  }

  /** What an adapter operation returns, `(status, err)`, together with the calls it made
      to the clusters. */
  datatype Reply = Reply(calls: seq<Call>, status: Status, err: Option<Error>)
}
