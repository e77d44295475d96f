/** The client dashboard's request statistics (app/client/page.tsx): one pass over the
    caller's service requests counting all of them and each of accepted, rejected and,
    for any other status, pending. */
module ClientPage {
  import opened Seqs
  import opened Store

  datatype Stats = Stats(total: nat, accepted: nat, rejected: nat, pending: nat)

  predicate IsAccepted(r: ServiceRequest) { r.status == "ACCEPTED" }
  predicate IsRejected(r: ServiceRequest) { r.status == "REJECTED" }
  /** Everything neither accepted nor rejected counts as pending, whatever its status. */
  predicate IsPending(r: ServiceRequest) { !IsAccepted(r) && !IsRejected(r) }

  /** The `stats` reduce: the four counters of the accumulator are bumped in place, once per
      request. */
  method ComputeStats(requests: seq<ServiceRequest>) returns (stats: Stats)
    ensures stats.total == |requests|
    ensures stats.accepted == |Filter(requests, IsAccepted)|
    ensures stats.rejected == |Filter(requests, IsRejected)|
    ensures stats.pending == |Filter(requests, IsPending)|
    ensures stats.accepted + stats.rejected + stats.pending == stats.total
  {
    var total, accepted, rejected, pending := 0, 0, 0, 0;
    var i := 0;
    while i < |requests|
      invariant 0 <= i <= |requests|
      invariant total == i
      invariant accepted == |Filter(requests[..i], IsAccepted)|
      invariant rejected == |Filter(requests[..i], IsRejected)|
      invariant pending == |Filter(requests[..i], IsPending)|
      invariant accepted + rejected + pending == total
    {
      var r := requests[i];
      FilterPrefixStep(requests, i, IsAccepted);
      FilterPrefixStep(requests, i, IsRejected);
      FilterPrefixStep(requests, i, IsPending);
      total := total + 1;
      if r.status == "ACCEPTED" {
        accepted := accepted + 1;
      } else if r.status == "REJECTED" {
        rejected := rejected + 1;
      } else {
        pending := pending + 1;
      }
      i := i + 1;
    }
    assert requests[..i] == requests;
    stats := Stats(total, accepted, rejected, pending);
  }
}
