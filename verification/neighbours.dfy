/** The working set of discovered neighbours: an ordered list of responders. */
module Neighbours {
  import opened Wrappers
  import opened Messages

  /** No responder appears twice. */
  predicate NoDuplicates(ns: seq<Option<NodeId>>) {
    forall i, j :: 0 <= i < j < |ns| ==> ns[i] != ns[j]
  }

  /** Records responder `x`: appended when absent, otherwise nothing changes. */
  function Recorded(ns: seq<Option<NodeId>>, x: Option<NodeId>): (r: seq<Option<NodeId>>)
    ensures forall y :: y in r <==> y in ns || y == x
    ensures NoDuplicates(ns) ==> NoDuplicates(r)
    ensures |r| == |ns| + (if x in ns then 0 else 1)
    ensures r[..|ns|] == ns
  {
    if x in ns then ns else ns + [x]
  }
}
