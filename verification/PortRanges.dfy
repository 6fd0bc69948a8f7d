/**
 Sorted lists of port ranges (internal/config/forward.go, internal/vnet/router.go):
 their validation, the containment test, and the binary search over them.
 */
module PortRanges {

  datatype PortRange = PortRange(start: nat, end: nat)

  predicate InRange(port: nat, r: PortRange) { r.start <= port <= r.end }

  /** Some range of the list has the port. */
  ghost predicate Member(port: nat, ranges: seq<PortRange>) {
    exists r <- ranges :: InRange(port, r)
  }

  ghost predicate ValidRange(r: PortRange) { 1 <= r.start <= r.end }

  /** Valid ranges in increasing order, no two sharing a port. */
  ghost predicate Sorted(ranges: seq<PortRange>) {
    && (forall i | 0 <= i < |ranges| :: ValidRange(ranges[i]))
    && (forall i, j | 0 <= i < j < |ranges| :: ranges[i].end < ranges[j].start)
  }

  /** Comparing neighbours is enough for the whole list to be sorted and free of overlaps. */
  method ValidateSortedPortRanges(ranges: seq<PortRange>) returns (ok: bool)
    ensures ok <==> Sorted(ranges)
  {
    var previousEnd := 0;
    for i := 0 to |ranges|
      invariant Sorted(ranges[..i])
      invariant i > 0 ==> previousEnd == ranges[i - 1].end
    {
      var r := ranges[i];
      if r.start == 0 || r.end == 0 || r.start > r.end {
        return false;
      }
      if i > 0 && r.start <= previousEnd {
        return false;
      }
      assert forall k | 0 <= k < i :: ranges[..i][k] == ranges[k] && ranges[k].end <= previousEnd;
      assert ranges[..i + 1] == ranges[..i] + [r];
      previousEnd := r.end;
    }
    assert ranges[..|ranges|] == ranges;
    return true;
  }

  ghost predicate Within(inner: PortRange, outer: PortRange) { outer.start <= inner.start && inner.end <= outer.end }

  /** Every range of the child lies in a single range of the parent. */
  ghost predicate RangesWithin(child: seq<PortRange>, parent: seq<PortRange>) {
    forall c <- child :: exists r <- parent :: Within(c, r)
  }

  method PortRangesAreSubset(child: seq<PortRange>, parent: seq<PortRange>) returns (ok: bool)
    ensures ok <==> RangesWithin(child, parent)
  {
    for i := 0 to |child|
      invariant forall k | 0 <= k < i :: exists r <- parent :: Within(child[k], r)
    {
      var contained := false;
      for j := 0 to |parent|
        invariant !contained && forall k | 0 <= k < j :: !Within(child[i], parent[k])
      {
        if child[i].start >= parent[j].start && child[i].end <= parent[j].end {
          contained := true;
          assert parent[j] in parent && Within(child[i], parent[j]);
          break;
        }
      }
      if !contained {
        assert child[i] in child;
        return false;
      }
    }
    return true;
  }

  lemma WithinMeansMember(child: seq<PortRange>, parent: seq<PortRange>, port: nat)
    requires RangesWithin(child, parent) && Member(port, child)
    ensures Member(port, parent)
  {
    var c :| c in child && InRange(port, c);
    var r :| r in parent && Within(c, r);
    assert InRange(port, r);
  }

  /** Between any two ranges there is a port in neither. */
  ghost predicate Gapped(ranges: seq<PortRange>) {
    forall i, j | 0 <= i < j < |ranges| :: ranges[i].end + 1 < ranges[j].start
  }

  lemma NextPortIsFree(ranges: seq<PortRange>, r: PortRange)
    requires Sorted(ranges) && Gapped(ranges) && r in ranges
    ensures !Member(r.end + 1, ranges)
  {
    var i :| 0 <= i < |ranges| && ranges[i] == r;
    forall next <- ranges ensures !InRange(r.end + 1, next) {
      var j :| 0 <= j < |ranges| && ranges[j] == next;
      if j < i {
        assert ranges[j].end < ranges[i].start;
      } else if i < j {
        assert ranges[i].end + 1 < ranges[j].start;
      }
    }
  }

  /** In a list with gaps an interval of allowed ports lies in one range. */
  lemma IntervalInOneRange(ranges: seq<PortRange>, r: PortRange) returns (outer: PortRange)
    requires Sorted(ranges) && Gapped(ranges) && ValidRange(r)
    requires forall port | r.start <= port <= r.end :: Member(port, ranges)
    ensures outer in ranges && Within(r, outer)
  {
    assert Member(r.start, ranges);
    outer :| outer in ranges && InRange(r.start, outer);
    NextPortIsFree(ranges, outer);
  }

  /** sort.Search on the ends of the ranges: the first range that ends at or after the port. */
  method SearchEnds(ranges: seq<PortRange>, port: nat) returns (index: nat)
    requires Sorted(ranges)
    ensures index <= |ranges|
    ensures forall k | 0 <= k < index :: ranges[k].end < port
    ensures forall k | index <= k < |ranges| :: ranges[k].end >= port
  {
    var i, j := 0, |ranges|;
    while i < j
      invariant 0 <= i <= j <= |ranges|
      invariant forall k | 0 <= k < i :: ranges[k].end < port
      invariant forall k | j <= k < |ranges| :: ranges[k].end >= port
    {
      var h := (i + j) / 2;
      if ranges[h].end < port {
        assert forall k | 0 <= k < h :: ranges[k].end < ranges[h].start <= ranges[h].end;
        i := h + 1;
      } else {
        assert forall k | h < k < |ranges| :: ranges[h].end < ranges[k].start <= ranges[k].end;
        j := h;
      }
    }
    index := i;
  }

  /** On a validated list the binary search decides exactly whether some range has the port. */
  method PortAllowed(ranges: seq<PortRange>, port: nat) returns (allowed: bool)
    requires Sorted(ranges)
    ensures allowed <==> Member(port, ranges)
  {
    var index := SearchEnds(ranges, port);
    allowed := index < |ranges| && port >= ranges[index].start;
    if allowed {
      assert InRange(port, ranges[index]);
    } else {
      forall r <- ranges ensures !InRange(port, r) {
        var k :| 0 <= k < |ranges| && ranges[k] == r;
        if k > index {
          assert ranges[index].end < ranges[k].start;
        }
      }
    }
  }
}
