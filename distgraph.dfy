/** The distributed graph of distgraph.hpp: global vertex and edge counts,
    a local graph allocated once, and the partition table `parts`, a
    boundary array b[0..P] where process p owns the vertex ids [b[p], b[p+1]).
 */
module DistGraphs {

  datatype Option<T> = None | Some(value: T)

  /** The per-process local graph, kept opaque: only the vertex and edge
      counts it was built with. */
  datatype Graph = Graph(numVertices: int, numEdges: int)

  predicate Sorted(s: seq<int>)
  {
    forall i, j :: 0 <= i <= j < |s| ==> s[i] <= s[j]
  }

  /** A partition table for P >= 1 processes: P+1 non-decreasing boundaries
      running from 0 to the global vertex count. Ranges may be empty. */
  predicate ValidTable(parts: seq<int>, totalNumVertices: int)
  {
    |parts| >= 2 && parts[0] == 0 && parts[|parts| - 1] == totalNumVertices && Sorted(parts)
  }

  /** What std::upper_bound computes, written as a linear scan: the index of
      the first boundary greater than v, or |s| when there is none. */
  function UpperBound(s: seq<int>, v: int): (r: nat)
    ensures r <= |s|
    ensures forall k :: 0 <= k < r ==> s[k] <= v
    ensures r < |s| ==> v < s[r]
    ensures Sorted(s) ==> forall k :: r <= k < |s| ==> v < s[k]
  {
    if s == [] || v < s[0] then 0 else 1 + UpperBound(s[1..], v)
  }

  /** Any split point of s around v is the upper bound, so a binary search
      that finds one agrees with the linear scan. */
  lemma UpperBoundUnique(s: seq<int>, v: int, i: nat)
    requires i <= |s|
    requires forall k :: 0 <= k < i ==> s[k] <= v
    requires i < |s| ==> v < s[i]
    ensures UpperBound(s, v) == i
  {
  }

  /** The upper bound is the end of a sorted, non-empty table exactly when
      v is at least the last boundary: the condition the debug build's
      `iter != parts->end()` assertion rejects. */
  lemma UpperBoundAtEnd(s: seq<int>, v: int)
    requires Sorted(s) && |s| > 0
    ensures UpperBound(s, v) == |s| <==> s[|s| - 1] <= v
  {
  }

  /** The owner of vertex v under a valid table: one less than the upper
      bound, and its range contains v. */
  function Owner(parts: seq<int>, totalNumVertices: int, v: int): (p: nat)
    requires ValidTable(parts, totalNumVertices) && 0 <= v < totalNumVertices
    ensures p < |parts| - 1 && parts[p] <= v < parts[p + 1]
  {
    UpperBound(parts, v) - 1
  }

  /** Ownership is exactly range membership: under a valid table the owner of
      v is p if and only if b[p] <= v < b[p+1]. An empty range therefore owns
      no vertex. */
  lemma OwnerIffInRange(parts: seq<int>, totalNumVertices: int, v: int, p: int)
    requires ValidTable(parts, totalNumVertices) && 0 <= v < totalNumVertices
    requires 0 <= p < |parts| - 1
    ensures Owner(parts, totalNumVertices, v) == p <==> parts[p] <= v < parts[p + 1]
  {
  }

  /** A rank whose range is empty is never the owner of any vertex. */
  lemma EmptyRangeOwnsNothing(parts: seq<int>, totalNumVertices: int, v: int, p: int)
    requires ValidTable(parts, totalNumVertices) && 0 <= v < totalNumVertices
    requires 0 <= p < |parts| - 1 && parts[p] == parts[p + 1]
    ensures Owner(parts, totalNumVertices, v) != p
  {
    OwnerIffInRange(parts, totalNumVertices, v, p);
  }

  class DistGraph {
    var totalNumVertices: int
    var totalNumEdges: int
    /** The local graph pointer; None while it is still null. */
    var localGraph: Option<Graph>
    /** The partition table pointer; null until the local graph is created. */
    var parts: array?<int>

    /** The table is present and is a valid partition of the global vertices. */
    predicate Partitioned()
      reads this, parts
    {
      parts != null && ValidTable(parts[..], totalNumVertices)
    }

    /** Construction with the global counts; no local graph, no table yet. */
    constructor (tnv: int, tne: int)
      ensures GetTotalNumVertices() == tnv && GetTotalNumEdges() == tne
      ensures localGraph == None && parts == null
    {
      totalNumVertices := tnv;
      totalNumEdges := tne;
      localGraph := None;
      parts := null;
    }

    /** The copy constructor dereferences both pointers of `other`, so both
        must be set; the copy owns a fresh table with the same contents. */
    constructor Copy(other: DistGraph)
      requires other.localGraph.Some? && other.parts != null
      ensures GetTotalNumVertices() == other.GetTotalNumVertices()
      ensures GetTotalNumEdges() == other.GetTotalNumEdges()
      ensures localGraph.Some? && GetLocalGraph() == other.GetLocalGraph()
      ensures parts != null && fresh(parts) && parts[..] == other.parts[..]
    {
      totalNumVertices := other.totalNumVertices;
      totalNumEdges := other.totalNumEdges;
      localGraph := other.localGraph;
      var src := other.parts;
      parts := new int[src.Length](i reads src => if 0 <= i < src.Length then src[i] else 0);
    }

    /** The global vertex count; under a valid table it is the last
        boundary, so it is never negative. */
    function GetTotalNumVertices(): (n: int)
      reads this, parts
      ensures Partitioned() ==> 0 <= n && n == parts[parts.Length - 1]
    {
      totalNumVertices
    }

    /** The global edge count, as last set by construction or SetNumEdges. */
    function GetTotalNumEdges(): int
      reads this
    {
      totalNumEdges
    }

    /** Allocates the local graph once and takes a copy of the table that
        `oparts` points to (a non-null reference: it is dereferenced). */
    method CreateLocalGraph(lnv: int, lne: int, oparts: array<int>)
      requires localGraph == None
      modifies this
      ensures localGraph.Some? && GetLocalGraph() == Graph(lnv, lne)
      ensures parts != null && fresh(parts) && parts[..] == oparts[..]
      ensures GetTotalNumVertices() == old(GetTotalNumVertices()) && GetTotalNumEdges() == old(GetTotalNumEdges())
    {
      localGraph := Some(Graph(lnv, lne));
      parts := new int[oparts.Length](i reads oparts => if 0 <= i < oparts.Length then oparts[i] else 0);
    }

    /** The local graph; the debug build asserts that it exists. */
    function GetLocalGraph(): (g: Graph)
      reads this
      requires localGraph.Some?
      ensures Some(g) == localGraph
    {
      localGraph.value
    }

    /** Corrects the global edge count; nothing else changes. */
    method SetNumEdges(numEdges: int)
      modifies this
      ensures GetTotalNumEdges() == numEdges
      ensures localGraph == old(localGraph) && parts == old(parts)
      ensures GetTotalNumVertices() == old(GetTotalNumVertices())
      ensures parts != null ==> parts[..] == old(parts[..])
    {
      totalNumEdges := numEdges;
    }

    /** First vertex owned by rank `me`. */
    function GetBase(me: int): (b: int)
      reads this, parts
      requires parts != null && 0 <= me < parts.Length
      ensures Partitioned() ==> 0 <= b <= totalNumVertices
      ensures Partitioned() && me == 0 ==> b == 0
    {
      parts[me]
    }

    /** One past the last vertex owned by rank `me`: the base of rank me+1. */
    function GetBound(me: int): (b: int)
      reads this, parts
      requires parts != null && 0 <= me + 1 < parts.Length
      ensures b == GetBase(me + 1)
      ensures Partitioned() && 0 <= me ==> GetBase(me) <= b
      ensures Partitioned() && me + 2 == parts.Length ==> b == totalNumVertices
    {
      parts[me + 1]
    }

    /** The rank owning vertex v: upper bound over `parts`, minus one, found
        by binary search. The requires are the debug build's two assertions
        plus the sortedness std::upper_bound demands of its range. */
    method GetOwner(v: int) returns (owner: int)
      requires parts != null && Sorted(parts[..])
      requires 0 <= v < GetTotalNumVertices()
      requires 0 < parts.Length && v < parts[parts.Length - 1]
      ensures owner == UpperBound(parts[..], v) - 1
      ensures -1 <= owner < parts.Length - 1 && v < GetBound(owner)
      ensures 0 <= owner ==> GetBase(owner) <= v
      ensures Partitioned() ==> 0 <= owner && owner == Owner(parts[..], totalNumVertices, v)
    {
      var lo, hi := 0, parts.Length;
      while lo < hi
        invariant 0 <= lo <= hi <= parts.Length
        invariant forall k :: 0 <= k < lo ==> parts[k] <= v
        invariant forall k :: hi <= k < parts.Length ==> v < parts[k]
      {
        var mid := lo + (hi - lo) / 2;
        if parts[mid] <= v {
          lo := mid + 1;
        } else {
          hi := mid;
        }
      }
      UpperBoundUnique(parts[..], v, lo);
      owner := lo - 1;
    }
  }
}
