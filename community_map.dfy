/** The root's per-level update of the global community map (main.cpp):
    after each coarsening phase, the communities of the next level's vertices
    (`cvectAll`) are pushed back onto the original vertices (`commAll`).

    A label group is the set of vertices that share a `commAll` label before
    the update; its leader is its first vertex. Groups are visited in leader
    order and each takes the entry of `cvectAll` at a running index k, which
    advances only after a group with two or more vertices.
 */
module CommunityMap {

  /** Index of the first occurrence of x in s. */
  function FirstIndex(s: seq<int>, x: int): (r: nat)
    requires x in s
    ensures r < |s| && s[r] == x
    ensures forall q :: 0 <= q < r ==> s[q] != x
  {
    if s[0] == x then 0 else 1 + FirstIndex(s[1..], x)
  }

  /** The first vertex carrying the label of vertex q. */
  function Leader(c: seq<int>, q: nat): (l: nat)
    requires q < |c|
    ensures l <= q && c[l] == c[q]
    ensures forall p :: 0 <= p < l ==> c[p] != c[q]
  {
    FirstIndex(c, c[q])
  }

  /** Some later vertex carries the same label as q. */
  predicate HasPartner(c: seq<int>, q: nat)
    requires q < |c|
  {
    exists j :: q < j < |c| && c[j] == c[q]
  }

  /** Vertex q leads a group of at least two vertices. */
  predicate LeadsPair(c: seq<int>, q: nat)
    requires q < |c|
  {
    Leader(c, q) == q && HasPartner(c, q)
  }

  /** The value of the counter k when the outer loop reaches vertex f: the
      number of groups of two or more vertices whose leaders precede f. */
  function PairedGroupsBefore(c: seq<int>, f: nat): (k: nat)
    requires f <= |c|
    ensures k <= f
  {
    if f == 0 then 0
    else PairedGroupsBefore(c, f - 1) + (if LeadsPair(c, f - 1) then 1 else 0)
  }

  /** The index into `cvectAll` that vertex q's group receives. */
  function LabelIndex(c: seq<int>, q: nat): nat
    requires q < |c|
  {
    PairedGroupsBefore(c, Leader(c, q))
  }

  /** Every index the update reads lies inside `cvectAll`: the source's
      unchecked `cvectAll[k]`. */
  predicate FitsLabels(c: seq<int>, cv: seq<int>)
  {
    forall q :: 0 <= q < |c| ==> LabelIndex(c, q) < |cv|
  }

  /** The map the update produces from the old map c and the next level's
      communities cv. It depends on a vertex only through its old label, and
      every label it writes comes from cv. */
  function Relabelled(c: seq<int>, cv: seq<int>): (r: seq<int>)
    requires FitsLabels(c, cv)
    ensures |r| == |c|
    ensures forall p, q :: 0 <= p < |c| && 0 <= q < |c| && c[p] == c[q] ==> r[p] == r[q]
    ensures forall q :: 0 <= q < |c| ==> r[q] in cv
  {
    seq(|c|, q requires 0 <= q < |c| => cv[LabelIndex(c, q)])
  }

  lemma {:induction false} PairedGroupsMonotone(c: seq<int>, f: nat, g: nat)
    requires f <= g <= |c|
    ensures PairedGroupsBefore(c, f) <= PairedGroupsBefore(c, g)
    decreases g - f
  {
    if f < g {
      PairedGroupsMonotone(c, f, g - 1);
    }
  }

  /** Two different groups of two or more vertices receive different
      indices into `cvectAll`. */
  lemma PairedGroupsSeparated(c: seq<int>, p: nat, q: nat)
    requires p < |c| && q < |c| && c[p] != c[q]
    requires LeadsPair(c, Leader(c, p)) && LeadsPair(c, Leader(c, q))
    ensures LabelIndex(c, p) != LabelIndex(c, q)
  {
    var lp, lq := Leader(c, p), Leader(c, q);
    if lp < lq {
      assert PairedGroupsBefore(c, lp + 1) == LabelIndex(c, p) + 1;
      PairedGroupsMonotone(c, lp + 1, lq);
    } else {
      assert lq < lp;
      assert PairedGroupsBefore(c, lq + 1) == LabelIndex(c, q) + 1;
      PairedGroupsMonotone(c, lq + 1, lp);
    }
  }

  /** So with distinct next-level communities, two such groups keep distinct
      labels after the update. */
  lemma PairedGroupsKeepDistinctLabels(c: seq<int>, cv: seq<int>, p: nat, q: nat)
    requires FitsLabels(c, cv)
    requires p < |c| && q < |c| && c[p] != c[q]
    requires LeadsPair(c, Leader(c, p)) && LeadsPair(c, Leader(c, q))
    requires forall a, b :: 0 <= a < b < |cv| ==> cv[a] != cv[b]
    ensures Relabelled(c, cv)[p] != Relabelled(c, cv)[q]
  {
    PairedGroupsSeparated(c, p, q);
  }

  /** Enough next-level communities for every paired group makes the update
      stay inside `cvectAll`. */
  lemma FitsWhenEnoughLabels(c: seq<int>, cv: seq<int>)
    requires PairedGroupsBefore(c, |c|) < |cv|
    ensures FitsLabels(c, cv)
  {
    forall q | 0 <= q < |c|
      ensures LabelIndex(c, q) < |cv|
    {
      PairedGroupsMonotone(c, Leader(c, q), |c|);
    }
  }

  /** The quirk of the source on a small map: the lone leader 0 takes
      cvectAll[0] without advancing k, and so does the next group. */
  lemma SingletonSharesNextLabel()
    ensures FitsLabels([7, 8, 8], [10, 20])
    ensures Relabelled([7, 8, 8], [10, 20]) == [10, 10, 10]
  {
  }

  /** Across vertices that lead no group, the counter k stays put. */
  lemma {:induction false} PairedGroupsFlatOverFollowers(c: seq<int>, f: nat, g: nat)
    requires f <= g <= |c|
    requires forall q :: f <= q < g ==> Leader(c, q) != q
    ensures PairedGroupsBefore(c, f) == PairedGroupsBefore(c, g)
    decreases g - f
  {
    if f < g {
      PairedGroupsFlatOverFollowers(c, f, g - 1);
    }
  }

  /** The quirk in general: a group leader l that no later vertex shares a
      label with takes cvectAll[k] without advancing k, so the next group
      leader m reads the same index. */
  lemma LoneLeaderSharesNextIndex(c: seq<int>, l: nat, m: nat)
    requires l < m < |c| && Leader(c, l) == l && !HasPartner(c, l) && Leader(c, m) == m
    requires forall q :: l < q < m ==> Leader(c, q) != q
    ensures LabelIndex(c, l) == LabelIndex(c, m)
  {
    PairedGroupsFlatOverFollowers(c, l + 1, m);
  }

  /** So after the update the lone leader carries the label of every vertex
      of the next group. */
  lemma LoneLeaderMergesWithNextGroup(c: seq<int>, cv: seq<int>, l: nat, m: nat, q: nat)
    requires FitsLabels(c, cv)
    requires l < m < |c| && Leader(c, l) == l && !HasPartner(c, l) && Leader(c, m) == m
    requires forall p :: l < p < m ==> Leader(c, p) != p
    requires q < |c| && c[q] == c[m]
    ensures Relabelled(c, cv)[l] == Relabelled(c, cv)[q]
  {
    LoneLeaderSharesNextIndex(c, l, m);
  }

  /** What the outer loop has written once it reaches vertex i: vertices whose
      group leader precedes i hold their new label, all others the old one. */
  ghost function Expected(c: seq<int>, cv: seq<int>, i: nat, q: nat): int
    requires FitsLabels(c, cv) && q < |c|
  {
    if Leader(c, q) < i then cv[LabelIndex(c, q)] else c[q]
  }

  /** The `updated` flag of vertex q once the outer loop reaches vertex i:
      set for the vertices of groups led before i, except for a leader that
      found no partner. */
  ghost predicate Marked(c: seq<int>, i: nat, q: nat)
    requires q < |c|
  {
    Leader(c, q) < i && (Leader(c, q) != q || HasPartner(c, q))
  }

  /** The state of the outer loop when it reaches vertex i: flags u and map m
      as Marked and Expected describe them. */
  ghost predicate Progress(c: seq<int>, cv: seq<int>, i: nat, u: seq<bool>, m: seq<int>)
  {
    FitsLabels(c, cv) && i <= |c| && |u| == |c| && |m| == |c| &&
    (forall q :: 0 <= q < |c| ==> (u[q] <==> Marked(c, i, q))) &&
    (forall q :: 0 <= q < |c| ==> m[q] == Expected(c, cv, i, q))
  }

  /** Phase 0: copy the first level's communities onto the start of the map
      (std::copy into &commAll[0], which needs room for all of them). */
  method CopyFirstLevel(commAll: array<int>, cvectAll: seq<int>)
    requires |cvectAll| <= commAll.Length
    modifies commAll
    ensures commAll[..|cvectAll|] == cvectAll
    ensures commAll[|cvectAll|..] == old(commAll[|cvectAll|..])
  {
    var i := 0;
    while i < |cvectAll|
      invariant 0 <= i <= |cvectAll|
      invariant commAll[..i] == cvectAll[..i]
      invariant commAll[|cvectAll|..] == old(commAll[|cvectAll|..])
    {
      commAll[i] := cvectAll[i];
      i := i + 1;
    }
  }

  /** Inner-loop test: for a leader i and a later vertex j, "same current
      label and not yet updated" holds exactly when j is in i's group. */
  lemma SameGroupTest(c: seq<int>, cv: seq<int>, i: nat, j: nat)
    requires FitsLabels(c, cv) && i < j < |c| && Leader(c, i) == i
    ensures (Expected(c, cv, i, j) == c[i] && !Marked(c, i, j)) <==> c[j] == c[i]
  {
  }

  /** Some vertex strictly between i and j shares i's label. */
  ghost predicate PartnerBefore(c: seq<int>, i: nat, j: nat)
    requires i < |c| && j <= |c|
  {
    exists q :: i < q < j && c[q] == c[i]
  }

  lemma PartnerBeforeStep(c: seq<int>, i: nat, j: nat)
    requires i < j < |c|
    ensures PartnerBefore(c, i, j + 1) <==> PartnerBefore(c, i, j) || c[j] == c[i]
  {
  }

  /** One outer step at a leader i: its whole group takes its new label, and
      the flags of i's group become set (i's own only if it had a partner). */
  lemma LeaderStep(c: seq<int>, cv: seq<int>, i: nat, u: seq<bool>, m: seq<int>)
    requires FitsLabels(c, cv) && i < |c| == |u| == |m| && Leader(c, i) == i
    requires u[i] <==> HasPartner(c, i)
    requires m[i] == cv[LabelIndex(c, i)]
    requires forall q :: 0 <= q < |c| && q != i ==>
      u[q] == (Marked(c, i, q) || (i < q && c[q] == c[i]))
    requires forall q :: 0 <= q < |c| && q != i ==>
      m[q] == if i < q && c[q] == c[i] then cv[LabelIndex(c, i)] else Expected(c, cv, i, q)
    ensures forall q :: 0 <= q < |c| ==> (u[q] <==> Marked(c, i + 1, q))
    ensures forall q :: 0 <= q < |c| ==> m[q] == Expected(c, cv, i + 1, q)
  {
  }

  /** One outer step at a vertex i that is already updated, and so is not a
      leader, changes nothing. */
  lemma FollowerStep(c: seq<int>, cv: seq<int>, i: nat, u: seq<bool>, m: seq<int>)
    requires Progress(c, cv, i, u, m) && i < |c| && u[i]
    ensures Progress(c, cv, i + 1, u, m)
  {
  }

  /** The inner loop for a leader i (main.cpp's loop over j): every later
      vertex that still carries i's label and is not yet updated takes
      cvectAll[k] and is marked, and i is marked if one was found. */
  method MarkGroup(commAll: array<int>, updated: array<bool>, cvectAll: seq<int>,
                   i: nat, k: nat, ghost c: seq<int>)
    requires commAll.Length == updated.Length == |c| && i < |c| && k < |cvectAll|
    requires !updated[i] && commAll[i] == c[i]
    requires forall j :: i < j < |c| ==> ((commAll[j] == commAll[i] && !updated[j]) <==> c[j] == c[i])
    modifies commAll, updated
    ensures commAll[i] == c[i]
    ensures updated[i] <==> HasPartner(c, i)
    ensures forall q :: 0 <= q < |c| && q != i ==>
      updated[q] == (old(updated[q]) || (i < q && c[q] == c[i]))
    ensures forall q :: 0 <= q < |c| && q != i ==>
      commAll[q] == if i < q && c[q] == c[i] then cvectAll[k] else old(commAll[q])
  {
    var nv := commAll.Length;
    var j := i + 1;
    assert !PartnerBefore(c, i, j);
    while j < nv
      invariant i + 1 <= j <= nv
      invariant commAll[i] == c[i]
      invariant updated[i] <==> PartnerBefore(c, i, j)
      invariant forall q :: 0 <= q < nv && q != i ==>
        updated[q] == (old(updated[q]) || (i < q < j && c[q] == c[i]))
      invariant forall q :: 0 <= q < nv && q != i ==>
        commAll[q] == if i < q < j && c[q] == c[i] then cvectAll[k] else old(commAll[q])
    {
      if commAll[i] == commAll[j] && !updated[j] {
        commAll[j] := cvectAll[k];
        updated[j] := true;
        if !updated[i] {
          updated[i] := true;
        }
      }
      PartnerBeforeStep(c, i, j);
      j := j + 1;
    }
  }

  /** Once the outer loop has passed every vertex, the map is the relabelled one. */
  lemma AllVisited(c: seq<int>, cv: seq<int>, u: seq<bool>, m: seq<int>)
    requires Progress(c, cv, |c|, u, m)
    ensures m == Relabelled(c, cv)
  {
  }

  /** The body of the outer loop for a vertex i that is not yet updated, and
      so leads its group: run the inner loop, give i the label cvectAll[k],
      and advance k if i found a partner. */
  method VisitLeader(commAll: array<int>, updated: array<bool>, cvectAll: seq<int>,
                     i: nat, k: nat, ghost c: seq<int>) returns (k': nat)
    requires i < |c| && Progress(c, cvectAll, i, updated[..], commAll[..])
    requires k == PairedGroupsBefore(c, i) && !updated[i]
    modifies commAll, updated
    ensures k' == PairedGroupsBefore(c, i + 1)
    ensures Progress(c, cvectAll, i + 1, updated[..], commAll[..])
  {
    assert Leader(c, i) == i && k == LabelIndex(c, i) < |cvectAll|;
    forall j | i < j < |c|
      ensures (commAll[j] == commAll[i] && !updated[j]) <==> c[j] == c[i]
    {
      SameGroupTest(c, cvectAll, i, j);
    }
    MarkGroup(commAll, updated, cvectAll, i, k, c);
    commAll[i] := cvectAll[k];
    k' := k;
    if updated[i] {
      k' := k + 1;
    }
    LeaderStep(c, cvectAll, i, updated[..], commAll[..]);
  }

  /** Later phases: the nested relabelling loop over `commAll`, with the
      `updated` flags and the counter k. */
  method RelabelLevel(commAll: array<int>, cvectAll: seq<int>)
    requires FitsLabels(commAll[..], cvectAll)
    modifies commAll
    ensures commAll[..] == Relabelled(old(commAll[..]), cvectAll)
  {
    ghost var c := commAll[..];
    var nv := commAll.Length;
    var k := 0;
    var updated := new bool[nv](_ => false);
    var i := 0;
    while i < nv
      invariant 0 <= i <= nv && updated.Length == nv
      invariant k == PairedGroupsBefore(c, i)
      invariant Progress(c, cvectAll, i, updated[..], commAll[..])
    {
      if !updated[i] {
        k := VisitLeader(commAll, updated, cvectAll, i, k, c);
      } else {
        FollowerStep(c, cvectAll, i, updated[..], commAll[..]);
      }
      i := i + 1;
    }
    AllVisited(c, cvectAll, updated[..], commAll[..]);
  }

  /** The update the root performs after each phase. */
  method UpdateCommunityMap(phase: int, commAll: array<int>, cvectAll: seq<int>)
    requires phase == 0 ==> |cvectAll| <= commAll.Length
    requires phase != 0 ==> FitsLabels(commAll[..], cvectAll)
    modifies commAll
    ensures phase == 0 ==> commAll[..|cvectAll|] == cvectAll
    ensures phase == 0 ==> commAll[|cvectAll|..] == old(commAll[|cvectAll|..])
    ensures phase != 0 ==> commAll[..] == Relabelled(old(commAll[..]), cvectAll)
  {
    if phase == 0 {
      CopyFirstLevel(commAll, cvectAll);
    } else {
      RelabelLevel(commAll, cvectAll);
    }
  }
}
