# Vite partition table and community-map update, in Dafny

This project models two sequential pieces of Vite, a distributed-memory
graph-clustering code (Louvain method over MPI).

- **The distributed graph object** (`distgraph.hpp`, module `DistGraphs`).
  A `DistGraph` holds:
  - the global vertex count;
  - the global edge count, which `setNumEdges` can correct later;
  - a local graph, allocated once by `createLocalGraph`;
  - the partition table `parts`. This is a boundary array b[0..P] where
    rank p owns the vertex ids [b[p], b[p+1]).

  The class keeps the source's pointers. `parts` is an `array?<int>` that is
  null until `createLocalGraph` runs. The local graph is an `Option` of an
  opaque `Graph(numVertices, numEdges)` record. `getBase` and `getBound` read
  b[me] and b[me+1]. `getOwner` is `std::upper_bound(parts) - 1`. Here it is a
  binary-search loop, proved equal to a linear-scan definition of the upper
  bound (`UpperBound`). Under a valid table (b[0] = 0, b[P] = total vertex
  count, non-decreasing, empty ranges allowed), that owner is the unique rank
  whose range holds the vertex.

- **The root's community-map update** (`main.cpp` lines 412-440, module
  `CommunityMap`). After each phase, the root writes the next level's
  communities `cvectAll` back onto the original vertices in `commAll`.
  - In phase 0 it is a `std::copy`.
  - In later phases it is a nested in-place loop with an `updated` flag
    array and a counter k.

  The loop is proved equal to a closed-form map, `Relabelled`. A "group" is
  the set of vertices that carry one label before the update. Its "leader" is
  the group's first vertex. Each vertex receives `cvectAll[PairedGroupsBefore(leader)]`:
  the number of groups of two or more vertices whose leaders come earlier.
  This keeps the source's quirk. A group leader whose label no later vertex
  shares takes `cvectAll[k]` without advancing k. When another group leader
  follows, that leader reads the same index, so the lone vertex ends up with
  the label of the whole next group (`LoneLeaderSharesNextIndex`,
  `LoneLeaderMergesWithNextGroup`). The last vertex of a larger group also has
  no later partner, but its leader relabels it and k advances, so this applies
  to leaders only.

- **The threshold schedule** (`main.cpp` lines 226-240 and 470-471, module
  `ThresholdSchedule`). A threshold 1.0E-e is represented by its exponent e.
  - With threshold scaling on and more than one phase, `short_phase` wraps to
    0 past 12. The value picks exponent 3, 4, 5 or 6 by band.
  - Otherwise the exponent is always 6.

  Over a run, phase n uses `short_phase == n % 13` and the band of that value.

Checks the source leaves to the debug build, or to the caller, are
preconditions of the model:
- `getOwner`'s range check on v and its `iter != parts->end()` check are
  debug-only `assert`s (distgraph.hpp:228-234). `createLocalGraph`'s check
  that no local graph exists yet is one too (distgraph.hpp:178-180).
- `getBase` and `getBound` use `parts->at(me)` and `parts->at(me + 1)` in the
  debug build, which throw `std::out_of_range` out of bounds, and unchecked
  indexing otherwise (distgraph.hpp:204-220). The model requires the index to
  be in bounds.
- `createLocalGraph`'s `oparts` defaults to `NULL` (distgraph.hpp:81-82), but
  the body dereferences it. The model takes a non-null array.
- `std::upper_bound` needs its range partitioned around v: every element
  <= v before every element > v. The model requires the table to be sorted,
  which implies that for every v.

Other points:
- The copy constructor deep-copies both pointers (distgraph.hpp:112-115), and
  the model gives the copy a fresh table.
- Without a valid table, `getOwner` can return -1 (a vertex below b[0]). Its
  contract states this.
- `getTotalNumVertices`, `getTotalNumEdges` and `getLocalGraph` are plain field
  reads (`GetTotalNumVertices`, `GetTotalNumEdges`, `GetLocalGraph`). The
  constructors', `createLocalGraph`'s, `setNumEdges`' and `getOwner`'s
  contracts are stated through them.

Some helpers have no row in the table below:
- `FirstIndex`, `Leader`, `HasPartner`, `LeadsPair`, `LabelIndex` and
  `FitsLabels` define the groups.
- `Expected`, `Marked`, `Progress` and `PartnerBefore` are the loop
  invariants' vocabulary.
- `SameGroupTest`, `PartnerBeforeStep`, `LeaderStep`, `FollowerStep` and
  `AllVisited` are proof steps of the relabelling loop.

## Model

| member | source | states |
|---|---|---|
| `DistGraphs.UpperBound` | distgraph.hpp:230 | the upper bound of v is at most the table length; every boundary before it is <= v; the boundary at it is > v; on a sorted table every boundary from it on is > v |
| `DistGraphs.UpperBoundUnique` | distgraph.hpp:230 | any index that splits the table into "<= v" before and "> v" at the index equals the upper bound, so a binary search agrees with the linear definition |
| `DistGraphs.UpperBoundAtEnd` | distgraph.hpp:232-234 | on a sorted non-empty table, the upper bound is the end exactly when v >= the last boundary; this is what the `iter != parts->end()` assertion rejects |
| `DistGraphs.Owner` | distgraph.hpp:225-236 | for a valid table and 0 <= v < total vertices, the owner is a rank p < P with b[p] <= v < b[p+1] |
| `DistGraphs.OwnerIffInRange` | distgraph.hpp:225-236 | for a valid table, Owner(v) == p if and only if b[p] <= v < b[p+1], for every rank p; this includes tables with empty ranges |
| `DistGraphs.EmptyRangeOwnsNothing` | distgraph.hpp:225-236 | a rank whose range is empty is never the owner of any vertex |
| `DistGraphs.DistGraph.constructor` | distgraph.hpp:107-110 | stores the vertex and edge totals; no local graph and a null table |
| `DistGraphs.DistGraph.GetTotalNumVertices` | distgraph.hpp:124-125 | the global vertex count; under a valid table it is the last boundary, and so is at least 0 |
| `DistGraphs.DistGraph.GetTotalNumEdges` | distgraph.hpp:127-128 | the global edge count; the constructors, `CreateLocalGraph` and `SetNumEdges` state their effect on it through this read |
| `DistGraphs.DistGraph.Copy` | distgraph.hpp:112-115 | needs both pointers of the original set; gives equal totals and an equal local graph, plus a freshly allocated table with the same contents |
| `DistGraphs.DistGraph.CreateLocalGraph` | distgraph.hpp:175-184 | needs no local graph yet and a non-null table; afterwards the local graph is (lnv, lne), the table is a fresh copy of `*oparts`, and the totals are unchanged |
| `DistGraphs.DistGraph.GetLocalGraph` | distgraph.hpp:186-202 | returns the allocated local graph; needs it to exist (the debug assertion) |
| `DistGraphs.DistGraph.SetNumEdges` | distgraph.hpp:222-223 | the edge total becomes the argument; the vertex total, the local graph and the table (pointer and contents) are unchanged |
| `DistGraphs.DistGraph.GetBase` | distgraph.hpp:204-211 | under a valid table the base of a rank lies in [0, total vertices], and the base of rank 0 is 0 |
| `DistGraphs.DistGraph.GetBound` | distgraph.hpp:213-220 | the bound of rank r is the base of rank r+1; it is at least the base of r; the bound of the last rank is the total vertex count |
| `DistGraphs.DistGraph.GetOwner` | distgraph.hpp:225-236 | the binary search returns upper bound - 1; v < GetBound(owner), and GetBase(owner) <= v when owner >= 0; under a valid table owner >= 0 and equals `Owner(v)`, the unique rank whose range holds v |
| `CommunityMap.PairedGroupsBefore` | main.cpp:417-437 | the value of k when the outer loop reaches vertex f, defined as the number of earlier leaders of groups of two or more vertices; `RelabelLevel`'s loop invariant ties it to the source's `k++`; k never exceeds f |
| `CommunityMap.Relabelled` | main.cpp:417-439 | the relabelled map has one entry per vertex; vertices that shared a label before share one after; every label written is an entry of `cvectAll` |
| `CommunityMap.PairedGroupsMonotone` | main.cpp:436-437 | k never decreases as the outer loop advances |
| `CommunityMap.PairedGroupsSeparated` | main.cpp:421-437 | two different groups of two or more vertices get different indices into `cvectAll` |
| `CommunityMap.PairedGroupsKeepDistinctLabels` | main.cpp:421-437 | when the entries of `cvectAll` are distinct, two different groups of two or more vertices keep different labels after the update |
| `CommunityMap.FitsWhenEnoughLabels` | main.cpp:426-435 | if `cvectAll` has more entries than there are groups of two or more vertices, every `cvectAll[k]` read is in bounds |
| `CommunityMap.SingletonSharesNextLabel` | main.cpp:435-437 | on map [7, 8, 8] with next level [10, 20], the lone vertex 0 takes 10 without advancing k, so the result is [10, 10, 10] |
| `CommunityMap.PairedGroupsFlatOverFollowers` | main.cpp:436-437 | k does not change across vertices that are not group leaders |
| `CommunityMap.LoneLeaderSharesNextIndex` | main.cpp:435-437 | for every map: a group leader with no later partner reads the same index of `cvectAll` as the next group leader |
| `CommunityMap.LoneLeaderMergesWithNextGroup` | main.cpp:421-437 | so after the update that lone leader carries the same label as every vertex of the next group |
| `CommunityMap.CopyFirstLevel` | main.cpp:413-414 | needs `cvectAll.size() <= nv`; the first entries of `commAll` become `cvectAll` and the rest are unchanged |
| `CommunityMap.MarkGroup` | main.cpp:423-433 | the inner loop marks and relabels exactly the later vertices of i's group, all with `cvectAll[k]`; it touches no other vertex, so no vertex is marked twice; i is marked exactly when it has a partner |
| `CommunityMap.VisitLeader` | main.cpp:421-438 | for a vertex not yet updated: after the inner loop and `commAll[i] = cvectAll[k]`, k equals the paired-group count up to i+1; the flags and the map match the loop state at i+1 |
| `CommunityMap.RelabelLevel` | main.cpp:417-439 | needs every `cvectAll[k]` read to be in bounds; afterwards `commAll` equals `Relabelled(old commAll, cvectAll)` |
| `CommunityMap.UpdateCommunityMap` | main.cpp:412-440 | phase 0 copies `cvectAll` onto the start of `commAll`; later phases relabel |
| `ThresholdSchedule.SelectThreshold` | main.cpp:226-240 | scaling and multi-phase: `short_phase` > 12 resets to 0, and a value in 0..12 selects the band exponent `BANDS[short_phase]`; a negative value keeps the previous threshold; otherwise the exponent is 6 and `short_phase` is untouched |
| `ThresholdSchedule.PhaseSelection` | main.cpp:470-471 | the selection of main.cpp:226-240 at the top of phase n, with `short_phase++` after each phase when scaling is on: with scaling and multi-phase `short_phase` stays in 0..12 and the exponent is its band; otherwise the exponent is 6 |
| `ThresholdSchedule.ScalingFollowsBands` | main.cpp:226-240 | with scaling and multi-phase, phase n (after n per-phase increments) runs with `short_phase == n % 13` and exponent `BANDS[n % 13]`; the unset initial threshold is never used |
| `ThresholdSchedule.NoScalingKeepsFinest` | main.cpp:470-471 | with scaling off or a single-phase run, `short_phase` never advances from 0 and every phase uses exponent 6 |
| `ThresholdSchedule.BandsNonDecreasing` | main.cpp:230-237 | within a cycle the exponent never decreases, so the threshold never grows |

## Left out

- MPI (initialisation, barriers, reductions, `MPI_Abort`, datatype setup) is
  process coordination, not sequential logic. Neither part needs it.
- `DistGraph::printStats` is left out. It is built on collective reductions,
  floating-point mean, variance and `sqrt`, and console output.
- `balanceEdges`, `loadDistGraphMPIIO` and `loadDistGraphMPIIOBalanced` are
  only declared in `distgraph.hpp`. Their bodies are not part of this model,
  so the edge balancing and parallel loading are not modelled.
- The default constructor and assignment operator (protected) are not
  modelled. Neither is the destructor: memory release has no counterpart in
  Dafny.
- The internals of `Graph` are not modelled. It is the opaque pair (vertex
  count, edge count).
- `GraphElem` is a 64-bit integer in the source. The model uses unbounded
  `int`, because no arithmetic on it can overflow here except `me + 1` and
  the iterator difference, both at most the table length.
- The rest of `main` is left out: the Louvain, coloring and rebuild calls,
  `gatherAllComm`, `compare_communities`, and the floating-point modularity
  test and timing. So are file I/O (ground truth, the `.communities` output,
  diagnostic streams) and `parseCommandLine`. These are calls into code
  outside this model, or I/O.
- `CommunityMap.UpdateCommunityMap` receives `cvectAll` as a parameter; the
  gather that fills it is a collective call. `commAll` is the array the
  driver resized to `nv` entries.
- `ThresholdSchedule.PhaseSelection` models only the `short_phase` and
  threshold updates of the phase loop. It leaves out when the loop stops (the
  modularity test, `TERMINATION_PHASE_COUNT`, the iteration cap).
