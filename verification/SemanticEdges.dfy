/**
 The semantic-edge backfill (scripts/backfill_semantic_edges.py): deduplication, the incremental
 conflict filter with its bounded frontier search, and the graph property the filter is for.
 */
module SemanticEdges {

  /** A candidate edge: what the filter reads, plus the identity the write path keys it by. */
  datatype Edge = Edge(source: string, target: string, kind: string, edgeId: string)

  const CYCLE_HOP_LIMIT: nat := 3

  // ----- walks

  ghost predicate IsWalk(g: seq<Edge>, p: seq<Edge>) {
    && p != []
    && (forall i | 0 <= i < |p| :: p[i] in g)
    && forall i | 0 <= i < |p| - 1 :: p[i].target == p[i + 1].source
  }

  /** A walk of g with exactly n edges from node a to node b. */
  ghost predicate Joins(g: seq<Edge>, a: string, b: string, p: seq<Edge>) {
    IsWalk(g, p) && p[0].source == a && p[|p| - 1].target == b
  }

  ghost predicate ClosedWalk(g: seq<Edge>, p: seq<Edge>) {
    IsWalk(g, p) && p[|p| - 1].target == p[0].source
  }

  /** Adding e to g would close a directed walk of at most CYCLE_HOP_LIMIT + 1 edges. */
  ghost predicate Closes(g: seq<Edge>, e: Edge) {
    exists p :: |p| <= CYCLE_HOP_LIMIT && Joins(g, e.target, e.source, p)
  }

  predicate Inverse(g: seq<Edge>, e: Edge) {
    exists i | 0 <= i < |g| :: g[i].source == e.target && g[i].target == e.source && g[i].kind == e.kind
  }

  ghost predicate OneEdge(g: seq<Edge>, a: string, b: string) {
    exists x :: x in g && x.source == a && x.target == b
  }

  ghost predicate TwoEdges(g: seq<Edge>, a: string, b: string) {
    exists x :: x in g && x.source == a && OneEdge(g, x.target, b)
  }

  ghost predicate ThreeEdges(g: seq<Edge>, a: string, b: string) {
    exists x :: x in g && x.source == a && TwoEdges(g, x.target, b)
  }

  /** One, two or three consecutive edges lead from one node to another. */
  ghost predicate WayBack(g: seq<Edge>, a: string, b: string) {
    OneEdge(g, a, b) || TwoEdges(g, a, b) || ThreeEdges(g, a, b)
  }

  lemma OneEdgeWalk(g: seq<Edge>, a: string, b: string) returns (p: seq<Edge>)
    requires OneEdge(g, a, b)
    ensures |p| == 1 && Joins(g, a, b, p)
  {
    var x :| x in g && x.source == a && x.target == b;
    p := [x];
  }

  lemma TwoEdgesWalk(g: seq<Edge>, a: string, b: string) returns (p: seq<Edge>)
    requires TwoEdges(g, a, b)
    ensures |p| == 2 && Joins(g, a, b, p)
  {
    var x :| x in g && x.source == a && OneEdge(g, x.target, b);
    var q := OneEdgeWalk(g, x.target, b);
    p := [x] + q;
  }

  lemma ThreeEdgesWalk(g: seq<Edge>, a: string, b: string) returns (p: seq<Edge>)
    requires ThreeEdges(g, a, b)
    ensures |p| == 3 && Joins(g, a, b, p)
  {
    var x :| x in g && x.source == a && TwoEdges(g, x.target, b);
    var q := TwoEdgesWalk(g, x.target, b);
    p := [x] + q;
  }

  lemma WalkIsWayBack(g: seq<Edge>, a: string, b: string, p: seq<Edge>)
    requires Joins(g, a, b, p) && |p| <= 3
    ensures WayBack(g, a, b)
  {
    var last := p[|p| - 1];
    assert last in g && p[0] in g;
    assert OneEdge(g, last.source, b);
    if |p| == 2 {
      assert p[0].target == p[1].source;
    } else if |p| == 3 {
      assert p[1] in g && p[0].target == p[1].source && p[1].target == p[2].source;
      assert TwoEdges(g, p[1].source, b);
    }
  }

  /** What a candidate is refused for. */
  lemma ClosesWritten(g: seq<Edge>, e: Edge)
    ensures Closes(g, e) <==> WayBack(g, e.target, e.source)
  {
    if p :| |p| <= CYCLE_HOP_LIMIT && Joins(g, e.target, e.source, p) {
      WalkIsWayBack(g, e.target, e.source, p);
    }
    if OneEdge(g, e.target, e.source) {
      var p := OneEdgeWalk(g, e.target, e.source);
    } else if TwoEdges(g, e.target, e.source) {
      var p := TwoEdgesWalk(g, e.target, e.source);
    } else if ThreeEdges(g, e.target, e.source) {
      var p := ThreeEdgesWalk(g, e.target, e.source);
    }
  }

  /** Candidates surviving the filter, in order. */
  ghost function Kept(candidates: seq<Edge>, existing: seq<Edge>): seq<Edge> {
    if candidates == [] then [] else
      var kept, e := Kept(candidates[..|candidates| - 1], existing), candidates[|candidates| - 1];
      if Closes(existing + kept, e) then kept else kept + [e]
  }

  ghost function Dropped(candidates: seq<Edge>, existing: seq<Edge>): seq<Edge> {
    if candidates == [] then [] else
      var front, e := candidates[..|candidates| - 1], candidates[|candidates| - 1];
      if Closes(existing + Kept(front, existing), e) then Dropped(front, existing) + [e]
      else Dropped(front, existing)
  }

  // ----- the frontier search

  /** Nodes at the end of some walk of g with exactly n edges starting in a. */
  ghost predicate Reaches(g: seq<Edge>, a: string, n: nat, b: string) {
    if n == 0 then a == b
    else exists i | 0 <= i < |g| :: g[i].target == b && Reaches(g, a, n - 1, g[i].source)
  }

  lemma {:induction false} ReachesHasWalk(g: seq<Edge>, a: string, n: nat, b: string) returns (p: seq<Edge>)
    requires n > 0 && Reaches(g, a, n, b)
    ensures |p| == n && Joins(g, a, b, p)
  {
    var i :| 0 <= i < |g| && g[i].target == b && Reaches(g, a, n - 1, g[i].source);
    if n == 1 {
      p := [g[i]];
    } else {
      var q := ReachesHasWalk(g, a, n - 1, g[i].source);
      p := q + [g[i]];
    }
  }

  lemma {:induction false} WalkReaches(g: seq<Edge>, a: string, b: string, p: seq<Edge>)
    requires Joins(g, a, b, p)
    ensures Reaches(g, a, |p|, b)
    decreases |p|
  {
    var n := |p| - 1;
    if n > 0 {
      WalkReaches(g, a, p[n].source, p[..n]);
    } else {
      assert Reaches(g, a, 0, p[0].source);
    }
    assert p[n] in g;
  }

  ghost predicate Stuck(g: seq<Edge>, a: string, n: nat) {
    forall b :: !Reaches(g, a, n, b)
  }

  /** No walk starting in a has n or more edges once no walk has exactly n. */
  lemma {:induction false} DeadEnd(g: seq<Edge>, a: string, n: nat, m: nat)
    requires n <= m && Stuck(g, a, n)
    ensures Stuck(g, a, m)
    decreases m
  {
    if n < m {
      DeadEnd(g, a, n, m - 1);
    }
  }

  method NextFrontier(accepted: seq<Edge>, frontier: set<string>) returns (next: set<string>)
    ensures forall b :: b in next <==>
              exists i :: 0 <= i < |accepted| && accepted[i].source in frontier && accepted[i].target == b
  {
    next := {};
    for i := 0 to |accepted|
      invariant forall b :: b in next <==>
                  exists j :: 0 <= j < i && accepted[j].source in frontier && accepted[j].target == b
    {
      if accepted[i].source in frontier {
        next := next + {accepted[i].target};
      }
    }
  }

  lemma NothingCloses(g: seq<Edge>, e: Edge, k: nat)
    requires forall n | 0 < n <= k :: !Reaches(g, e.target, n, e.source)
    requires k >= CYCLE_HOP_LIMIT || Stuck(g, e.target, k + 1)
    ensures !Closes(g, e)
  {
    if p :| |p| <= CYCLE_HOP_LIMIT && Joins(g, e.target, e.source, p) {
      WalkReaches(g, e.target, e.source, p);
      if k < |p| {
        DeadEnd(g, e.target, k + 1, |p|);
      }
      assert false;
    }
  }

  lemma SearchCloses(g: seq<Edge>, e: Edge, n: nat)
    requires 0 < n <= CYCLE_HOP_LIMIT && Reaches(g, e.target, n, e.source)
    ensures Closes(g, e)
  {
    var p := ReachesHasWalk(g, e.target, n, e.source);
  }

  /** The bounded search from e's target back to its source. */
  method ShortCycle(accepted: seq<Edge>, e: Edge) returns (cyclic: bool)
    ensures cyclic <==> Closes(accepted, e)
  {
    var frontier := {e.target};
    var hop := 0;
    while hop < CYCLE_HOP_LIMIT
      invariant hop <= CYCLE_HOP_LIMIT
      invariant forall b :: b in frontier <==> Reaches(accepted, e.target, hop, b)
      invariant forall n | 0 < n <= hop :: !Reaches(accepted, e.target, n, e.source)
    {
      var next := NextFrontier(accepted, frontier);
      assert forall b :: b in next <==> Reaches(accepted, e.target, hop + 1, b);
      if e.source in next {
        SearchCloses(accepted, e, hop + 1);
        return true;
      }
      if next == {} {
        assert Stuck(accepted, e.target, hop + 1) by {
          ghost var n := hop + 1;
          forall b ensures !Reaches(accepted, e.target, n, b) { assert b !in next; }
        }
        NothingCloses(accepted, e, hop);
        return false;
      }
      frontier := next;
      hop := hop + 1;
    }
    NothingCloses(accepted, e, hop);
    return false;
  }

  /** The first hop of the search subsumes the separate inverse test. */
  lemma InverseCloses(g: seq<Edge>, e: Edge)
    requires Inverse(g, e)
    ensures Closes(g, e)
  {
    var i :| 0 <= i < |g| && g[i].source == e.target && g[i].target == e.source;
    assert Joins(g, e.target, e.source, [g[i]]);
  }

  /** Each candidate is judged against the stored edges and the candidates kept before it. */
  method Conflicts(candidates: seq<Edge>, existing: seq<Edge>) returns (kept: seq<Edge>, dropped: seq<Edge>)
    ensures kept == Kept(candidates, existing)
    ensures dropped == Dropped(candidates, existing)
    ensures |kept| + |dropped| == |candidates|
  {
    kept, dropped := [], [];
    var accepted := existing;
    for i := 0 to |candidates|
      invariant kept == Kept(candidates[..i], existing)
      invariant dropped == Dropped(candidates[..i], existing)
      invariant accepted == existing + kept && |kept| + |dropped| == i
    {
      assert candidates[..i + 1][..i] == candidates[..i];
      var edge := candidates[i];
      if Inverse(accepted, edge) {
        InverseCloses(accepted, edge);
        dropped := dropped + [edge];
        continue;
      }
      var cyclic := ShortCycle(accepted, edge);
      if cyclic {
        dropped := dropped + [edge];
        continue;
      }
      accepted := accepted + [edge];
      kept := kept + [edge];
    }
    assert candidates[..|candidates|] == candidates;
  }
}
