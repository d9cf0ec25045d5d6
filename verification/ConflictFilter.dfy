/**
 What the conflict filter guarantees about the resulting graph, for every candidate order.
 */
module ConflictFilter {
  import opened SemanticEdges

  ghost predicate SelfLoop(e: Edge) {
    e.source == e.target
  }

  ghost predicate Subgraph(g: seq<Edge>, h: seq<Edge>) {
    forall e | e in g :: e in h
  }

  lemma ClosesMonotone(g: seq<Edge>, h: seq<Edge>, e: Edge)
    requires Subgraph(g, h) && Closes(g, e)
    ensures Closes(h, e)
  {
  }

  // ----- the verdicts, written out

  lemma TurnWritten(candidates: seq<Edge>, existing: seq<Edge>, n: nat)
    requires n < |candidates|
    ensures var e, kept, dropped := candidates[n], Kept(candidates[..n], existing), Dropped(candidates[..n], existing);
            if WayBack(existing + kept, e.target, e.source)
            then Kept(candidates[..n + 1], existing) == kept && Dropped(candidates[..n + 1], existing) == dropped + [e]
            else Kept(candidates[..n + 1], existing) == kept + [e] && Dropped(candidates[..n + 1], existing) == dropped
  {
    assert candidates[..n + 1][..n] == candidates[..n] && candidates[..n + 1][n] == candidates[n];
    ClosesWritten(existing + Kept(candidates[..n], existing), candidates[n]);
  }

  /** Three stored edges in a row from a to d drop the candidate from d to a.  After a fourth, from d
      to e, the candidate from e to a is kept: the shortest way back has four edges. */
  lemma HopLimit(ab: Edge, bc: Edge, cd: Edge, de: Edge, da: Edge, ea: Edge)
    requires ab.target == bc.source && bc.target == cd.source && cd.target == de.source
    requires da.source == cd.target && ea.source == de.target && da.target == ea.target == ab.source
    requires Apart([ab.source, bc.source, cd.source, de.source, ea.source])
    ensures Kept([da], [ab, bc, cd]) == [] && Dropped([da], [ab, bc, cd]) == [da]
    ensures Kept([ea], [ab, bc, cd, de]) == [ea] && Dropped([ea], [ab, bc, cd, de]) == []
  {
    var three, four := [ab, bc, cd], [ab, bc, cd, de];
    assert [da][..0] == [] && [da][..1] == [da] && [ea][..0] == [] && [ea][..1] == [ea];
    assert three + [] == three && four + [] == four;
    assert ab in three && bc in three && cd in three;
    assert OneEdge(three, cd.source, da.source);
    assert TwoEdges(three, bc.source, da.source);
    TurnWritten([da], three, 0);
    FourAway(ab, bc, cd, de);
    TurnWritten([ea], four, 0);
  }

  predicate Apart(nodes: seq<string>) {
    forall i, j | 0 <= i < j < |nodes| :: nodes[i] != nodes[j]
  }

  lemma FourAway(ab: Edge, bc: Edge, cd: Edge, de: Edge)
    requires ab.target == bc.source && bc.target == cd.source && cd.target == de.source
    requires Apart([ab.source, bc.source, cd.source, de.source, de.target])
    ensures !WayBack([ab, bc, cd, de], ab.source, de.target)
  {
    var g, nodes := [ab, bc, cd, de], [ab.source, bc.source, cd.source, de.source, de.target];
    assert nodes[0] != nodes[1] && nodes[0] != nodes[2] && nodes[0] != nodes[3] && nodes[0] != nodes[4];
    assert nodes[1] != nodes[2] && nodes[1] != nodes[3] && nodes[1] != nodes[4];
    assert nodes[2] != nodes[3] && nodes[2] != nodes[4] && nodes[3] != nodes[4];
    assert !OneEdge(g, ab.source, de.target) && !OneEdge(g, bc.source, de.target) && !OneEdge(g, cd.source, de.target);
    assert !TwoEdges(g, ab.source, de.target) && !TwoEdges(g, bc.source, de.target);
    assert !ThreeEdges(g, ab.source, de.target);
  }

  // ----- positions in the kept list

  /** The i-th kept edge was accepted against existing rows and the earlier kept edges. */
  lemma {:induction false} KeptAt(candidates: seq<Edge>, existing: seq<Edge>, i: nat)
    requires i < |Kept(candidates, existing)|
    ensures var kept := Kept(candidates, existing);
            kept[i] in candidates && !Closes(existing + kept[..i], kept[i])
    decreases |candidates|
  {
    var n := |candidates| - 1;
    var front := Kept(candidates[..n], existing);
    if i < |front| {
      KeptAt(candidates[..n], existing, i);
      assert Kept(candidates, existing)[..i] == front[..i];
    } else {
      assert Kept(candidates, existing)[..i] == front;
    }
  }

  // ----- rotating a closed walk and cutting it at an edge

  function Rotate(p: seq<Edge>, j: nat): seq<Edge>
    requires j < |p|
  {
    p[j..] + p[..j]
  }

  lemma RotateClosed(g: seq<Edge>, p: seq<Edge>, j: nat)
    requires ClosedWalk(g, p) && j < |p|
    ensures ClosedWalk(g, Rotate(p, j)) && |Rotate(p, j)| == |p| && Rotate(p, j)[0] == p[j]
    ensures forall e :: e in Rotate(p, j) <==> e in p
  {
  }

  /** The first index from k on whose edge is x, or the length. */
  function NextAt(p: seq<Edge>, x: Edge, k: nat): (t: nat)
    requires k <= |p|
    ensures k <= t <= |p|
    ensures forall i | k <= i < t :: p[i] != x
    ensures t < |p| ==> p[t] == x
    decreases |p| - k
  {
    if k == |p| || p[k] == x then k else NextAt(p, x, k + 1)
  }

  /** A closed walk through x that is no self-loop yields a walk back from x's target to its source
      that avoids x. */
  lemma CutAt(g: seq<Edge>, p: seq<Edge>, x: Edge) returns (q: seq<Edge>)
    requires ClosedWalk(g, p) && x in p && !SelfLoop(x)
    ensures Joins(g, x.target, x.source, q) && |q| < |p| && x !in q
    ensures forall e | e in q :: e in p
  {
    var j :| 0 <= j < |p| && p[j] == x;
    RotateClosed(g, p, j);
    var r := Rotate(p, j);
    var t := NextAt(r, x, 1);
    q := r[1..t];
    assert r[t - 1].target == x.source;
    assert q[0] == r[1] && q[|q| - 1] == r[t - 1];
    forall i | 0 <= i < |q| ensures q[i] in g && q[i] != x && q[i] in p {
      assert q[i] == r[i + 1] && r[i + 1] in r;
    }
    forall i | 0 <= i < |q| - 1 ensures q[i].target == q[i + 1].source {
      assert q[i] == r[i + 1] && q[i + 1] == r[i + 2];
    }
  }

  /** The last kept position whose edge lies on p. */
  function LastOn(kept: seq<Edge>, p: seq<Edge>): (i: nat)
    requires exists e :: e in kept && e in p
    ensures i < |kept| && kept[i] in p
    ensures forall j | i < j < |kept| :: kept[j] !in p
  {
    var n := |kept| - 1;
    if kept[n] in p then n else
      assert kept == kept[..n] + [kept[n]];
      LastOn(kept[..n], p)
  }

  ghost predicate OnShortCycle(g: seq<Edge>, e: Edge) {
    exists p :: |p| <= 4 && ClosedWalk(g, p) && e in p
  }

  lemma KeptBefore(kept: seq<Edge>, p: seq<Edge>, i: nat, e: Edge)
    requires i < |kept| && e in kept && e in p && e != kept[i]
    requires forall j | i < j < |kept| :: kept[j] !in p
    ensures e in kept[..i]
  {
    var j :| 0 <= j < |kept| && kept[j] == e;
    assert kept[..i][j] == e;
  }

  lemma KeptOffShortCycles(candidates: seq<Edge>, existing: seq<Edge>, p: seq<Edge>)
    requires forall e | e in Kept(candidates, existing) :: !SelfLoop(e)
    requires ClosedWalk(existing + Kept(candidates, existing), p)
    requires exists e :: e in Kept(candidates, existing) && e in p
    ensures |p| > 4
  {
    var kept := Kept(candidates, existing);
    var i := LastOn(kept, p);
    var x := kept[i];
    KeptAt(candidates, existing, i);
    assert x in kept;
    var q := CutAt(existing + kept, p, x);
    var before := existing + kept[..i];
    forall e | e in q ensures e in before {
      assert e in existing + kept && e in p && e != x;
      if e !in existing {
        KeptBefore(kept, p, i, e);
      }
    }
    assert Joins(before, x.target, x.source, q);
  }

  /** For every candidate list: no closed walk of at most four edges of the resulting
      graph passes through a kept edge, if and only if no self-loop was kept. */
  lemma KeptCycleFreeIff(candidates: seq<Edge>, existing: seq<Edge>)
    ensures (forall e | e in Kept(candidates, existing) ::
               !OnShortCycle(existing + Kept(candidates, existing), e))
            <==> (forall e | e in Kept(candidates, existing) :: !SelfLoop(e))
  {
    var kept := Kept(candidates, existing);
    var g := existing + kept;
    if e :| e in kept && SelfLoop(e) {
      assert ClosedWalk(g, [e]) && e in [e];
      assert OnShortCycle(g, e);
    }
    if forall e | e in kept :: !SelfLoop(e) {
      forall e | e in kept ensures !OnShortCycle(g, e) {
        if p :| |p| <= 4 && ClosedWalk(g, p) && e in p {
          KeptOffShortCycles(candidates, existing, p);
          assert false;
        }
      }
    }
  }

  ghost predicate ShortCycleFree(g: seq<Edge>) {
    forall p | ClosedWalk(g, p) :: |p| > 4
  }

  lemma KeptAreCandidates(candidates: seq<Edge>, existing: seq<Edge>)
    ensures forall e | e in Kept(candidates, existing) :: e in candidates
  {
  }

  /** Candidates without self-loops never introduce a short directed cycle. */
  lemma FilterKeepsAcyclic(candidates: seq<Edge>, existing: seq<Edge>)
    requires ShortCycleFree(existing) && forall e | e in candidates :: !SelfLoop(e)
    ensures ShortCycleFree(existing + Kept(candidates, existing))
  {
    var kept := Kept(candidates, existing);
    KeptAreCandidates(candidates, existing);
    forall p | ClosedWalk(existing + kept, p) ensures |p| > 4 {
      if exists e :: e in kept && e in p {
        KeptOffShortCycles(candidates, existing, p);
      } else {
        forall i | 0 <= i < |p| ensures p[i] in existing { assert p[i] in p; }
        assert ClosedWalk(existing, p);
      }
    }
  }

  // ----- maximality and stability

  /** Kept and dropped split the candidates, and every dropped edge closes a short walk in the
      final graph. */
  lemma {:induction false} FilterMaximal(candidates: seq<Edge>, existing: seq<Edge>)
    ensures multiset(Kept(candidates, existing)) + multiset(Dropped(candidates, existing)) == multiset(candidates)
    ensures forall e | e in Dropped(candidates, existing) :: Closes(existing + Kept(candidates, existing), e)
    decreases |candidates|
  {
    if candidates != [] {
      var n := |candidates| - 1;
      var front, last := candidates[..n], candidates[n];
      FilterMaximal(front, existing);
      assert candidates == front + [last];
      var kept := Kept(candidates, existing);
      forall e | e in Dropped(candidates, existing) ensures Closes(existing + kept, e) {
        ClosesMonotoneFrom(existing + Kept(front, existing), existing + kept, e);
      }
    }
  }

  lemma ClosesMonotoneFrom(g: seq<Edge>, h: seq<Edge>, e: Edge)
    requires Subgraph(g, h)
    ensures Closes(g, e) ==> Closes(h, e)
  {
  }

  lemma {:induction false} KeptPrefix(candidates: seq<Edge>, existing: seq<Edge>, n: nat)
    requires n <= |candidates|
    ensures Kept(candidates[..n], existing) <= Kept(candidates, existing)
    decreases |candidates|
  {
    if n < |candidates| {
      var front := candidates[..|candidates| - 1];
      KeptPrefix(front, existing, n);
      assert front[..n] == candidates[..n];
    } else {
      assert candidates[..n] == candidates;
    }
  }

  /** Once everything is decided, a kept edge still has no short walk from its target back. */
  lemma KeptClosesNothing(candidates: seq<Edge>, existing: seq<Edge>, e: Edge)
    requires forall c | c in candidates :: !SelfLoop(c)
    requires e in Kept(candidates, existing)
    ensures !Closes(existing + Kept(candidates, existing), e)
  {
    var g := existing + Kept(candidates, existing);
    KeptAreCandidates(candidates, existing);
    if p :| |p| <= 3 && Joins(g, e.target, e.source, p) {
      var w := [e] + p;
      assert ClosedWalk(g, w) && e in w;
      KeptOffShortCycles(candidates, existing, w);
      assert false;
    }
  }

  lemma KeptNext(candidates: seq<Edge>, existing: seq<Edge>, n: nat)
    requires n < |candidates|
    requires !Closes(existing + Kept(candidates[..n], existing), candidates[n])
    ensures candidates[n] in Kept(candidates, existing)
  {
    var before, e := Kept(candidates[..n], existing), candidates[n];
    KeptPrefix(candidates, existing, n + 1);
    assert candidates[..n + 1][..n] == candidates[..n];
    assert (before + [e])[|before|] == e;
  }

  /** A candidate is kept at its place exactly when it closes nothing in the final graph. */
  lemma KeptIffFinal(candidates: seq<Edge>, existing: seq<Edge>, n: nat)
    requires n < |candidates| && forall e | e in candidates :: !SelfLoop(e)
    ensures Closes(existing + Kept(candidates[..n], existing), candidates[n])
            <==> Closes(existing + Kept(candidates, existing), candidates[n])
  {
    var e := candidates[n];
    var before, kept := Kept(candidates[..n], existing), Kept(candidates, existing);
    KeptPrefix(candidates, existing, n);
    ClosesMonotoneFrom(existing + before, existing + kept, e);
    if !Closes(existing + before, e) {
      KeptNext(candidates, existing, n);
      KeptClosesNothing(candidates, existing, e);
    }
  }

  /** stored decides every candidate the way the first run did at its place. */
  ghost predicate SameVerdicts(candidates: seq<Edge>, existing: seq<Edge>, stored: seq<Edge>) {
    forall n | 0 <= n < |candidates| ::
      (Closes(existing + Kept(candidates[..n], existing), candidates[n]) <==> Closes(stored, candidates[n]))
  }

  lemma {:induction false} StableUnder(candidates: seq<Edge>, existing: seq<Edge>, stored: seq<Edge>)
    requires SameVerdicts(candidates, existing, stored)
    requires Subgraph(Kept(candidates, existing), stored)
    ensures Kept(candidates, stored) == Kept(candidates, existing)
    ensures Dropped(candidates, stored) == Dropped(candidates, existing)
    decreases |candidates|
  {
    if candidates != [] {
      var n := |candidates| - 1;
      var front, e := candidates[..n], candidates[n];
      forall m | 0 <= m < n
        ensures Closes(existing + Kept(front[..m], existing), front[m]) <==> Closes(stored, front[m])
      {
        assert front[..m] == candidates[..m];
      }
      StableUnder(front, existing, stored);
      StoredVerdict(stored, Kept(front, existing), e);
    }
  }

  /** Edges that are already in the graph change no verdict. */
  lemma StoredVerdict(g: seq<Edge>, extra: seq<Edge>, e: Edge)
    requires Subgraph(extra, g)
    ensures Closes(g + extra, e) <==> Closes(g, e)
  {
  }

  /** Re-running after the kept edges were written keeps and drops the same candidates. */
  lemma RerunSameSplit(candidates: seq<Edge>, existing: seq<Edge>)
    requires forall e | e in candidates :: !SelfLoop(e)
    ensures var stored := existing + Kept(candidates, existing);
            && Kept(candidates, stored) == Kept(candidates, existing)
            && Dropped(candidates, stored) == Dropped(candidates, existing)
  {
    var stored := existing + Kept(candidates, existing);
    forall n | 0 <= n < |candidates|
      ensures Closes(existing + Kept(candidates[..n], existing), candidates[n]) <==> Closes(stored, candidates[n])
    {
      KeptIffFinal(candidates, existing, n);
    }
    StableUnder(candidates, existing, stored);
  }

  /** With self-loops the second run differs: a self-loop is kept once, then closes itself. */
  lemma SelfLoopUnstable(e: Edge)
    requires SelfLoop(e)
    ensures Kept([e], []) == [e] && Kept([e], [] + Kept([e], [])) == []
  {
    var none: seq<Edge> := [];
    assert [e][..0] == none;
    assert Kept(none, none) == none;
    forall p ensures !IsWalk(none + none, p) {
      assert p == [] || p[0] !in none + none;
    }
    assert !Closes(none + none, e);
    assert Kept([e], none) == [e];
    assert Joins([e] + none, e.target, e.source, [e]);
    assert Closes([e] + none, e);
    assert none + Kept([e], none) == [e];
  }
}
