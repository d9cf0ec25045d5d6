/**
 Writing the kept edges: deduplication by identity, chunking, and the write path's own conflict
 guard (server/knowledge/research_memory.py), which must never reject a chunk of kept edges.
 */
module EdgeWrites {
  import opened SemanticEdges
  import opened ConflictFilter

  // ----- deduplication

  /** Keep the first candidate of every identity. */
  function Unique(candidates: seq<Edge>): seq<Edge> {
    if candidates == [] then [] else
      var rest, e := Unique(candidates[..|candidates| - 1]), candidates[|candidates| - 1];
      if exists k :: k in rest && k.edgeId == e.edgeId then rest else rest + [e]
  }

  function Ids(edges: seq<Edge>): seq<string> {
    seq(|edges|, i requires 0 <= i < |edges| => edges[i].edgeId)
  }

  method DedupeByIdentity(candidates: seq<Edge>) returns (kept: seq<Edge>, dropped: nat)
    ensures kept == Unique(candidates) && |kept| + dropped == |candidates|
    ensures forall i, j | 0 <= i < j < |kept| :: kept[i].edgeId != kept[j].edgeId
  {
    var seen: set<string> := {};
    kept, dropped := [], 0;
    for i := 0 to |candidates|
      invariant kept == Unique(candidates[..i]) && |kept| + dropped == i
      invariant forall id :: id in seen <==> exists k :: k in kept && k.edgeId == id
    {
      assert candidates[..i + 1][..i] == candidates[..i];
      var edge := candidates[i];
      if edge.edgeId in seen {
        dropped := dropped + 1;
        continue;
      }
      seen := seen + {edge.edgeId};
      kept := kept + [edge];
    }
    assert candidates[..|candidates|] == candidates;
    UniqueDistinct(candidates);
  }

  /** Identities of the unique candidates are pairwise distinct ... */
  lemma {:induction false} UniqueDistinct(candidates: seq<Edge>)
    ensures forall i, j | 0 <= i < j < |Unique(candidates)| ::
              Unique(candidates)[i].edgeId != Unique(candidates)[j].edgeId
    decreases |candidates|
  {
    if candidates != [] {
      var rest := Unique(candidates[..|candidates| - 1]);
      UniqueDistinct(candidates[..|candidates| - 1]);
      assert forall i | 0 <= i < |rest| :: rest[i] in rest;
    }
  }

  ghost predicate BearerAt(candidates: seq<Edge>, e: Edge, i: nat) {
    i < |candidates| && candidates[i] == e && forall j | 0 <= j < i :: candidates[j].edgeId != e.edgeId
  }

  ghost predicate FirstBearer(candidates: seq<Edge>, e: Edge) {
    exists i :: BearerAt(candidates, e, i)
  }

  /** ... no identity is lost ... */
  lemma {:induction false} UniqueComplete(candidates: seq<Edge>, c: Edge)
    requires c in candidates
    ensures exists e :: e in Unique(candidates) && e.edgeId == c.edgeId
    decreases |candidates|
  {
    var n := |candidates| - 1;
    var front, last := candidates[..n], candidates[n];
    assert candidates == front + [last];
    if c in front {
      UniqueComplete(front, c);
      var e :| e in Unique(front) && e.edgeId == c.edgeId;
      assert e in Unique(candidates);
    } else if exists k :: k in Unique(front) && k.edgeId == last.edgeId {
    } else {
      assert last in Unique(candidates);
    }
  }

  lemma NewIdentity(front: seq<Edge>, last: Edge)
    requires forall k | k in Unique(front) :: k.edgeId != last.edgeId
    ensures BearerAt(front + [last], last, |front|)
  {
    forall j | 0 <= j < |front| ensures front[j].edgeId != last.edgeId {
      UniqueComplete(front, front[j]);
    }
  }

  /** ... and each is represented by the first candidate that bears it. */
  lemma {:induction false} UniqueFirst(candidates: seq<Edge>, e: Edge)
    requires e in Unique(candidates)
    ensures FirstBearer(candidates, e)
    decreases |candidates|
  {
    var n := |candidates| - 1;
    var front := candidates[..n];
    assert candidates == front + [candidates[n]];
    if e in Unique(front) {
      UniqueFirst(front, e);
      var i :| BearerAt(front, e, i);
      assert BearerAt(candidates, e, i);
    } else {
      NewIdentity(front, candidates[n]);
      assert e == candidates[n];
    }
  }

  // ----- chunks

  datatype Chunking<T> = Chunks(chunks: seq<seq<T>>) | InvalidStep

  /** range(0, len(values), size): a zero step is an error, a negative one yields nothing. */
  function ChunksOf<T>(values: seq<T>, size: int): Chunking<T> {
    if size == 0 then InvalidStep
    else if size < 0 then Chunks([])
    else Chunks(Slices(values, size, 0))
  }

  function Slices<T>(values: seq<T>, size: nat, start: nat): seq<seq<T>>
    requires size > 0
    decreases |values| - start
  {
    if start >= |values| then []
    else
      var end := if start + size <= |values| then start + size else |values|;
      [values[start..end]] + Slices(values, size, start + size)
  }

  function Flatten<T>(chunks: seq<seq<T>>): seq<T> {
    if chunks == [] then [] else chunks[0] + Flatten(chunks[1..])
  }

  lemma {:induction false} SlicesFlatten<T>(values: seq<T>, size: nat, start: nat)
    requires size > 0 && start <= |values|
    ensures Flatten(Slices(values, size, start)) == values[start..]
    decreases |values| - start
  {
    if start < |values| {
      var end := if start + size <= |values| then start + size else |values|;
      if start + size < |values| {
        SlicesFlatten(values, size, start + size);
      }
      assert values[start..] == values[start..end] + values[end..];
    }
  }

  /** Concatenating the chunks gives the values back exactly when the step is positive, or there is
      nothing to chunk and the step is not zero. */
  lemma ChunksConcatenateIff<T>(values: seq<T>, size: int)
    ensures (ChunksOf(values, size).Chunks? && Flatten(ChunksOf(values, size).chunks) == values)
            <==> size > 0 || (size < 0 && values == [])
  {
    if size > 0 {
      SlicesFlatten(values, size, 0);
    }
  }

  /** Every chunk is non-empty and at most size long; all but the last have exactly that size. */
  lemma {:induction false} ChunkSize<T>(values: seq<T>, size: nat, start: nat, i: nat)
    requires size > 0 && i < |Slices(values, size, start)|
    ensures 0 < |Slices(values, size, start)[i]| <= size
    ensures i < |Slices(values, size, start)| - 1 ==> |Slices(values, size, start)[i]| == size
    decreases i
  {
    if i > 0 {
      ChunkSize(values, size, start + size, i - 1);
    }
  }

  // ----- the write path

  const DIRECTIONAL := {"enables_mechanic", "scales_with", "mitigates_weakness_of",
                        "requires_transition_gate", "has_modelability_caveat",
                        "creates_failure_risk_for"}

  /** The stored rows the guard looks at for one candidate: same type, adoptable for its patch. */
  type Adoptable = (Edge, Edge) -> bool

  function Visible(rows: seq<Edge>, e: Edge, adoptable: Adoptable): seq<Edge> {
    if rows == [] then [] else
      var rest, r := Visible(rows[..|rows| - 1], e, adoptable), rows[|rows| - 1];
      if r.kind == e.kind && adoptable(r, e) then rest + [r] else rest
  }

  /** The documented guard: an inverse edge, or a walk of at most three visible edges back. */
  ghost predicate ServiceConflict(rows: seq<Edge>, e: Edge, adoptable: Adoptable) {
    && e.kind in DIRECTIONAL
    && (Inverse(Visible(rows, e, adoptable), e) || Closes(Visible(rows, e, adoptable), e))
  }

  /** Insert, or refresh the row that already has this identity. */
  function Upsert(rows: seq<Edge>, e: Edge): seq<Edge> {
    if exists r :: r in rows && r.edgeId == e.edgeId then rows else rows + [e]
  }

  datatype Response = Accepted(ids: seq<string>) | Rejected

  datatype Written = Written(rows: seq<Edge>, response: Response)

  type Guard = (seq<Edge>, Edge) -> bool

  ghost function GuardOf(adoptable: Adoptable): Guard {
    (rows, e) => ServiceConflict(rows, e, adoptable)
  }

  /** propose_semantic_edges: edges in order; a conflict stops the chunk but keeps earlier rows. */
  ghost function Propose(rows: seq<Edge>, chunk: seq<Edge>, guard: Guard): Written {
    if chunk == [] then Written(rows, Accepted([])) else
      var before, e := Propose(rows, chunk[..|chunk| - 1], guard), chunk[|chunk| - 1];
      if before.response.Rejected? || guard(before.rows, e)
      then Written(before.rows, Rejected)
      else Written(Upsert(before.rows, e), Accepted(before.response.ids + [e.edgeId]))
  }

  lemma {:induction false} VisibleSubgraph(rows: seq<Edge>, e: Edge, adoptable: Adoptable)
    ensures Subgraph(Visible(rows, e, adoptable), rows)
  {
    if rows != [] {
      VisibleSubgraph(rows[..|rows| - 1], e, adoptable);
    }
  }

  // ----- the write path, written out

  lemma {:induction false} VisibleWritten(rows: seq<Edge>, e: Edge, adoptable: Adoptable)
    ensures forall r :: r in Visible(rows, e, adoptable) <==> r in rows && r.kind == e.kind && adoptable(r, e)
  {
    if rows != [] {
      VisibleWritten(rows[..|rows| - 1], e, adoptable);
      assert rows == rows[..|rows| - 1] + [rows[|rows| - 1]];
    }
  }

  /** The guard refuses exactly the edges of the six directional types with one, two or three
      consecutive rows of their type, adoptable for them, from their target back to their source. */
  lemma GuardWritten(rows: seq<Edge>, e: Edge, adoptable: Adoptable)
    ensures GuardOf(adoptable)(rows, e) <==>
            && (e.kind == "enables_mechanic" || e.kind == "scales_with" || e.kind == "mitigates_weakness_of"
                || e.kind == "requires_transition_gate" || e.kind == "has_modelability_caveat"
                || e.kind == "creates_failure_risk_for")
            && exists seen: seq<Edge> ::
                 && (forall r :: r in seen <==> r in rows && r.kind == e.kind && adoptable(r, e))
                 && WayBack(seen, e.target, e.source)
  {
    var visible := Visible(rows, e, adoptable);
    VisibleWritten(rows, e, adoptable);
    ClosesWritten(visible, e);
    if Inverse(visible, e) {
      InverseCloses(visible, e);
    }
    if seen: seq<Edge> :| (forall r :: r in seen <==> r in rows && r.kind == e.kind && adoptable(r, e))
                          && WayBack(seen, e.target, e.source) {
      SameWayBack(seen, visible, e.target, e.source);
    }
  }

  lemma SameWayBack(g: seq<Edge>, h: seq<Edge>, a: string, b: string)
    requires forall r :: r in g <==> r in h
    ensures WayBack(g, a, b) ==> WayBack(h, a, b)
  {
    assert forall x :: OneEdge(g, x, b) ==> OneEdge(h, x, b);
    assert forall x :: TwoEdges(g, x, b) ==> TwoEdges(h, x, b);
  }

  ghost predicate Stored(rows: seq<Edge>, id: string) {
    exists r :: r in rows && r.edgeId == id
  }

  /** The row came from one of the edges, and no earlier row has its identity. */
  ghost predicate NewAt(edges: seq<Edge>, after: seq<Edge>, i: nat)
    requires i < |after|
  {
    after[i] in edges && !Stored(after[..i], after[i].edgeId)
  }

  /** Rows before and after some edges were stored: the old rows stay in place, new ones follow, and
      every identity is there. */
  ghost predicate Stores(rows: seq<Edge>, edges: seq<Edge>, after: seq<Edge>) {
    && rows <= after
    && (forall i | |rows| <= i < |after| :: NewAt(edges, after, i))
    && forall e | e in edges :: Stored(after, e.edgeId)
  }

  lemma NewAtKept(edges: seq<Edge>, before: seq<Edge>, e: Edge, i: nat)
    requires i < |before| && NewAt(edges, before, i)
    ensures NewAt(edges + [e], before, i) && NewAt(edges + [e], before + [e], i)
  {
    assert (before + [e])[..i] == before[..i];
  }

  lemma NewAtEnd(edges: seq<Edge>, before: seq<Edge>, e: Edge)
    requires !Stored(before, e.edgeId)
    ensures NewAt(edges + [e], before + [e], |before|)
  {
    assert (before + [e])[..|before|] == before;
  }

  lemma StillStored(before: seq<Edge>, e: Edge, id: string)
    requires Stored(before, id) || id == e.edgeId
    ensures Stored(before + [e], id)
  {
    if r :| r in before && r.edgeId == id {
      assert r in before + [e];
    } else {
      assert e in before + [e];
    }
  }

  lemma StoresNext(rows: seq<Edge>, edges: seq<Edge>, before: seq<Edge>, e: Edge)
    requires Stores(rows, edges, before)
    ensures Stores(rows, edges + [e], Upsert(before, e))
  {
    var after := Upsert(before, e);
    forall i | |rows| <= i < |after| ensures NewAt(edges + [e], after, i) {
      if i < |before| {
        NewAtKept(edges, before, e, i);
      } else {
        NewAtEnd(edges, before, e);
      }
    }
    forall x | x in edges + [e] ensures Stored(after, x.edgeId) {
      if after != before {
        StillStored(before, e, x.edgeId);
      }
    }
  }

  /** stages are the rows at the turn of each of the first k edges and after them; k is the place of
      the refused edge, or the end of the chunk. */
  ghost predicate ChunkWrites(rows: seq<Edge>, chunk: seq<Edge>, guard: Guard, w: Written, k: nat,
                              stages: seq<seq<Edge>>)
  {
    && k <= |chunk| && InStages(rows, chunk, guard, k, stages) && w.rows == stages[k]
    && (if k < |chunk| then guard(stages[k], chunk[k]) && w.response == Rejected
        else w.response == Accepted(Ids(chunk)))
  }

  ghost predicate InStages(rows: seq<Edge>, chunk: seq<Edge>, guard: Guard, k: nat, stages: seq<seq<Edge>>)
    requires k <= |chunk|
  {
    && |stages| == k + 1 && stages[0] == rows
    && (forall i | 0 <= i <= k :: Stores(rows, chunk[..i], stages[i]))
    && forall i | 0 <= i < k :: !guard(stages[i], chunk[i])
  }

  lemma LongerChunk(rows: seq<Edge>, front: seq<Edge>, e: Edge, guard: Guard, k: nat, stages: seq<seq<Edge>>)
    requires k <= |front| && InStages(rows, front, guard, k, stages)
    ensures InStages(rows, front + [e], guard, k, stages)
  {
    forall i | 0 <= i <= k ensures Stores(rows, (front + [e])[..i], stages[i]) {
      assert (front + [e])[..i] == front[..i];
    }
  }

  lemma NextStage(rows: seq<Edge>, front: seq<Edge>, e: Edge, guard: Guard, stages: seq<seq<Edge>>)
    requires InStages(rows, front, guard, |front|, stages) && !guard(stages[|front|], e)
    ensures InStages(rows, front + [e], guard, |front| + 1, stages + [Upsert(stages[|front|], e)])
  {
    var n, chunk, next := |front|, front + [e], stages + [Upsert(stages[|front|], e)];
    LongerChunk(rows, front, e, guard, n, stages);
    assert front[..n] == front && chunk[..n + 1] == chunk;
    assert Stores(rows, front[..n], stages[n]);
    StoresNext(rows, front, stages[n], e);
    forall i | 0 <= i <= n + 1 ensures Stores(rows, chunk[..i], next[i]) {
      if i <= n {
        assert Stores(rows, chunk[..i], stages[i]);
      }
    }
  }

  lemma ProposeStep(rows: seq<Edge>, front: seq<Edge>, e: Edge, guard: Guard)
    ensures var before := Propose(rows, front, guard);
            Propose(rows, front + [e], guard)
            == if before.response.Rejected? || guard(before.rows, e) then Written(before.rows, Rejected)
               else Written(Upsert(before.rows, e), Accepted(before.response.ids + [e.edgeId]))
  {
    assert (front + [e])[..|front|] == front;
  }

  lemma RefusedNext(rows: seq<Edge>, front: seq<Edge>, e: Edge, guard: Guard, before: Written, k: nat,
                    stages: seq<seq<Edge>>)
    requires ChunkWrites(rows, front, guard, before, k, stages)
    requires before.response.Rejected? || guard(before.rows, e)
    ensures ChunkWrites(rows, front + [e], guard, Written(before.rows, Rejected), k, stages)
  {
    LongerChunk(rows, front, e, guard, k, stages);
  }

  lemma WrittenNext(rows: seq<Edge>, front: seq<Edge>, e: Edge, guard: Guard, before: Written, k: nat,
                    stages: seq<seq<Edge>>)
    requires ChunkWrites(rows, front, guard, before, k, stages)
    requires before.response.Accepted? && !guard(before.rows, e)
    ensures ChunkWrites(rows, front + [e], guard,
                        Written(Upsert(before.rows, e), Accepted(before.response.ids + [e.edgeId])), |front| + 1,
                        stages + [Upsert(before.rows, e)])
  {
    IdsNext(front, e);
    NextStage(rows, front, e, guard, stages);
  }

  ghost predicate Writes(rows: seq<Edge>, chunk: seq<Edge>, guard: Guard, w: Written) {
    exists k, stages: seq<seq<Edge>> :: ChunkWrites(rows, chunk, guard, w, k, stages)
  }

  /** A chunk is written edge by edge up to the first that the guard refuses on the rows of its turn;
      what was written before stays.  Without one all its identities are reported. */
  lemma {:induction false} ProposeWritten(rows: seq<Edge>, chunk: seq<Edge>, guard: Guard)
    ensures Writes(rows, chunk, guard, Propose(rows, chunk, guard))
  {
    if chunk == [] {
      assert ChunkWrites(rows, chunk, guard, Propose(rows, chunk, guard), 0, [rows]);
    } else {
      var n := |chunk| - 1;
      var front, e := chunk[..n], chunk[n];
      var before := Propose(rows, front, guard);
      assert chunk == front + [e];
      ProposeWritten(rows, front, guard);
      ProposeStep(rows, front, e, guard);
      var k, stages: seq<seq<Edge>> :| ChunkWrites(rows, front, guard, before, k, stages);
      if before.response.Rejected? || guard(before.rows, e) {
        RefusedNext(rows, front, e, guard, before, k, stages);
      } else {
        WrittenNext(rows, front, e, guard, before, k, stages);
      }
    }
  }

  /** The filter's verdict is at least as strict as the guard's: it ignores edge types and patches. */
  lemma GuardImpliesCloses(rows: seq<Edge>, g: seq<Edge>, e: Edge, adoptable: Adoptable)
    requires Subgraph(rows, g) && ServiceConflict(rows, e, adoptable)
    ensures Closes(g, e)
  {
    VisibleSubgraph(rows, e, adoptable);
    if Inverse(Visible(rows, e, adoptable), e) {
      InverseCloses(Visible(rows, e, adoptable), e);
    }
    ClosesMonotone(Visible(rows, e, adoptable), g, e);
  }

  lemma {:induction false} ProposeNext(rows: seq<Edge>, chunk: seq<Edge>, e: Edge, guard: Guard)
    requires var before := Propose(rows, chunk, guard);
             before.response.Accepted? && !guard(before.rows, e)
    ensures var before := Propose(rows, chunk, guard);
            Propose(rows, chunk + [e], guard) ==
            Written(Upsert(before.rows, e), Accepted(before.response.ids + [e.edgeId]))
  {
  }

  lemma IdsNext(edges: seq<Edge>, e: Edge)
    ensures Ids(edges + [e]) == Ids(edges) + [e.edgeId]
  {
  }

  ghost predicate AllStored(rows: seq<Edge>, kept: seq<Edge>, lo: nat, hi: nat)
    requires lo <= hi <= |kept|
  {
    forall i | lo <= i < hi :: Stored(rows, kept[i].edgeId)
  }

  lemma UpsertFacts(rows: seq<Edge>, e: Edge, g: seq<Edge>)
    requires Subgraph(rows, g)
    ensures Subgraph(rows, Upsert(rows, e)) && Subgraph(Upsert(rows, e), g + [e])
    ensures Stored(Upsert(rows, e), e.edgeId)
    ensures forall id | Stored(rows, id) :: Stored(Upsert(rows, e), id)
  {
  }

  /** The guard lets every edge of kept pass on rows with nothing beyond existing and earlier ones. */
  ghost predicate Passes(kept: seq<Edge>, existing: seq<Edge>, guard: Guard) {
    forall rows, i | 0 <= i < |kept| && Subgraph(rows, existing + kept[..i]) :: !guard(rows, kept[i])
  }

  lemma PassesAt(kept: seq<Edge>, existing: seq<Edge>, rows: seq<Edge>, i: nat, guard: Guard)
    requires Passes(kept, existing, guard) && i < |kept| && Subgraph(rows, existing + kept[..i])
    ensures !guard(rows, kept[i])
  {
  }

  lemma KeptPasses(candidates: seq<Edge>, existing: seq<Edge>, adoptable: Adoptable)
    ensures Passes(Kept(candidates, existing), existing, GuardOf(adoptable))
  {
    var kept := Kept(candidates, existing);
    forall rows, i | 0 <= i < |kept| && Subgraph(rows, existing + kept[..i])
      ensures !GuardOf(adoptable)(rows, kept[i])
    {
      KeptAt(candidates, existing, i);
      if ServiceConflict(rows, kept[i], adoptable) {
        GuardImpliesCloses(rows, existing + kept[..i], kept[i], adoptable);
      }
    }
  }

  ghost predicate ChunkWritten(kept: seq<Edge>, existing: seq<Edge>, rows: seq<Edge>, lo: nat, hi: nat, w: Written)
    requires lo <= hi <= |kept|
  {
    && w.response == Accepted(Ids(kept[lo..hi]))
    && Subgraph(w.rows, existing + kept[..hi])
    && Subgraph(rows, w.rows)
    && AllStored(w.rows, kept, lo, hi)
  }

  lemma ChunkGrows(kept: seq<Edge>, existing: seq<Edge>, rows: seq<Edge>, lo: nat, hi: nat, before: Written,
                   after: Written)
    requires lo < hi <= |kept| && ChunkWritten(kept, existing, rows, lo, hi - 1, before)
    requires after == Written(Upsert(before.rows, kept[hi - 1]), Accepted(before.response.ids + [kept[hi - 1].edgeId]))
    ensures ChunkWritten(kept, existing, rows, lo, hi, after)
  {
    var m := hi - 1;
    IdsNext(kept[lo..m], kept[m]);
    UpsertFacts(before.rows, kept[m], existing + kept[..m]);
    SliceGrows(kept, lo, hi);
    assert existing + kept[..hi] == existing + kept[..m] + [kept[m]];
  }

  lemma SliceGrows(kept: seq<Edge>, lo: nat, hi: nat)
    requires lo < hi <= |kept|
    ensures kept[lo..hi] == kept[lo..hi - 1] + [kept[hi - 1]]
  {
  }

  lemma ProposeSlice(kept: seq<Edge>, rows: seq<Edge>, lo: nat, hi: nat, guard: Guard)
    requires lo < hi <= |kept| && Propose(rows, kept[lo..hi - 1], guard).response.Accepted?
    requires !guard(Propose(rows, kept[lo..hi - 1], guard).rows, kept[hi - 1])
    ensures var before := Propose(rows, kept[lo..hi - 1], guard);
            Propose(rows, kept[lo..hi], guard)
            == Written(Upsert(before.rows, kept[hi - 1]), Accepted(before.response.ids + [kept[hi - 1].edgeId]))
  {
    SliceGrows(kept, lo, hi);
    ProposeNext(rows, kept[lo..hi - 1], kept[hi - 1], guard);
  }

  lemma ChunkNext(kept: seq<Edge>, existing: seq<Edge>, rows: seq<Edge>, lo: nat, hi: nat, guard: Guard)
    requires lo < hi <= |kept|
    requires ChunkWritten(kept, existing, rows, lo, hi - 1, Propose(rows, kept[lo..hi - 1], guard))
    requires !guard(Propose(rows, kept[lo..hi - 1], guard).rows, kept[hi - 1])
    ensures ChunkWritten(kept, existing, rows, lo, hi, Propose(rows, kept[lo..hi], guard))
  {
    var m := hi - 1;
    ProposeSlice(kept, rows, lo, hi, guard);
    ChunkGrows(kept, existing, rows, lo, hi, Propose(rows, kept[lo..m], guard), Propose(rows, kept[lo..hi], guard));
  }

  lemma NothingProposed(kept: seq<Edge>, existing: seq<Edge>, rows: seq<Edge>, lo: nat, guard: Guard)
    requires lo <= |kept| && Subgraph(rows, existing + kept[..lo])
    ensures ChunkWritten(kept, existing, rows, lo, lo, Propose(rows, kept[lo..lo], guard))
  {
    assert kept[lo..lo] == [] && Ids(kept[lo..lo]) == [];
  }

  /** Proposing kept[lo..hi] on rows that hold nothing beyond existing and kept[..lo]. */
  lemma {:induction false} ChunkAccepted(kept: seq<Edge>, existing: seq<Edge>, rows: seq<Edge>,
                                         lo: nat, hi: nat, guard: Guard)
    requires Passes(kept, existing, guard) && lo <= hi <= |kept|
    requires Subgraph(rows, existing + kept[..lo])
    ensures ChunkWritten(kept, existing, rows, lo, hi, Propose(rows, kept[lo..hi], guard))
    decreases hi
  {
    if lo < hi {
      var m := hi - 1;
      ChunkAccepted(kept, existing, rows, lo, m, guard);
      PassesAt(kept, existing, Propose(rows, kept[lo..m], guard).rows, m, guard);
      ChunkNext(kept, existing, rows, lo, hi, guard);
    } else {
      NothingProposed(kept, existing, rows, lo, guard);
    }
  }

  // ----- running a mode over the chunks

  datatype Mode = Apply | Validate

  /** Rows afterwards, identities reported, the indices of the rejected chunks, and how many chunks
      were sent. */
  datatype Run = Run(rows: seq<Edge>, accepted: seq<string>, errors: seq<nat>, sent: nat)

  ghost predicate AnyConflict(rows: seq<Edge>, chunk: seq<Edge>, guard: Guard) {
    exists e :: e in chunk && guard(rows, e)
  }

  ghost function Call(mode: Mode, rows: seq<Edge>, chunk: seq<Edge>, guard: Guard): Written {
    match mode
    case Apply => Propose(rows, chunk, guard)
    case Validate =>
      Written(rows, if AnyConflict(rows, chunk, guard) then Rejected else Accepted(Ids(chunk)))
  }

  ghost function RunChunks(mode: Mode, chunks: seq<seq<Edge>>, keepGoing: bool, run: Run, guard: Guard): Run {
    if chunks == [] then run else
      var w := Call(mode, run.rows, chunks[0], guard);
      match w.response
      case Accepted(ids) =>
        RunChunks(mode, chunks[1..], keepGoing, Run(w.rows, run.accepted + ids, run.errors, run.sent + 1), guard)
      case Rejected =>
        var failed := Run(w.rows, run.accepted, run.errors + [run.sent], run.sent + 1);
        if keepGoing then RunChunks(mode, chunks[1..], keepGoing, failed, guard) else failed
  }

  /** The next chunk is sent, and the rest follows unless it was rejected and one may not go on. */
  lemma ChunkTurn(mode: Mode, chunks: seq<seq<Edge>>, i: nat, keepGoing: bool, run: Run, guard: Guard)
    requires i < |chunks|
    ensures var w := Call(mode, run.rows, chunks[i], guard);
            RunChunks(mode, chunks[i..], keepGoing, run, guard) ==
            match w.response
            case Accepted(ids) =>
              RunChunks(mode, chunks[i + 1..], keepGoing,
                        Run(w.rows, run.accepted + ids, run.errors, run.sent + 1), guard)
            case Rejected =>
              var failed := Run(w.rows, run.accepted, run.errors + [run.sent], run.sent + 1);
              if keepGoing then RunChunks(mode, chunks[i + 1..], keepGoing, failed, guard) else failed
  {
    assert chunks[i..][1..] == chunks[i + 1..] && chunks[i..][0] == chunks[i];
  }

  // ----- a whole run, written out

  /** The rows before each chunk that was sent and after the last, and which chunks were rejected. */
  ghost predicate IsTrace(mode: Mode, chunks: seq<seq<Edge>>, guard: Guard, rows: seq<Edge>, verdicts: seq<bool>,
                          trace: seq<seq<Edge>>)
  {
    && |verdicts| <= |chunks| && |trace| == |verdicts| + 1 && trace[0] == rows
    && forall i | 0 <= i < |verdicts| :: Sent(mode, chunks[i], guard, trace[i], verdicts[i], trace[i + 1])
  }

  /** One chunk, with its rows before and after. */
  ghost predicate Sent(mode: Mode, chunk: seq<Edge>, guard: Guard, rows: seq<Edge>, rejected: bool, after: seq<Edge>) {
    match mode
    case Apply =>
      Propose(rows, chunk, guard) == Written(after, if rejected then Rejected else Accepted(Ids(chunk)))
    case Validate =>
      after == rows && (rejected <==> exists e :: e in chunk && guard(rows, e))
  }

  /** The identities of the chunks that were not rejected, in order. */
  function Reported(chunks: seq<seq<Edge>>, verdicts: seq<bool>): seq<string>
    requires |verdicts| <= |chunks|
  {
    if verdicts == [] then []
    else
      var n := |verdicts| - 1;
      Reported(chunks, verdicts[..n]) + if verdicts[n] then [] else Ids(chunks[n])
  }

  /** The indices of the rejected chunks, in order. */
  ghost predicate Lists(verdicts: seq<bool>, errors: seq<nat>) {
    && (forall x, y | 0 <= x < y < |errors| :: errors[x] < errors[y])
    && (forall x | 0 <= x < |errors| :: errors[x] < |verdicts| && verdicts[errors[x]])
    && forall i | 0 <= i < |verdicts| && verdicts[i] :: exists x :: 0 <= x < |errors| && errors[x] == i
  }

  lemma ListsNext(verdicts: seq<bool>, errors: seq<nat>, v: bool)
    requires Lists(verdicts, errors)
    ensures Lists(verdicts + [v], if v then errors + [|verdicts|] else errors)
  {
    var next := if v then errors + [|verdicts|] else errors;
    forall i | 0 <= i < |verdicts| + 1 && (verdicts + [v])[i] ensures exists x :: 0 <= x < |next| && next[x] == i {
      if i < |verdicts| {
        var x :| 0 <= x < |errors| && errors[x] == i;
        assert next[x] == i;
      } else {
        assert next[|errors|] == i;
      }
    }
  }

  /** What a run does: the chunks are sent in order, each on the rows the one before left.  When one may
      go on all are sent, otherwise up to the first that is rejected. */
  ghost predicate RunWrites(mode: Mode, chunks: seq<seq<Edge>>, keepGoing: bool, guard: Guard, rows: seq<Edge>,
                            run: Run, verdicts: seq<bool>, trace: seq<seq<Edge>>)
  {
    && SoFar(mode, chunks, keepGoing, guard, rows, run, verdicts, trace)
    && (run.sent == |chunks| || (!keepGoing && run.sent > 0 && verdicts[run.sent - 1]))
  }

  ghost predicate SoFar(mode: Mode, chunks: seq<seq<Edge>>, keepGoing: bool, guard: Guard, rows: seq<Edge>,
                        run: Run, verdicts: seq<bool>, trace: seq<seq<Edge>>)
  {
    && IsTrace(mode, chunks, guard, rows, verdicts, trace)
    && run.sent == |verdicts| && run.rows == trace[run.sent]
    && Lists(verdicts, run.errors) && run.accepted == Reported(chunks, verdicts)
    && (!keepGoing ==> forall i | 0 <= i < |verdicts| - 1 :: !verdicts[i])
  }

  lemma CallSent(mode: Mode, rows: seq<Edge>, chunk: seq<Edge>, guard: Guard)
    ensures var w := Call(mode, rows, chunk, guard);
            Sent(mode, chunk, guard, rows, w.response.Rejected?, w.rows)
            && (w.response.Accepted? ==> w.response.ids == Ids(chunk))
  {
    if mode == Apply {
      ProposeWritten(rows, chunk, guard);
    }
  }

  lemma TraceNext(mode: Mode, chunks: seq<seq<Edge>>, guard: Guard, rows: seq<Edge>, verdicts: seq<bool>,
                  trace: seq<seq<Edge>>, v: bool, after: seq<Edge>)
    requires IsTrace(mode, chunks, guard, rows, verdicts, trace) && |verdicts| < |chunks|
    requires Sent(mode, chunks[|verdicts|], guard, trace[|verdicts|], v, after)
    ensures IsTrace(mode, chunks, guard, rows, verdicts + [v], trace + [after])
  {
    forall i | 0 <= i < |verdicts| + 1
      ensures Sent(mode, chunks[i], guard, (trace + [after])[i], (verdicts + [v])[i], (trace + [after])[i + 1])
    {
      if i < |verdicts| {
        assert Sent(mode, chunks[i], guard, trace[i], verdicts[i], trace[i + 1]);
      }
    }
  }

  lemma ReportedNext(chunks: seq<seq<Edge>>, verdicts: seq<bool>, v: bool)
    requires |verdicts| < |chunks|
    ensures Reported(chunks, verdicts + [v])
            == Reported(chunks, verdicts) + if v then [] else Ids(chunks[|verdicts|])
  {
    assert (verdicts + [v])[..|verdicts|] == verdicts;
  }

  ghost function NextRun(run: Run, w: Written): Run {
    match w.response
    case Accepted(ids) => Run(w.rows, run.accepted + ids, run.errors, run.sent + 1)
    case Rejected => Run(w.rows, run.accepted, run.errors + [run.sent], run.sent + 1)
  }

  lemma SoFarNext(mode: Mode, chunks: seq<seq<Edge>>, keepGoing: bool, guard: Guard, rows: seq<Edge>, run: Run,
                  verdicts: seq<bool>, trace: seq<seq<Edge>>, w: Written)
    requires SoFar(mode, chunks, keepGoing, guard, rows, run, verdicts, trace) && run.sent < |chunks|
    requires keepGoing || forall i | 0 <= i < |verdicts| :: !verdicts[i]
    requires w == Call(mode, run.rows, chunks[run.sent], guard)
    ensures SoFar(mode, chunks, keepGoing, guard, rows, NextRun(run, w), verdicts + [w.response.Rejected?],
                  trace + [w.rows])
  {
    CallSent(mode, run.rows, chunks[run.sent], guard);
    TraceNext(mode, chunks, guard, rows, verdicts, trace, w.response.Rejected?, w.rows);
    ListsNext(verdicts, run.errors, w.response.Rejected?);
    ReportedNext(chunks, verdicts, w.response.Rejected?);
  }

  ghost predicate Runs(mode: Mode, chunks: seq<seq<Edge>>, keepGoing: bool, guard: Guard, rows: seq<Edge>, run: Run) {
    exists verdicts: seq<bool>, trace: seq<seq<Edge>> ::
      RunWrites(mode, chunks, keepGoing, guard, rows, run, verdicts, trace)
  }

  lemma Unfolded(mode: Mode, chunks: seq<seq<Edge>>, keepGoing: bool, run: Run, guard: Guard, w: Written)
    requires run.sent < |chunks| && w == Call(mode, run.rows, chunks[run.sent], guard)
    ensures RunChunks(mode, chunks[run.sent..], keepGoing, run, guard)
            == if w.response.Rejected? && !keepGoing then NextRun(run, w)
               else RunChunks(mode, chunks[run.sent + 1..], keepGoing, NextRun(run, w), guard)
  {
    ChunkTurn(mode, chunks, run.sent, keepGoing, run, guard);
  }

  lemma {:induction false} RunsOn(mode: Mode, chunks: seq<seq<Edge>>, keepGoing: bool, guard: Guard, rows: seq<Edge>,
                                  run: Run, verdicts: seq<bool>, trace: seq<seq<Edge>>)
    requires SoFar(mode, chunks, keepGoing, guard, rows, run, verdicts, trace)
    requires keepGoing || forall i | 0 <= i < |verdicts| :: !verdicts[i]
    ensures Runs(mode, chunks, keepGoing, guard, rows, RunChunks(mode, chunks[run.sent..], keepGoing, run, guard))
    decreases |chunks| - run.sent
  {
    if run.sent == |chunks| {
      assert chunks[run.sent..] == [];
      assert RunWrites(mode, chunks, keepGoing, guard, rows, run, verdicts, trace);
    } else {
      var w := Call(mode, run.rows, chunks[run.sent], guard);
      var v := w.response.Rejected?;
      SoFarNext(mode, chunks, keepGoing, guard, rows, run, verdicts, trace, w);
      Unfolded(mode, chunks, keepGoing, run, guard, w);
      if v && !keepGoing {
        assert RunWrites(mode, chunks, keepGoing, guard, rows, NextRun(run, w), verdicts + [v], trace + [w.rows]);
      } else {
        RunsOn(mode, chunks, keepGoing, guard, rows, NextRun(run, w), verdicts + [v], trace + [w.rows]);
      }
    }
  }

  /** Every run over chunks, in either mode, with or without going on after a rejection. */
  lemma RunWritten(mode: Mode, chunks: seq<seq<Edge>>, keepGoing: bool, guard: Guard, rows: seq<Edge>)
    ensures Runs(mode, chunks, keepGoing, guard, rows,
                 RunChunks(mode, chunks, keepGoing, Run(rows, [], [], 0), guard))
  {
    assert chunks[0..] == chunks;
    var none: seq<bool> := [];
    assert SoFar(mode, chunks, keepGoing, guard, rows, Run(rows, [], [], 0), none, [rows]);
    RunsOn(mode, chunks, keepGoing, guard, rows, Run(rows, [], [], 0), none, [rows]);
  }

  class Memory {
    var rows: seq<Edge>
    const adoptable: Adoptable

    constructor (rows: seq<Edge>, adoptable: Adoptable)
      ensures this.rows == rows && this.adoptable == adoptable
    {
      this.rows, this.adoptable := rows, adoptable;
    }

    method SemanticConflict(e: Edge) returns (conflict: bool)
      ensures conflict <==> ServiceConflict(rows, e, adoptable)
    {
      if e.kind !in DIRECTIONAL {
        return false;
      }
      var visible := Visible(rows, e, adoptable);
      if Inverse(visible, e) {
        return true;
      }
      conflict := ShortCycle(visible, e);
    }

    method ProposeSemanticEdges(chunk: seq<Edge>) returns (response: Response)
      modifies this
      ensures Written(rows, response) == Propose(old(rows), chunk, GuardOf(adoptable))
    {
      var ids: seq<string> := [];
      for i := 0 to |chunk|
        invariant Propose(old(rows), chunk[..i], GuardOf(adoptable)) == Written(rows, Accepted(ids))
      {
        assert chunk[..i + 1][..i] == chunk[..i];
        var e := chunk[i];
        var conflict := SemanticConflict(e);
        if conflict {
          RejectionSticks(old(rows), chunk, i + 1, GuardOf(adoptable));
          return Rejected;
        }
        rows := Upsert(rows, e);
        ids := ids + [e.edgeId];
      }
      assert chunk[..|chunk|] == chunk;
      return Accepted(ids);
    }

    /** The same checks against the stored rows only; nothing is written. */
    method ValidateSemanticEdges(chunk: seq<Edge>) returns (response: Response)
      ensures Written(rows, response) == Call(Validate, rows, chunk, GuardOf(adoptable))
    {
      var ids: seq<string> := [];
      for i := 0 to |chunk|
        invariant !AnyConflict(rows, chunk[..i], GuardOf(adoptable)) && ids == Ids(chunk[..i])
      {
        assert chunk[..i + 1][..i] == chunk[..i];
        var conflict := SemanticConflict(chunk[i]);
        if conflict {
          assert chunk[i] in chunk;
          return Rejected;
        }
        assert chunk[..i + 1] == chunk[..i] + [chunk[i]];
        ids := ids + [chunk[i].edgeId];
      }
      assert chunk[..|chunk|] == chunk;
      return Accepted(ids);
    }

    /** A zero chunk size raises before anything is sent; a negative one sends nothing. */
    method RunMode(candidates: seq<Edge>, mode: Mode, chunkSize: int, keepGoing: bool)
      returns (raised: bool, accepted: seq<string>, errors: seq<nat>, sent: nat)
      modifies this
      ensures raised <==> chunkSize == 0
      ensures chunkSize <= 0 ==> rows == old(rows) && accepted == [] && errors == []
      ensures match ChunksOf(candidates, chunkSize)
              case InvalidStep => raised && rows == old(rows)
              case Chunks(chunks) =>
                !raised && Run(rows, accepted, errors, sent) ==
                RunChunks(mode, chunks, keepGoing, Run(old(rows), [], [], 0), GuardOf(adoptable))
                && Runs(mode, chunks, keepGoing, GuardOf(adoptable), old(rows), Run(rows, accepted, errors, sent))
    {
      raised, accepted, errors, sent := false, [], [], 0;
      var chunking := ChunksOf(candidates, chunkSize);
      if chunking.InvalidStep? {
        raised := true;
        return;
      }
      var chunks := chunking.chunks;
      RunWritten(mode, chunks, keepGoing, GuardOf(adoptable), rows);
      for i := 0 to |chunks|
        invariant sent == i
        invariant RunChunks(mode, chunks[i..], keepGoing, Run(rows, accepted, errors, sent), GuardOf(adoptable)) ==
                  RunChunks(mode, chunks, keepGoing, Run(old(rows), [], [], 0), GuardOf(adoptable))
      {
        var response: Response;
        ChunkTurn(mode, chunks, i, keepGoing, Run(rows, accepted, errors, sent), GuardOf(adoptable));
        match mode {
          case Apply => response := ProposeSemanticEdges(chunks[i]);
          case Validate => response := ValidateSemanticEdges(chunks[i]);
        }
        sent := sent + 1;
        match response {
          case Accepted(ids) =>
            accepted := accepted + ids;
          case Rejected =>
            errors := errors + [i];
            if !keepGoing {
              return;
            }
        }
      }
    }
  }

  lemma {:induction false} RejectionSticks(rows: seq<Edge>, chunk: seq<Edge>, n: nat, guard: Guard)
    requires n <= |chunk| && Propose(rows, chunk[..n], guard).response.Rejected?
    ensures Propose(rows, chunk, guard) == Propose(rows, chunk[..n], guard)
    decreases |chunk|
  {
    if n < |chunk| {
      var front := chunk[..|chunk| - 1];
      assert front[..n] == chunk[..n];
      RejectionSticks(rows, front, n, guard);
    } else {
      assert chunk[..n] == chunk;
    }
  }

  lemma IdsAppend(a: seq<Edge>, b: seq<Edge>)
    ensures Ids(a + b) == Ids(a) + Ids(b)
  {
  }

  lemma SlicesStep<T>(values: seq<T>, size: nat, start: nat, end: nat)
    requires size > 0 && start < |values|
    requires end == if start + size <= |values| then start + size else |values|
    ensures Slices(values, size, start) == [values[start..end]] + Slices(values, size, end)
  {
  }

  lemma RunStep(mode: Mode, chunk: seq<Edge>, rest: seq<seq<Edge>>, keepGoing: bool, run: Run, guard: Guard)
    requires Call(mode, run.rows, chunk, guard).response.Accepted?
    ensures var w := Call(mode, run.rows, chunk, guard);
            RunChunks(mode, [chunk] + rest, keepGoing, run, guard) ==
            RunChunks(mode, rest, keepGoing,
                      Run(w.rows, run.accepted + w.response.ids, run.errors, run.sent + 1), guard)
  {
  }

  ghost predicate CleanRun(kept: seq<Edge>, start: nat, run: Run, done: Run)
    requires start <= |kept|
  {
    && done.errors == run.errors
    && done.accepted == run.accepted + Ids(kept[start..])
    && Subgraph(run.rows, done.rows)
    && AllStored(done.rows, kept, start, |kept|)
  }

  lemma CleanAppend(kept: seq<Edge>, start: nat, end: nat, run: Run, next: Run, done: Run)
    requires start <= end <= |kept| && CleanRun(kept, end, next, done)
    requires next.errors == run.errors && next.accepted == run.accepted + Ids(kept[start..end])
    requires Subgraph(run.rows, next.rows) && AllStored(next.rows, kept, start, end)
    ensures CleanRun(kept, start, run, done)
  {
  }

  lemma {:induction false} ApplyClean(kept: seq<Edge>, existing: seq<Edge>, run: Run, size: nat,
                                      start: nat, keepGoing: bool, guard: Guard)
    requires Passes(kept, existing, guard) && size > 0 && start <= |kept|
    requires Subgraph(run.rows, existing + kept[..start])
    ensures CleanRun(kept, start, run, RunChunks(Apply, Slices(kept, size, start), keepGoing, run, guard))
    decreases |kept| - start
  {
    if start < |kept| {
      var end := if start + size <= |kept| then start + size else |kept|;
      var chunk := kept[start..end];
      ChunkAccepted(kept, existing, run.rows, start, end, guard);
      var w := Propose(run.rows, chunk, guard);
      var next := Run(w.rows, run.accepted + Ids(chunk), run.errors, run.sent + 1);
      SlicesStep(kept, size, start, end);
      RunStep(Apply, chunk, Slices(kept, size, end), keepGoing, run, guard);
      ApplyClean(kept, existing, next, size, end, keepGoing, guard);
      CleanAppend(kept, start, end, run, next, RunChunks(Apply, Slices(kept, size, end), keepGoing, next, guard));
    }
  }

  lemma ChunkUnopposed(kept: seq<Edge>, existing: seq<Edge>, lo: nat, hi: nat, guard: Guard)
    requires Passes(kept, existing, guard) && lo <= hi <= |kept|
    ensures !AnyConflict(existing, kept[lo..hi], guard)
  {
    forall e | e in kept[lo..hi] ensures !guard(existing, e) {
      var i :| 0 <= i < hi - lo && kept[lo..hi][i] == e;
      assert Subgraph(existing, existing + kept[..lo + i]);
      PassesAt(kept, existing, existing, lo + i, guard);
    }
  }

  lemma {:induction false} ValidateClean(kept: seq<Edge>, existing: seq<Edge>, run: Run, size: nat,
                                         start: nat, keepGoing: bool, guard: Guard)
    requires Passes(kept, existing, guard) && size > 0 && start <= |kept| && run.rows == existing
    ensures RunChunks(Validate, Slices(kept, size, start), keepGoing, run, guard) ==
            Run(existing, run.accepted + Ids(kept[start..]), run.errors, run.sent + |Slices(kept, size, start)|)
    decreases |kept| - start
  {
    if start < |kept| {
      var end := if start + size <= |kept| then start + size else |kept|;
      var chunk := kept[start..end];
      ChunkUnopposed(kept, existing, start, end, guard);
      SlicesStep(kept, size, start, end);
      RunStep(Validate, chunk, Slices(kept, size, end), keepGoing, run, guard);
      var next := Run(existing, run.accepted + Ids(chunk), run.errors, run.sent + 1);
      ValidateClean(kept, existing, next, size, end, keepGoing, guard);
      IdsAppend(chunk, kept[end..]);
      assert kept[start..] == chunk + kept[end..];
    }
  }

  /** Writing the filter's output in chunks of any positive size, on the rows it was filtered
      against: no chunk is ever rejected, every identity is reported in order and, when applied,
      stored. */
  lemma KeptNeverRejected(candidates: seq<Edge>, existing: seq<Edge>, size: nat, keepGoing: bool, adoptable: Adoptable)
    requires size > 0
    ensures var kept := Kept(candidates, existing);
            var applied := RunChunks(Apply, Slices(kept, size, 0), keepGoing, Run(existing, [], [], 0),
                                     GuardOf(adoptable));
            && applied.errors == [] && applied.accepted == Ids(kept)
            && Subgraph(existing, applied.rows)
            && AllStored(applied.rows, kept, 0, |kept|)
    ensures var kept := Kept(candidates, existing);
            RunChunks(Validate, Slices(kept, size, 0), keepGoing, Run(existing, [], [], 0), GuardOf(adoptable)) ==
            Run(existing, Ids(kept), [], |Slices(kept, size, 0)|)
  {
    var kept := Kept(candidates, existing);
    KeptPasses(candidates, existing, adoptable);
    ApplyClean(kept, existing, Run(existing, [], [], 0), size, 0, keepGoing, GuardOf(adoptable));
    ValidateClean(kept, existing, Run(existing, [], [], 0), size, 0, keepGoing, GuardOf(adoptable));
    assert kept[0..] == kept;
  }
}
