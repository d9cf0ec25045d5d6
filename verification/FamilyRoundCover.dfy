/**
 Whole rounds that strand no record: the exact condition at every entry's turn, and a condition on
 the plan alone, met by tight keys, under which every entry meets it.
 */
module FamilyRoundCover {
  import opened FamilyModel
  import opened FamilyPlanner
  import opened FamilyPlannerFacts
  import opened FamilyMerge
  import opened FamilyRound
  import opened FamilyRounds
  import opened FamilyCover

  /** The tables when entry n of the plan has its turn. */
  function TablesAt(hash: KeyHash, db0: Db, fams: seq<Fam>, n: nat): Db
    requires n <= |PlanOf(fams)|
  {
    match RunPlan(hash, db0, fams, PlanOf(fams)[..n])
    case Done(db, _) => db
    case Failed => db0
  }

  /** If the entry runs, the records it moves end under a family that covers their old one. */
  ghost predicate MoveCovers(hash: KeyHash, fams: seq<Fam>, db: Db, e: Entry) {
    match Execute(hash, db, fams, e)
    case Merged(db') =>
      && e.src in db.families && DstOf(hash, fams, e) in db'.families
      && CanonOf(db, e.src) <= CanonOf(db', DstOf(hash, fams, e))
    case _ => true
  }

  /** If the entry is a join that runs, its target as it is now, with the moved records, covers what
      is stored with the source. */
  ghost predicate JoinsCovering(db: Db, e: Entry) {
    e.relation == Join && e.src in db.families && e.dst in db.families ==>
      Canon(db.families[e.src].primary) <= CanonOf(db, e.dst) + Canon(RecordKeys(db, e.src))
  }

  ghost predicate EntryCovers(hash: KeyHash, db0: Db, fams: seq<Fam>, n: nat)
    requires n < |PlanOf(fams)|
  {
    MoveCovers(hash, fams, TablesAt(hash, db0, fams, n), PlanOf(fams)[n])
  }

  ghost predicate TargetCovers(hash: KeyHash, db0: Db, fams: seq<Fam>, n: nat)
    requires n < |PlanOf(fams)|
  {
    JoinsCovering(TablesAt(hash, db0, fams, n), PlanOf(fams)[n])
  }

  lemma MoveCoversIff(hash: KeyHash, db0: Db, fams: seq<Fam>, db: Db, gone: set<FamilyId>, e: Entry)
    requires Injective(hash) && IsLoad(db0, fams) && KeyDiscipline(hash, db0)
    requires RoundInv(hash, db0, db, gone) && e in PlanOf(fams) && e.src !in gone
    ensures MoveCovers(hash, fams, db, e) <==> JoinsCovering(db, e)
  {
    if e.relation == Expand {
      ExpandCovers(hash, db0, fams, db, gone, e);
    } else if e.dst in db.families {
      JoinCoversIff(hash, db0, fams, db, gone, e);
    }
  }

  lemma TurnFacts(hash: KeyHash, db0: Db, fams: seq<Fam>, u: set<Token>, n: nat) returns (gone: set<FamilyId>)
    requires Injective(hash) && IsLoad(db0, fams) && KeyDiscipline(hash, db0)
    requires OwnersLive(db0) && Within(db0, u) && n < |PlanOf(fams)|
    ensures var db := TablesAt(hash, db0, fams, n);
            RoundInv(hash, db0, db, gone) && PlanOf(fams)[n].src !in gone && OwnersLive(db) && SameRecords(db0, db)
    ensures PlanOf(fams)[n] in PlanOf(fams)
  {
    gone := RunKeeps(hash, db0, fams, u, n);
    PlanSourcesDistinct(fams);
    SourcesOfPrefix(PlanOf(fams), n);
  }

  lemma EntryCoversIff(hash: KeyHash, db0: Db, fams: seq<Fam>, u: set<Token>, n: nat)
    requires Injective(hash) && IsLoad(db0, fams) && KeyDiscipline(hash, db0)
    requires OwnersLive(db0) && Within(db0, u) && n < |PlanOf(fams)|
    ensures EntryCovers(hash, db0, fams, n) <==> TargetCovers(hash, db0, fams, n)
  {
    var gone := TurnFacts(hash, db0, fams, u, n);
    MoveCoversIff(hash, db0, fams, TablesAt(hash, db0, fams, n), gone, PlanOf(fams)[n]);
  }

  /** Every entry of a round covers the records it moves if and only if every join that runs finds its
      target, as it is at its turn, covering its source. */
  lemma RoundCoversIff(hash: KeyHash, db0: Db, fams: seq<Fam>, u: set<Token>)
    requires Injective(hash) && IsLoad(db0, fams) && KeyDiscipline(hash, db0) && OwnersLive(db0) && Within(db0, u)
    ensures (forall n | 0 <= n < |PlanOf(fams)| :: EntryCovers(hash, db0, fams, n))
            <==> (forall n | 0 <= n < |PlanOf(fams)| :: TargetCovers(hash, db0, fams, n))
  {
    forall n | 0 <= n < |PlanOf(fams)|
      ensures EntryCovers(hash, db0, fams, n) <==> TargetCovers(hash, db0, fams, n)
    {
      EntryCoversIff(hash, db0, fams, u, n);
    }
  }

  lemma TablesNext(hash: KeyHash, db0: Db, fams: seq<Fam>, u: set<Token>, n: nat)
    requires Injective(hash) && IsLoad(db0, fams) && KeyDiscipline(hash, db0)
    requires OwnersLive(db0) && Within(db0, u) && n < |PlanOf(fams)|
    ensures TablesAt(hash, db0, fams, n + 1) ==
            match Execute(hash, TablesAt(hash, db0, fams, n), fams, PlanOf(fams)[n])
            case Merged(db') => db'
            case _ => TablesAt(hash, db0, fams, n)
  {
    var plan := PlanOf(fams);
    assert plan[..n + 1][..n] == plan[..n] && plan[..n + 1][n] == plan[n];
    var gone := RunKeeps(hash, db0, fams, u, n);
    var gone' := RunKeeps(hash, db0, fams, u, n + 1);
  }

  /** When every join finds its target covering, every record is under a family covering its old one
      after any part of the round. */
  lemma {:induction false} CoveringRun(hash: KeyHash, db0: Db, fams: seq<Fam>, u: set<Token>, n: nat)
    requires Injective(hash) && IsLoad(db0, fams) && KeyDiscipline(hash, db0)
    requires OwnersLive(db0) && Within(db0, u) && n <= |PlanOf(fams)|
    requires forall m | 0 <= m < n :: TargetCovers(hash, db0, fams, m)
    ensures var db := TablesAt(hash, db0, fams, n);
            OwnersLive(db) && SameRecords(db0, db) && RecordsCovered(db0, db)
  {
    if n == 0 {
      assert PlanOf(fams)[..0] == [];
    } else {
      var k := n - 1;
      CoveringRun(hash, db0, fams, u, k);
      assert TargetCovers(hash, db0, fams, k);
      CoveringStep(hash, db0, fams, u, k);
    }
  }

  lemma CoveringStep(hash: KeyHash, db0: Db, fams: seq<Fam>, u: set<Token>, n: nat)
    requires Injective(hash) && IsLoad(db0, fams) && KeyDiscipline(hash, db0)
    requires OwnersLive(db0) && Within(db0, u) && n < |PlanOf(fams)|
    requires var db := TablesAt(hash, db0, fams, n);
             OwnersLive(db) && SameRecords(db0, db) && RecordsCovered(db0, db)
    requires TargetCovers(hash, db0, fams, n)
    ensures var db := TablesAt(hash, db0, fams, n + 1);
            OwnersLive(db) && SameRecords(db0, db) && RecordsCovered(db0, db)
  {
    var db, e := TablesAt(hash, db0, fams, n), PlanOf(fams)[n];
    var gone := TurnFacts(hash, db0, fams, u, n);
    EntryCoversIff(hash, db0, fams, u, n);
    TablesNext(hash, db0, fams, u, n);
    ExecuteStep(hash, db0, fams, db, gone, e);
    if Execute(hash, db, fams, e).Merged? {
      CoverStep(db0, db, Execute(hash, db, fams, e).db, e, DstOf(hash, fams, e));
    }
  }

  // ----- a condition on the plan

  /** No join comes into a key that an earlier entry moved away and an expansion in between created
      again, unless the expanded keys cover the joining family anyway. */
  ghost predicate NoShrunkTarget(hash: KeyHash, db0: Db, fams: seq<Fam>) {
    var plan := PlanOf(fams);
    forall j, k, m | 0 <= j < k < m < |plan| && Recreates(hash, fams, plan[j], plan[k])
                     && plan[m].relation == Join && plan[m].dst == plan[j].src && plan[m].src in db0.families ::
      CanonOf(db0, plan[m].src) <= Canon(plan[k].dstPrimary)
  }

  predicate Recreates(hash: KeyHash, fams: seq<Fam>, moved: Entry, e: Entry) {
    e.relation == Expand && DstOf(hash, fams, e) == moved.src
  }

  /** Whatever was moved away and is there was created again, and still covers what it was created
      with. */
  ghost predicate Recreated(hash: KeyHash, fams: seq<Fam>, n: nat, gone: set<FamilyId>, db: Db)
    requires n <= |PlanOf(fams)|
  {
    forall t | t in gone && t in db.families :: WasRecreated(hash, fams, n, t, db)
  }

  ghost predicate WasRecreated(hash: KeyHash, fams: seq<Fam>, n: nat, t: FamilyId, db: Db)
    requires n <= |PlanOf(fams)| && t in db.families
  {
    exists j, k :: RecreatedBy(hash, fams, n, t, db, j, k)
  }

  ghost predicate RecreatedBy(hash: KeyHash, fams: seq<Fam>, n: nat, t: FamilyId, db: Db, j: int, k: int)
    requires n <= |PlanOf(fams)| && t in db.families
  {
    && 0 <= j < k < n && PlanOf(fams)[j].src == t && Recreates(hash, fams, PlanOf(fams)[j], PlanOf(fams)[k])
    && Canon(PlanOf(fams)[k].dstPrimary) <= CanonOf(db, t)
  }

  lemma RecreatedStep(hash: KeyHash, db0: Db, fams: seq<Fam>, n: nat, gone: set<FamilyId>, db: Db, db': Db)
    requires n < |PlanOf(fams)| && Recreated(hash, fams, n, gone, db)
    requires StepFacts(db0, db, db', PlanOf(fams)[n], DstOf(hash, fams, PlanOf(fams)[n]))
    requires gone <= SourcesIn(PlanOf(fams)[..n])
    requires PlanOf(fams)[n].relation == Expand ==>
               Canon(PlanOf(fams)[n].dstPrimary) <= CanonOf(db', DstOf(hash, fams, PlanOf(fams)[n]))
    ensures Recreated(hash, fams, n + 1, gone + {PlanOf(fams)[n].src}, db')
  {
    var plan := PlanOf(fams);
    var e, dst := plan[n], DstOf(hash, fams, plan[n]);
    forall t | t in gone + {e.src} && t in db'.families
      ensures WasRecreated(hash, fams, n + 1, t, db')
    {
      if t in db.families {
        assert WasRecreated(hash, fams, n, t, db);
        var j, k :| RecreatedBy(hash, fams, n, t, db, j, k);
        assert CanonOf(db, t) <= CanonOf(db', t);
        assert RecreatedBy(hash, fams, n + 1, t, db', j, k);
      } else {
        assert t == dst;
        var moved :| moved in plan[..n] && moved.src == t;
        var j :| 0 <= j < n && plan[j] == moved;
        assert RecreatedBy(hash, fams, n + 1, t, db', j, n);
      }
    }
  }

  lemma ExpandedCovers(hash: KeyHash, db0: Db, fams: seq<Fam>, db: Db, gone: set<FamilyId>, e: Entry)
    requires Injective(hash) && IsLoad(db0, fams) && KeyDiscipline(hash, db0)
    requires RoundInv(hash, db0, db, gone) && e in PlanOf(fams) && e.src !in gone && e.relation == Expand
    ensures Execute(hash, db, fams, e).Merged? && DstOf(hash, fams, e) in Execute(hash, db, fams, e).db.families
    ensures Canon(e.dstPrimary) <= CanonOf(Execute(hash, db, fams, e).db, DstOf(hash, fams, e))
  {
    PlanExact(fams);
    var f, o :| Explains(fams, e, f, o);
    var dst := FamilyId(e.src.scope, hash(f.ascendancy, e.dstPrimary));
    ExpandStep(hash, db0, fams, db, gone, e, f, o);
    ExpandBounds(hash, db0, fams, db, gone, e, f, o, dst);
    DstCanon(db, e.src, dst, f.ascendancy, e.dstPrimary);
  }

  lemma SafeEntry(hash: KeyHash, db0: Db, fams: seq<Fam>, n: nat, gone: set<FamilyId>, db: Db)
    requires Injective(hash) && IsLoad(db0, fams) && KeyDiscipline(hash, db0) && n < |PlanOf(fams)|
    requires RoundInv(hash, db0, db, gone) && PlanOf(fams)[n].src !in gone && db == TablesAt(hash, db0, fams, n)
    requires NoShrunkTarget(hash, db0, fams) && Recreated(hash, fams, n, gone, db)
    ensures TargetCovers(hash, db0, fams, n)
  {
    var e := PlanOf(fams)[n];
    if e.relation == Join && e.src in db.families && e.dst in db.families {
      JoinCoversIff(hash, db0, fams, db, gone, e);
      EntrySource(db0, fams, e);
      assert Continues(db0, db, e.src);
      if e.dst in gone {
        assert WasRecreated(hash, fams, n, e.dst, db);
        var j, k :| RecreatedBy(hash, fams, n, e.dst, db, j, k);
        assert CanonOf(db0, e.src) <= Canon(PlanOf(fams)[k].dstPrimary);
        CanonMonotone(db.families[e.src].primary, FullPrimary(db, e.src));
      }
    }
  }

  lemma SafeStep(hash: KeyHash, db0: Db, fams: seq<Fam>, n: nat, before: set<FamilyId>, db: Db)
      returns (gone: set<FamilyId>)
    requires Injective(hash) && IsLoad(db0, fams) && KeyDiscipline(hash, db0) && n < |PlanOf(fams)|
    requires RoundInv(hash, db0, db, before) && before <= SourcesIn(PlanOf(fams)[..n])
    requires Recreated(hash, fams, n, before, db)
    ensures gone <= SourcesIn(PlanOf(fams)[..n + 1])
    ensures var db' := match Execute(hash, db, fams, PlanOf(fams)[n]) case Merged(next) => next case _ => db;
            RoundInv(hash, db0, db', gone) && Recreated(hash, fams, n + 1, gone, db')
  {
    var e := PlanOf(fams)[n];
    PlanSourcesDistinct(fams);
    SourcesOfPrefix(PlanOf(fams), n);
    ExecuteStep(hash, db0, fams, db, before, e);
    if Execute(hash, db, fams, e).Merged? {
      if e.relation == Expand {
        ExpandedCovers(hash, db0, fams, db, before, e);
      }
      RecreatedStep(hash, db0, fams, n, before, db, Execute(hash, db, fams, e).db);
      gone := before + {e.src};
    } else {
      gone := before;
      RecreatedLater(hash, fams, n, gone, db);
    }
  }

  lemma RecreatedLater(hash: KeyHash, fams: seq<Fam>, n: nat, gone: set<FamilyId>, db: Db)
    requires n < |PlanOf(fams)| && Recreated(hash, fams, n, gone, db)
    ensures Recreated(hash, fams, n + 1, gone, db)
  {
    forall t | t in gone && t in db.families ensures WasRecreated(hash, fams, n + 1, t, db) {
      assert WasRecreated(hash, fams, n, t, db);
      var j, k :| RecreatedBy(hash, fams, n, t, db, j, k);
      assert RecreatedBy(hash, fams, n + 1, t, db, j, k);
    }
  }

  lemma {:induction false} SafeTurns(hash: KeyHash, db0: Db, fams: seq<Fam>, u: set<Token>, n: nat)
      returns (gone: set<FamilyId>)
    requires Injective(hash) && IsLoad(db0, fams) && KeyDiscipline(hash, db0)
    requires OwnersLive(db0) && Within(db0, u) && n <= |PlanOf(fams)| && NoShrunkTarget(hash, db0, fams)
    ensures var db := TablesAt(hash, db0, fams, n);
            RoundInv(hash, db0, db, gone) && gone <= SourcesIn(PlanOf(fams)[..n]) && Recreated(hash, fams, n, gone, db)
    ensures forall m | 0 <= m < n :: TargetCovers(hash, db0, fams, m)
  {
    if n == 0 {
      gone := {};
      assert PlanOf(fams)[..0] == [];
      RoundStart(hash, db0);
    } else {
      var k := n - 1;
      var db, e := TablesAt(hash, db0, fams, k), PlanOf(fams)[k];
      gone := SafeTurns(hash, db0, fams, u, k);
      PlanSourcesDistinct(fams);
      SourcesOfPrefix(PlanOf(fams), k);
      assert e.src !in gone;
      SafeEntry(hash, db0, fams, k, gone, db);
      TablesNext(hash, db0, fams, u, k);
      gone := SafeStep(hash, db0, fams, k, gone, db);
    }
  }

  /** Such a plan strands no record, whatever keys are stored. */
  lemma SafePlanCovers(hash: KeyHash, db0: Db, fams: seq<Fam>, u: set<Token>)
    requires Injective(hash) && IsLoad(db0, fams) && KeyDiscipline(hash, db0) && OwnersLive(db0) && Within(db0, u)
    requires NoShrunkTarget(hash, db0, fams)
    ensures RunPlan(hash, db0, fams, PlanOf(fams)).Done?
    ensures var db := RunPlan(hash, db0, fams, PlanOf(fams)).db;
            OwnersLive(db) && SameRecords(db0, db) && RecordsCovered(db0, db)
    ensures forall n | 0 <= n < |PlanOf(fams)| :: EntryCovers(hash, db0, fams, n)
  {
    var plan := PlanOf(fams);
    assert plan[..|plan|] == plan;
    var after := RunKeeps(hash, db0, fams, u, |plan|);
    var gone := SafeTurns(hash, db0, fams, u, |plan|);
    CoveringRun(hash, db0, fams, u, |plan|);
    RoundCoversIff(hash, db0, fams, u);
  }

  /** Tight keys make every plan such a plan. */
  lemma TightIsSafe(hash: KeyHash, db0: Db, fams: seq<Fam>)
    requires IsLoad(db0, fams) && TightKeys(hash, db0)
    ensures NoShrunkTarget(hash, db0, fams)
  {
    var plan := PlanOf(fams);
    PlanExact(fams);
    forall j, k, m | 0 <= j < k < m < |plan| && Recreates(hash, fams, plan[j], plan[k])
                     && plan[m].relation == Join && plan[m].dst == plan[j].src && plan[m].src in db0.families
      ensures CanonOf(db0, plan[m].src) <= Canon(plan[k].dstPrimary)
    {
      assert plan[m] in plan && plan[k] in plan;
      var f, o :| Explains(fams, plan[m], f, o);
      PlannedFam(db0, fams, f);
      PlannedFam(db0, fams, o);
      assert Canon(plan[k].dstPrimary) == CanonOf(db0, plan[m].dst);
    }
  }
}
