/**
 Do records only ever move to families whose canonical set contains that of the family they came
 from?  Expansions always do; a join does exactly when its target still covers the source at the
 moment it runs.  When stored keys are tight every step does, over any number of rounds.
 */
module FamilyCover {
  import opened FamilyModel
  import opened FamilyPlanner
  import opened FamilyPlannerFacts
  import opened FamilyMerge
  import opened FamilyRound
  import opened FamilyRounds

  /** A stored key that is an identity digest is the digest of a set as large, canonically, as the
      family's whole primary set. */
  ghost predicate TightKeys(hash: KeyHash, db: Db) {
    forall f, a, s | f in db.families && hash(a, s) == f.key :: Canon(s) == CanonOf(db, f)
  }

  ghost predicate RecordsCovered(db0: Db, db: Db)
    requires OwnersLive(db0) && OwnersLive(db) && SameRecords(db0, db)
  {
    forall r | r in db0.records && db0.records[r].owner.Some? ::
      CanonOf(db0, db0.records[r].owner.value) <= CanonOf(db, db.records[r].owner.value)
  }

  ghost predicate TightState(hash: KeyHash, db0: Db, db: Db) {
    && TightKeys(hash, db)
    && forall f | f in db.families && f in db0.families :: CanonOf(db, f) == CanonOf(db0, f)
  }

  /** A planned join whose target is stored runs, and leaves every moved record covered if and only
      if, just before it, target and moved records together already cover the source. */
  lemma JoinCoversIff(hash: KeyHash, db0: Db, fams: seq<Fam>, db: Db, gone: set<FamilyId>, e: Entry)
    requires Injective(hash) && IsLoad(db0, fams) && KeyDiscipline(hash, db0)
    requires RoundInv(hash, db0, db, gone) && e in PlanOf(fams) && e.src !in gone
    requires e.relation == Join && e.dst in db.families
    ensures Execute(hash, db, fams, e).Merged? && e.src in db.families
    ensures var db' := Execute(hash, db, fams, e).db;
            && e.dst in db'.families
            && (CanonOf(db, e.src) <= CanonOf(db', e.dst) <==>
                Canon(db.families[e.src].primary) <= CanonOf(db, e.dst) + Canon(RecordKeys(db, e.src)))
    ensures e.dst !in gone ==> CanonOf(db, e.src) <= CanonOf(Execute(hash, db, fams, e).db, e.dst)
  {
    PlanExact(fams);
    var f, o :| Explains(fams, e, f, o);
    PlannedFam(db0, fams, f);
    PlannedFam(db0, fams, o);
    assert Continues(db0, db, e.src);
    JoinStep(hash, db0, fams, db, gone, e, f, o);
    DstCanon(db, e.src, e.dst, o.ascendancy, o.primary);
    CanonUnion(db.families[e.src].primary, RecordKeys(db, e.src));
    if e.dst !in gone {
      assert Continues(db0, db, e.dst);
    }
  }

  /** An executed expansion always covers its source, strictly. */
  lemma ExpandCovers(hash: KeyHash, db0: Db, fams: seq<Fam>, db: Db, gone: set<FamilyId>, e: Entry)
    requires Injective(hash) && IsLoad(db0, fams) && KeyDiscipline(hash, db0)
    requires RoundInv(hash, db0, db, gone) && e in PlanOf(fams) && e.src !in gone
    requires e.relation == Expand
    ensures Execute(hash, db, fams, e).Merged? && e.src in db.families
    ensures DstOf(hash, fams, e) in Execute(hash, db, fams, e).db.families
    ensures CanonOf(db, e.src) < CanonOf(Execute(hash, db, fams, e).db, DstOf(hash, fams, e))
  {
    ExecuteStep(hash, db0, fams, db, gone, e);
  }

  // ----- tight keys

  ghost predicate MergedCanons(db: Db, db': Db, src: FamilyId, dst: FamilyId, tokens: set<Token>)
    requires src in db.families && src != dst
  {
    && db'.families.Keys == db.families.Keys - {src} + {dst}
    && CanonOf(db', dst) == tokens
    && forall f | f in db.families && f != src && f != dst :: CanonOf(db', f) == CanonOf(db, f)
  }

  lemma OthersKeepCanon(db: Db, src: FamilyId, dst: FamilyId, ascendancy: string, primary: set<SkillKey>, db': Db)
    requires src in db.families && src != dst && db' == Merge(db, src, dst, ascendancy, primary)
    requires db'.families.Keys == db.families.Keys - {src} + {dst}
    ensures forall f | f in db.families && f != src && f != dst :: CanonOf(db', f) == CanonOf(db, f)
  {
    forall f | f in db.families && f != src && f != dst
      ensures CanonOf(db', f) == CanonOf(db, f)
    {
      MergePrimaryOther(db, src, dst, ascendancy, primary, f);
    }
  }

  lemma CoveringMerge(db: Db, src: FamilyId, dst: FamilyId, ascendancy: string, primary: set<SkillKey>, db': Db)
    requires OwnersLive(db) && src in db.families && src != dst
    requires db' == Merge(db, src, dst, ascendancy, primary)
    requires CanonOf(db, src) <= (if dst in db.families then CanonOf(db, dst) else Canon(primary))
    ensures MergedCanons(db, db', src, dst, if dst in db.families then CanonOf(db, dst) else Canon(primary))
  {
    MergeFamilies(db, src, dst, ascendancy, primary);
    OthersKeepCanon(db, src, dst, ascendancy, primary, db');
    DstCanon(db, src, dst, ascendancy, primary);
  }

  lemma TightAfter(hash: KeyHash, db0: Db, db: Db, db': Db, src: FamilyId, dst: FamilyId, ascendancy: string,
                   primary: set<SkillKey>)
    requires Injective(hash) && src in db.families && src != dst
    requires TightKeys(hash, db0) && TightState(hash, db0, db)
    requires MergedCanons(db, db', src, dst, if dst in db.families then CanonOf(db, dst) else Canon(primary))
    requires dst !in db.families ==> dst.key == hash(ascendancy, primary)
    ensures TightState(hash, db0, db')
  {
    forall f, a, s | f in db'.families && hash(a, s) == f.key
      ensures Canon(s) == CanonOf(db', f)
    {
      if f in db.families {
        assert Canon(s) == CanonOf(db, f);
      }
    }
  }

  lemma TightMerge(hash: KeyHash, db0: Db, db: Db, src: FamilyId, dst: FamilyId, ascendancy: string,
                   primary: set<SkillKey>)
    requires Injective(hash) && OwnersLive(db) && src in db.families && src != dst
    requires TightKeys(hash, db0) && TightState(hash, db0, db)
    requires CanonOf(db, src) <= (if dst in db.families then CanonOf(db, dst) else Canon(primary))
    requires dst !in db.families ==> dst.key == hash(ascendancy, primary)
    ensures var db' := Merge(db, src, dst, ascendancy, primary);
            dst in db'.families && CanonOf(db, src) <= CanonOf(db', dst) && TightState(hash, db0, db')
  {
    CoveringMerge(db, src, dst, ascendancy, primary, Merge(db, src, dst, ascendancy, primary));
    TightAfter(hash, db0, db, Merge(db, src, dst, ascendancy, primary), src, dst, ascendancy, primary);
  }

  lemma TightEntry(hash: KeyHash, db0: Db, fams: seq<Fam>, db: Db, gone: set<FamilyId>, e: Entry)
    requires Injective(hash) && IsLoad(db0, fams) && KeyDiscipline(hash, db0)
    requires RoundInv(hash, db0, db, gone) && e in PlanOf(fams) && e.src !in gone
    requires TightKeys(hash, db0) && TightState(hash, db0, db)
    requires Execute(hash, db, fams, e).Merged?
    ensures var db' := Execute(hash, db, fams, e).db;
            && e.src in db.families && DstOf(hash, fams, e) in db'.families
            && CanonOf(db, e.src) <= CanonOf(db', DstOf(hash, fams, e))
            && TightState(hash, db0, db')
  {
    PlanExact(fams);
    var f, o :| Explains(fams, e, f, o);
    PlannedFam(db0, fams, f);
    PlannedFam(db0, fams, o);
    assert Continues(db0, db, e.src);
    match e.relation
    case Join =>
      JoinStep(hash, db0, fams, db, gone, e, f, o);
      TightMerge(hash, db0, db, e.src, e.dst, o.ascendancy, o.primary);
    case Expand =>
      ExpandStep(hash, db0, fams, db, gone, e, f, o);
      var dst := DstOf(hash, fams, e);
      ExpandBounds(hash, db0, fams, db, gone, e, f, o, dst);
      TightMerge(hash, db0, db, e.src, dst, f.ascendancy, e.dstPrimary);
  }

  lemma CoverStep(db0: Db, db: Db, db': Db, e: Entry, dst: FamilyId)
    requires OwnersLive(db0) && OwnersLive(db) && OwnersLive(db')
    requires SameRecords(db0, db) && SameRecords(db0, db')
    requires StepFacts(db0, db, db', e, dst) && CanonOf(db, e.src) <= CanonOf(db', dst)
    requires RecordsCovered(db0, db)
    ensures RecordsCovered(db0, db')
  {
  }

  lemma {:induction false} TightRun(hash: KeyHash, db0: Db, fams: seq<Fam>, u: set<Token>,
                                    n: nat) returns (gone: set<FamilyId>)
    requires Injective(hash) && IsLoad(db0, fams) && KeyDiscipline(hash, db0)
    requires OwnersLive(db0) && Within(db0, u) && n <= |PlanOf(fams)| && TightKeys(hash, db0)
    ensures gone <= SourcesIn(PlanOf(fams)[..n])
    ensures match RunPlan(hash, db0, fams, PlanOf(fams)[..n])
            case Failed => false
            case Done(db, merged) =>
              && RunFacts(hash, db0, u, n, gone, db, merged)
              && TightState(hash, db0, db) && RecordsCovered(db0, db)
  {
    var plan := PlanOf(fams);
    if n == 0 {
      gone := {};
      RoundStart(hash, db0);
    } else {
      var e := plan[n - 1];
      assert plan[..n][..n - 1] == plan[..n - 1];
      gone := TightRun(hash, db0, fams, u, n - 1);
      var Done(db, merged) := RunPlan(hash, db0, fams, plan[..n - 1]);
      PlanSourcesDistinct(fams);
      SourcesOfPrefix(plan, n - 1);
      RunStep(hash, db0, fams, u, n - 1, gone, db, merged, e);
      if Execute(hash, db, fams, e).Merged? {
        ExecuteStep(hash, db0, fams, db, gone, e);
        TightEntry(hash, db0, fams, db, gone, e);
        CoverStep(db0, db, Execute(hash, db, fams, e).db, e, DstOf(hash, fams, e));
        gone := gone + {e.src};
      }
    }
  }
}
