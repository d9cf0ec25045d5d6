/**
 One round of the apply loop: every entry, executed against the stale plan, keeps the round
 invariant, never crashes, and moves records only to families that cover their source.
 */
module FamilyRound {
  import opened FamilyModel
  import opened FamilyPlanner
  import opened FamilyPlannerFacts
  import opened FamilyMerge

  /** What the merge of src into dst must satisfy for the round invariant to survive it. */
  ghost predicate Fits(hash: KeyHash, db0: Db, db: Db, src: FamilyId, dst: FamilyId, ascendancy: string,
                       primary: set<SkillKey>)
    requires src in db.families
  {
    && src != dst && src.scope == dst.scope
    && ascendancy == db.families[src].ascendancy
    && (dst in db0.families ==>
          && FullPrimary(db0, dst) != {}
          && db0.families[dst].ascendancy == ascendancy
          && CanonOf(db, src) <= CanonOf(db0, dst))
    && (dst in db.families ==>
          && db.families[dst].ascendancy == ascendancy
          && (dst !in db0.families ==> CanonOf(db, src) <= CanonOf(db, dst)))
    && (dst !in db.families ==>
          && dst.key == hash(ascendancy, primary) && primary != {}
          && (if dst in db0.families then Canon(primary) <= CanonOf(db0, dst)
              else CoverExists(db0, src.scope, ascendancy, Canon(primary) + CanonOf(db, src))))
  }

  ghost predicate CoverExists(db0: Db, scope: string, ascendancy: string, tokens: set<Token>) {
    exists o :: o in db0.families && o.scope == scope && db0.families[o].ascendancy == ascendancy
                && tokens <= CanonOf(db0, o)
  }

  lemma DstCanon(db: Db, src: FamilyId, dst: FamilyId, ascendancy: string, primary: set<SkillKey>)
    requires src in db.families && src != dst && OwnersLive(db)
    ensures var db' := Merge(db, src, dst, ascendancy, primary);
            CanonOf(db', dst) ==
            (if dst in db.families then CanonOf(db, dst) else Canon(primary)) + Canon(RecordKeys(db, src))
    ensures Canon(RecordKeys(db, src)) <= CanonOf(db, src)
  {
    MergePrimaryDst(db, src, dst, ascendancy, primary);
    CanonUnion(if dst in db.families then FullPrimary(db, dst) else primary, RecordKeys(db, src));
    CanonMonotone(RecordKeys(db, src), FullPrimary(db, src));
  }

  lemma DisciplineKept(hash: KeyHash, db0: Db, db: Db, src: FamilyId, dst: FamilyId, ascendancy: string,
                       primary: set<SkillKey>)
    requires Injective(hash) && KeyDiscipline(hash, db) && OwnersLive(db)
    requires src in db.families && Fits(hash, db0, db, src, dst, ascendancy, primary)
    ensures KeyDiscipline(hash, Merge(db, src, dst, ascendancy, primary))
  {
    var db' := Merge(db, src, dst, ascendancy, primary);
    MergePrimaryDst(db, src, dst, ascendancy, primary);
    forall f, a, s | f in db'.families && hash(a, s) == f.key
      ensures a == db'.families[f].ascendancy && s <= FullPrimary(db', f)
    {
      if f != dst {
        MergePrimaryOther(db, src, dst, ascendancy, primary, f);
        assert db'.families[f] == db.families[f];
      }
    }
  }

  lemma ContinuesKept(hash: KeyHash, db0: Db, db: Db, gone: set<FamilyId>, src: FamilyId, dst: FamilyId,
                      ascendancy: string, primary: set<SkillKey>, f: FamilyId)
    requires RoundInv(hash, db0, db, gone) && src in db.families
    requires Fits(hash, db0, db, src, dst, ascendancy, primary)
    requires f in db0.families && f !in gone && f != src
    ensures Continues(db0, Merge(db, src, dst, ascendancy, primary), f)
  {
    assert Continues(db0, db, f);
    if f == dst {
      DstCanon(db, src, dst, ascendancy, primary);
    } else {
      MergePrimaryOther(db, src, dst, ascendancy, primary, f);
      MergeFamilies(db, src, dst, ascendancy, primary);
    }
  }

  lemma CoveredKept(hash: KeyHash, db0: Db, db: Db, gone: set<FamilyId>, src: FamilyId, dst: FamilyId,
                    ascendancy: string, primary: set<SkillKey>, f: FamilyId)
    requires RoundInv(hash, db0, db, gone) && src in db.families
    requires Fits(hash, db0, db, src, dst, ascendancy, primary)
    requires f in Merge(db, src, dst, ascendancy, primary).families
    ensures Covered(db0, Merge(db, src, dst, ascendancy, primary), f)
  {
    var db' := Merge(db, src, dst, ascendancy, primary);
    MergeFamilies(db, src, dst, ascendancy, primary);
    if f != dst {
      assert Covered(db0, db, f);
      MergePrimaryOther(db, src, dst, ascendancy, primary, f);
      assert CanonOf(db', f) == CanonOf(db, f) && db'.families[f] == db.families[f];
      if f !in db0.families {
        var o :| o in db0.families && SameGroup(db0, o, db, f) && CanonOf(db, f) <= CanonOf(db0, o);
        assert SameGroup(db0, o, db', f) && CanonOf(db', f) <= CanonOf(db0, o);
      }
    } else {
      DstCanon(db, src, dst, ascendancy, primary);
      assert db'.families[dst].ascendancy == ascendancy;
      if dst in db.families {
        assert Covered(db0, db, dst);
        if dst !in db0.families {
          var o :| o in db0.families && SameGroup(db0, o, db, dst) && CanonOf(db, dst) <= CanonOf(db0, o);
          assert SameGroup(db0, o, db', dst) && CanonOf(db', dst) <= CanonOf(db0, o);
        }
      } else if dst !in db0.families {
        var o :| o in db0.families && o.scope == src.scope && db0.families[o].ascendancy == ascendancy
                 && Canon(primary) + CanonOf(db, src) <= CanonOf(db0, o);
        assert SameGroup(db0, o, db', dst) && CanonOf(db', dst) <= CanonOf(db0, o);
      }
    }
  }

  lemma MergeKeepsRound(hash: KeyHash, db0: Db, db: Db, gone: set<FamilyId>, src: FamilyId, dst: FamilyId,
                        ascendancy: string, primary: set<SkillKey>)
    requires Injective(hash) && RoundInv(hash, db0, db, gone) && src in db.families
    requires Fits(hash, db0, db, src, dst, ascendancy, primary)
    ensures RoundInv(hash, db0, Merge(db, src, dst, ascendancy, primary), gone + {src})
  {
    var db' := Merge(db, src, dst, ascendancy, primary);
    DisciplineKept(hash, db0, db, src, dst, ascendancy, primary);
    MergeFamilies(db, src, dst, ascendancy, primary);
    forall f | f in db0.families && f !in gone + {src} ensures Continues(db0, db', f) {
      ContinuesKept(hash, db0, db, gone, src, dst, ascendancy, primary, f);
    }
    forall f | f in db'.families ensures Covered(db0, db', f) {
      CoveredKept(hash, db0, db, gone, src, dst, ascendancy, primary, f);
    }
    forall g ensures SourcesOf(db', g) == SourcesOf(db0, g) {
      SourcesMerged(db, src, dst, ascendancy, primary, g);
    }
  }

  // ----- executing one planned entry

  lemma PlannedFam(db0: Db, fams: seq<Fam>, f: Fam)
    requires IsLoad(db0, fams) && f in fams
    ensures f.id in db0.families && f == View(db0, f.id) && Lookup(fams, f.id) == Some(f)
  {
    LookupFinds(fams, f);
    var i :| 0 <= i < |fams| && fams[i] == f;
  }

  lemma StepFromMerge(db0: Db, db: Db, e: Entry, dst: FamilyId, ascendancy: string, primary: set<SkillKey>)
    requires OwnersLive(db) && e.src in db0.families && e.src in db.families && e.src != dst
    requires e.src.scope == dst.scope && ascendancy == db.families[e.src].ascendancy
    requires dst in db.families ==> db.families[dst].ascendancy == ascendancy
    requires e.relation == Expand ==>
               CanonOf(db, e.src) < (if dst in db.families then CanonOf(db, dst) else Canon(primary))
    requires dst !in db.families ==> e.relation == Expand
    ensures StepFacts(db0, db, Merge(db, e.src, dst, ascendancy, primary), e, dst)
  {
    var db' := Merge(db, e.src, dst, ascendancy, primary);
    MergeFamilies(db, e.src, dst, ascendancy, primary);
    DstCanon(db, e.src, dst, ascendancy, primary);
    forall f | f in db.families && f != e.src && f != dst
      ensures db'.families[f] == db.families[f] && FullPrimary(db', f) == FullPrimary(db, f)
    {
      MergePrimaryOther(db, e.src, dst, ascendancy, primary, f);
    }
  }

  lemma JoinStep(hash: KeyHash, db0: Db, fams: seq<Fam>, db: Db, gone: set<FamilyId>, e: Entry, f: Fam, o: Fam)
    requires Injective(hash) && IsLoad(db0, fams) && RoundInv(hash, db0, db, gone)
    requires Explains(fams, e, f, o) && e.src !in gone && e.relation == Join && e.dst in db.families
    ensures Execute(hash, db, fams, e) == Merged(Merge(db, e.src, e.dst, o.ascendancy, o.primary))
    ensures RoundInv(hash, db0, Merge(db, e.src, e.dst, o.ascendancy, o.primary), gone + {e.src})
    ensures StepFacts(db0, db, Merge(db, e.src, e.dst, o.ascendancy, o.primary), e, e.dst)
  {
    PlannedFam(db0, fams, f);
    PlannedFam(db0, fams, o);
    assert Continues(db0, db, e.src);
    assert Covered(db0, db, e.dst);
    assert Fits(hash, db0, db, e.src, e.dst, o.ascendancy, o.primary);
    MergeKeepsRound(hash, db0, db, gone, e.src, e.dst, o.ascendancy, o.primary);
    StepFromMerge(db0, db, e, e.dst, o.ascendancy, o.primary);
  }

  /** The expanded key set covers its source strictly, and whoever holds its key covers it. */
  lemma ExpandBounds(hash: KeyHash, db0: Db, fams: seq<Fam>, db: Db, gone: set<FamilyId>, e: Entry, f: Fam, o: Fam,
                     dst: FamilyId)
    requires Injective(hash) && IsLoad(db0, fams) && RoundInv(hash, db0, db, gone)
    requires KeyDiscipline(hash, db0)
    requires Explains(fams, e, f, o) && e.src !in gone && e.relation == Expand
    requires dst == FamilyId(e.src.scope, hash(f.ascendancy, e.dstPrimary))
    ensures e.src in db0.families && e.src in db.families && dst != e.src
    ensures f.ascendancy == db.families[e.src].ascendancy
    ensures CanonOf(db, e.src) < Canon(e.dstPrimary)
    ensures dst in db.families ==>
              db.families[dst].ascendancy == f.ascendancy && Canon(e.dstPrimary) <= CanonOf(db, dst)
    ensures dst in db0.families ==>
              && db0.families[dst].ascendancy == f.ascendancy
              && Canon(e.dstPrimary) <= CanonOf(db0, dst) && FullPrimary(db0, dst) != {}
    ensures CoverExists(db0, e.src.scope, f.ascendancy, Canon(e.dstPrimary))
  {
    PlannedFam(db0, fams, f);
    PlannedFam(db0, fams, o);
    assert Continues(db0, db, e.src);
    CanonUnion(f.primary, o.primary);
    assert Canon(e.dstPrimary) == Canon(o.primary);
    if dst == e.src {
      CanonMonotone(e.dstPrimary, FullPrimary(db, e.src));
      assert false;
    }
    if dst in db.families {
      CanonMonotone(e.dstPrimary, FullPrimary(db, dst));
    }
    if dst in db0.families {
      CanonMonotone(e.dstPrimary, FullPrimary(db0, dst));
    }
    assert o.id in db0.families && o.id.scope == e.src.scope && db0.families[o.id].ascendancy == f.ascendancy;
  }

  lemma ExpandStep(hash: KeyHash, db0: Db, fams: seq<Fam>, db: Db, gone: set<FamilyId>, e: Entry, f: Fam, o: Fam)
    requires Injective(hash) && IsLoad(db0, fams) && RoundInv(hash, db0, db, gone)
    requires KeyDiscipline(hash, db0)
    requires Explains(fams, e, f, o) && e.src !in gone && e.relation == Expand
    ensures DstOf(hash, fams, e) == FamilyId(e.src.scope, hash(f.ascendancy, e.dstPrimary))
    ensures e.src in db.families && DstOf(hash, fams, e) != e.src
    ensures var db' := Merge(db, e.src, DstOf(hash, fams, e), f.ascendancy, e.dstPrimary);
            && Execute(hash, db, fams, e) == Merged(db')
            && RoundInv(hash, db0, db', gone + {e.src})
            && StepFacts(db0, db, db', e, DstOf(hash, fams, e))
  {
    PlannedFam(db0, fams, f);
    var dst := FamilyId(e.src.scope, hash(f.ascendancy, e.dstPrimary));
    ExpandBounds(hash, db0, fams, db, gone, e, f, o, dst);
    ExpandFits(hash, db0, db, e.src, dst, f.ascendancy, e.dstPrimary);
    MergeKeepsRound(hash, db0, db, gone, e.src, dst, f.ascendancy, e.dstPrimary);
    StepFromMerge(db0, db, e, dst, f.ascendancy, e.dstPrimary);
  }

  lemma ExpandFits(hash: KeyHash, db0: Db, db: Db, src: FamilyId, dst: FamilyId, ascendancy: string,
                   primary: set<SkillKey>)
    requires src in db.families && dst != src && dst == FamilyId(src.scope, hash(ascendancy, primary))
    requires ascendancy == db.families[src].ascendancy
    requires CanonOf(db, src) < Canon(primary)
    requires dst in db.families ==>
               db.families[dst].ascendancy == ascendancy && Canon(primary) <= CanonOf(db, dst)
    requires dst in db0.families ==>
               && db0.families[dst].ascendancy == ascendancy
               && Canon(primary) <= CanonOf(db0, dst) && FullPrimary(db0, dst) != {}
    requires CoverExists(db0, src.scope, ascendancy, Canon(primary))
    ensures Fits(hash, db0, db, src, dst, ascendancy, primary)
  {
  }

  /** A planned entry whose source has not run yet never crashes; it is skipped only when it is a
      join whose target is gone, and otherwise keeps the round invariant. */
  lemma ExecuteStep(hash: KeyHash, db0: Db, fams: seq<Fam>, db: Db, gone: set<FamilyId>, e: Entry)
    requires Injective(hash) && IsLoad(db0, fams) && KeyDiscipline(hash, db0)
    requires RoundInv(hash, db0, db, gone) && e in PlanOf(fams) && e.src !in gone
    ensures e.src in db.families
    ensures match Execute(hash, db, fams, e)
            case Crashed => false
            case Skipped => e.relation == Join && e.dst !in db.families
            case Merged(db') =>
              && RoundInv(hash, db0, db', gone + {e.src})
              && StepFacts(db0, db, db', e, DstOf(hash, fams, e))
  {
    PlanExact(fams);
    var f, o :| Explains(fams, e, f, o);
    PlannedFam(db0, fams, f);
    assert Continues(db0, db, e.src);
    match e.relation
    case Join =>
      if e.dst in db.families {
        JoinStep(hash, db0, fams, db, gone, e, f, o);
      }
    case Expand =>
      ExpandStep(hash, db0, fams, db, gone, e, f, o);
  }
}
