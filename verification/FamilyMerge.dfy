/**
 Executing a merge plan against the tables.  Entries of one round run against a plan computed
 before the round, so a source or a target may have been merged away, or re-created, meanwhile.
 */
module FamilyMerge {
  import opened FamilyModel
  import opened FamilyPlanner
  import opened FamilyPlannerFacts

  /** The identity key of an ascendancy and a primary-skill set; a digest without collisions. */
  type KeyHash = (string, set<SkillKey>) -> int

  ghost predicate Injective(hash: KeyHash) {
    forall a, s, a', s' :: hash(a, s) == hash(a', s') ==> a == a' && s == s'
  }

  /** A stored key that is an identity digest at all is the digest of the family's ascendancy
      and of some subset of its primary keys (older keys are digests of nothing). */
  ghost predicate KeyDiscipline(hash: KeyHash, db: Db) {
    forall f, a, s | f in db.families && hash(a, s) == f.key ::
      a == db.families[f].ascendancy && s <= FullPrimary(db, f)
  }

  ghost predicate OwnersLive(db: Db) {
    forall r | r in db.records && db.records[r].owner.Some? ::
      db.records[r].owner.value in db.families
  }

  function Reowned(records: map<string, Record>, src: FamilyId, dst: FamilyId): map<string, Record> {
    map r | r in records ::
      if records[r].owner == Some(src) then records[r].(owner := Some(dst)) else records[r]
  }

  function MergedRow(families: map<FamilyId, FamilyRow>, src: FamilyId, dst: FamilyId, ascendancy: string,
                     primary: set<SkillKey>): FamilyRow
    requires src in families
  {
    var base := if dst in families then families[dst] else FamilyRow(ascendancy, primary, 0, {});
    var sources := base.sources + families[src].sources;
    base.(sources := sources, evidenceCount := |sources|)
  }

  /** _merge_family_records: keep or create dst, re-own src's records and sources, delete src. */
  function Merge(db: Db, src: FamilyId, dst: FamilyId, ascendancy: string, primary: set<SkillKey>): Db
    requires src in db.families && src != dst
  {
    Db((db.families - {src})[dst := MergedRow(db.families, src, dst, ascendancy, primary)],
       Reowned(db.records, src, dst))
  }

  function Lookup(fams: seq<Fam>, id: FamilyId): Option<Fam> {
    if fams == [] then None
    else if fams[0].id == id then Some(fams[0])
    else Lookup(fams[1..], id)
  }

  datatype Step = Skipped | Merged(db: Db) | Crashed

  /** One entry of the apply loop; Crashed is the ValueError of a merge of a family with itself. */
  function Execute(hash: KeyHash, db: Db, fams: seq<Fam>, e: Entry): Step {
    if e.src !in db.families then Skipped
    else
      match e.relation
      case Join =>
        if e.dst !in db.families then Skipped
        else if Lookup(fams, e.dst).None? then Skipped
        else if e.src == e.dst then Crashed
        else
          var target := Lookup(fams, e.dst).value;
          Merged(Merge(db, e.src, e.dst, target.ascendancy, target.primary))
      case Expand =>
        if Lookup(fams, e.src).None? then Crashed
        else
          var ascendancy := Lookup(fams, e.src).value.ascendancy;
          var dst := FamilyId(e.src.scope, hash(ascendancy, e.dstPrimary));
          if e.src == dst then Crashed
          else Merged(Merge(db, e.src, dst, ascendancy, e.dstPrimary))
  }

  datatype Round = Done(db: Db, merged: nat) | Failed

  function RunPlan(hash: KeyHash, db: Db, fams: seq<Fam>, plan: seq<Entry>): Round {
    if plan == [] then Done(db, 0)
    else
      match RunPlan(hash, db, fams, plan[..|plan| - 1])
      case Failed => Failed
      case Done(db', merged) =>
        match Execute(hash, db', fams, plan[|plan| - 1])
        case Skipped => Done(db', merged)
        case Merged(db'') => Done(db'', merged + 1)
        case Crashed => Failed
  }

  // ----- evidence counts

  /** Every family's evidence count is the number of its sources. */
  ghost predicate Counted(db: Db) {
    forall f | f in db.families :: db.families[f].evidenceCount == |db.families[f].sources|
  }

  /** Since db0 every family was either counted anew or its evidence is as it was. */
  ghost predicate Recounted(db0: Db, db: Db) {
    forall f | f in db.families ::
      || db.families[f].evidenceCount == |db.families[f].sources|
      || (f in db0.families && db.families[f].sources == db0.families[f].sources
          && db.families[f].evidenceCount == db0.families[f].evidenceCount)
  }

  lemma RecountedTransitive(a: Db, b: Db, c: Db)
    requires Recounted(a, b) && Recounted(b, c)
    ensures Recounted(a, c)
    ensures Counted(a) ==> Counted(c)
  {
  }

  /** The target of a merge has the sources of both families and their exact number, whatever was
      counted before; every other family keeps sources and count. */
  lemma MergeCounts(db: Db, src: FamilyId, dst: FamilyId, ascendancy: string, primary: set<SkillKey>)
    requires src in db.families && src != dst
    ensures var db' := Merge(db, src, dst, ascendancy, primary);
            var both := db.families[src].sources + if dst in db.families then db.families[dst].sources else {};
            && dst in db'.families && db'.families[dst].sources == both
            && db'.families[dst].evidenceCount == |both|
            && Recounted(db, db')
  {
    var base := if dst in db.families then db.families[dst].sources else {};
    assert base + db.families[src].sources == db.families[src].sources + base;
  }

  /** Over any plan, whatever its entries. */
  lemma {:induction false} RunRecounts(hash: KeyHash, db: Db, fams: seq<Fam>, plan: seq<Entry>)
    ensures var round := RunPlan(hash, db, fams, plan);
            round.Done? ==> Recounted(db, round.db) && (Counted(db) ==> Counted(round.db))
  {
    if plan != [] {
      var n := |plan| - 1;
      RunRecounts(hash, db, fams, plan[..n]);
      var before := RunPlan(hash, db, fams, plan[..n]);
      if before.Done? && Execute(hash, before.db, fams, plan[n]).Merged? {
        var target := Lookup(fams, if plan[n].relation == Join then plan[n].dst else plan[n].src).value;
        MergeCounts(before.db, plan[n].src, DstOf(hash, fams, plan[n]), target.ascendancy,
                    if plan[n].relation == Join then target.primary else plan[n].dstPrimary);
        RecountedTransitive(db, before.db, Execute(hash, before.db, fams, plan[n]).db);
      }
    }
  }

  // ----- effect of one merge on canonical sets

  lemma MergeRecordKeys(db: Db, src: FamilyId, dst: FamilyId, ascendancy: string, primary: set<SkillKey>)
    requires src in db.families && src != dst
    ensures var db' := Merge(db, src, dst, ascendancy, primary);
            && (forall f | f != src && f != dst :: RecordKeys(db', f) == RecordKeys(db, f))
            && RecordKeys(db', dst) == RecordKeys(db, dst) + RecordKeys(db, src)
  {
    var db' := Merge(db, src, dst, ascendancy, primary);
    forall f | f != src && f != dst ensures RecordKeys(db', f) == RecordKeys(db, f) {
      forall k ensures k in RecordKeys(db', f) <==> k in RecordKeys(db, f) {
        if k in RecordKeys(db, f) {
          var r :| r in db.records && db.records[r].owner == Some(f) && k in db.records[r].primary;
          assert db'.records[r] == db.records[r];
        }
      }
    }
    forall k ensures k in RecordKeys(db', dst) <==> k in RecordKeys(db, dst) + RecordKeys(db, src) {
      if k in RecordKeys(db, dst) + RecordKeys(db, src) {
        var r :| r in db.records && (db.records[r].owner == Some(dst) || db.records[r].owner == Some(src))
                 && k in db.records[r].primary;
        assert db'.records[r].owner == Some(dst) && db'.records[r].primary == db.records[r].primary;
      }
    }
  }

  lemma NoRecordsNoKeys(db: Db, f: FamilyId)
    requires OwnersLive(db) && f !in db.families
    ensures RecordKeys(db, f) == {}
  {
  }

  lemma MergeFamilies(db: Db, src: FamilyId, dst: FamilyId, ascendancy: string, primary: set<SkillKey>)
    requires src in db.families && src != dst && OwnersLive(db)
    ensures var db' := Merge(db, src, dst, ascendancy, primary);
            && db'.families.Keys == db.families.Keys - {src} + {dst}
            && (forall f | f in db.families && f != src && f != dst :: db'.families[f] == db.families[f])
            && OwnersLive(db')
  {
  }

  /** Nobody's primary keys change but dst's ... */
  lemma MergePrimaryOther(db: Db, src: FamilyId, dst: FamilyId, ascendancy: string, primary: set<SkillKey>, f: FamilyId)
    requires src in db.families && src != dst
    requires f in db.families && f != src && f != dst
    ensures var db' := Merge(db, src, dst, ascendancy, primary);
            f in db'.families && FullPrimary(db', f) == FullPrimary(db, f)
  {
    var db' := Merge(db, src, dst, ascendancy, primary);
    MergeRecordKeys(db, src, dst, ascendancy, primary);
    assert RecordKeys(db', f) == RecordKeys(db, f);
    assert db'.families[f] == db.families[f];
  }

  /** ... which gain the keys of src's records. */
  lemma MergePrimaryDst(db: Db, src: FamilyId, dst: FamilyId, ascendancy: string, primary: set<SkillKey>)
    requires src in db.families && src != dst && OwnersLive(db)
    ensures var db' := Merge(db, src, dst, ascendancy, primary);
            FullPrimary(db', dst) ==
            (if dst in db.families then FullPrimary(db, dst) else primary) + RecordKeys(db, src)
  {
    var db' := Merge(db, src, dst, ascendancy, primary);
    MergeRecordKeys(db, src, dst, ascendancy, primary);
    assert RecordKeys(db', dst) == RecordKeys(db, dst) + RecordKeys(db, src);
    var stored := db'.families[dst].primary;
    if dst in db.families {
      assert stored == db.families[dst].primary;
    } else {
      NoRecordsNoKeys(db, dst);
      assert stored == primary;
    }
    assert FullPrimary(db', dst) == stored + RecordKeys(db', dst);
  }

  // ----- the invariant of a round

  ghost predicate SameGroup(db0: Db, f: FamilyId, db: Db, g: FamilyId)
    requires f in db0.families && g in db.families
  {
    f.scope == g.scope && db0.families[f].ascendancy == db.families[g].ascendancy
  }

  /** f lives on since the round began, its canonical set unchanged. */
  ghost predicate Continues(db0: Db, db: Db, f: FamilyId)
    requires f in db0.families
  {
    && f in db.families
    && db.families[f].ascendancy == db0.families[f].ascendancy
    && db.families[f].primary == db0.families[f].primary
    && CanonOf(db, f) == CanonOf(db0, f)
    && (FullPrimary(db0, f) == {} ==> db.families[f] == db0.families[f])
  }

  /** Some family of db0 of the same group has a canonical set containing f's; the family with
      f's own key, if db0 has one. */
  ghost predicate Covered(db0: Db, db: Db, f: FamilyId)
    requires f in db.families
  {
    && (if f in db0.families then
          SameGroup(db0, f, db, f) && CanonOf(db, f) <= CanonOf(db0, f)
        else
          exists o :: o in db0.families && SameGroup(db0, o, db, f) && CanonOf(db, f) <= CanonOf(db0, o))
    && (FullPrimary(db, f) == {} ==> f in db0.families && FullPrimary(db0, f) == {})
  }

  ghost predicate SameRecords(db0: Db, db: Db) {
    && db.records.Keys == db0.records.Keys
    && forall r | r in db0.records ::
         && db.records[r].primary == db0.records[r].primary
         && (db.records[r].owner.None? <==> db0.records[r].owner.None?)
  }

  function SourcesOf(db: Db, g: Group): set<string> {
    set f, s | f in db.families && Group(f.scope, db.families[f].ascendancy) == g
               && s in db.families[f].sources :: s
  }

  ghost predicate OwnerGroupsKept(db0: Db, db: Db)
    requires OwnersLive(db0) && OwnersLive(db) && SameRecords(db0, db)
  {
    forall r | r in db0.records && db0.records[r].owner.Some? ::
      SameGroup(db0, db0.records[r].owner.value, db, db.records[r].owner.value)
  }

  ghost predicate RoundInv(hash: KeyHash, db0: Db, db: Db, gone: set<FamilyId>) {
    && KeyDiscipline(hash, db)
    && OwnersLive(db)
    && (forall f | f in db0.families && f !in gone :: Continues(db0, db, f))
    && (forall f | f in db.families :: Covered(db0, db, f))
    && SameRecords(db0, db)
    && (forall g :: SourcesOf(db, g) == SourcesOf(db0, g))
  }

  lemma {:induction false} LookupFinds(fams: seq<Fam>, f: Fam)
    requires DistinctIds(fams) && f in fams
    ensures Lookup(fams, f.id) == Some(f)
  {
    if fams[0] != f {
      var i :| 0 <= i < |fams| && fams[i] == f;
      assert fams[1..][i - 1] == f;
      LookupFinds(fams[1..], f);
    }
  }

  /** What an executed entry does: src and dst are distinct families of one group and dst's new
      canonical set is bounded by the plan. */
  ghost predicate StepFacts(db0: Db, db: Db, db': Db, e: Entry, dst: FamilyId) {
    && e.src in db0.families && e.src in db.families && dst != e.src
    && dst in db'.families && e.src !in db'.families
    && db'.families.Keys == db.families.Keys - {e.src} + {dst}
    && SameGroup(db, e.src, db', dst)
    && (forall f | f in db.families && f != e.src && f != dst ::
          db'.families[f] == db.families[f] && FullPrimary(db', f) == FullPrimary(db, f))
    && (dst !in db.families ==> e.relation == Expand && CanonOf(db, e.src) < CanonOf(db', dst))
    && (dst in db.families ==>
          && CanonOf(db, dst) <= CanonOf(db', dst)
          && db'.families[dst].ascendancy == db.families[dst].ascendancy)
    && (e.relation == Expand ==> CanonOf(db, e.src) < CanonOf(db', dst))
    && db'.records.Keys == db.records.Keys
    && (forall r | r in db.records ::
          db'.records[r].owner ==
          if db.records[r].owner == Some(e.src) then Some(dst) else db.records[r].owner)
  }

  function DstOf(hash: KeyHash, fams: seq<Fam>, e: Entry): FamilyId {
    match e.relation
    case Join => e.dst
    case Expand =>
      FamilyId(e.src.scope,
               hash(if Lookup(fams, e.src).Some? then Lookup(fams, e.src).value.ascendancy else "",
                    e.dstPrimary))
  }

  lemma SourcesMerged(db: Db, src: FamilyId, dst: FamilyId, ascendancy: string, primary: set<SkillKey>, g: Group)
    requires src in db.families && src != dst && src.scope == dst.scope
    requires dst in db.families ==> db.families[dst].ascendancy == db.families[src].ascendancy
    requires dst !in db.families ==> ascendancy == db.families[src].ascendancy
    ensures SourcesOf(Merge(db, src, dst, ascendancy, primary), g) == SourcesOf(db, g)
  {
    var db' := Merge(db, src, dst, ascendancy, primary);
    forall s ensures s in SourcesOf(db', g) <==> s in SourcesOf(db, g) {
      if s in SourcesOf(db, g) {
        var f :| f in db.families && Group(f.scope, db.families[f].ascendancy) == g && s in db.families[f].sources;
        var f' := if f == src then dst else f;
        assert f' in db'.families && Group(f'.scope, db'.families[f'].ascendancy) == g && s in db'.families[f'].sources;
      }
      if s in SourcesOf(db', g) {
        var f :| f in db'.families && Group(f.scope, db'.families[f].ascendancy) == g && s in db'.families[f].sources;
        if f == dst {
          assert s in db.families[src].sources || (dst in db.families && s in db.families[dst].sources);
        } else {
          assert f in db.families;
        }
      }
    }
  }
}
