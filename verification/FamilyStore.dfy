/**
 The consolidation script's apply mode over the mutable tables: backfill, then rounds of planning
 and merging until the plan is empty or the round guard trips.
 */
module FamilyStore {
  import opened FamilyModel
  import opened FamilyPlanner
  import opened FamilyPlannerFacts
  import opened FamilyMerge
  import opened FamilyRound
  import opened FamilyRounds
  import opened FamilyCover

  const MAX_ROUNDS := 50

  datatype Status = Applied | DidNotConverge

  /** Everything every round keeps, from the tables as they were to the tables as they are. */
  ghost predicate Kept(hash: KeyHash, db0: Db, db: Db) {
    && KeyDiscipline(hash, db)
    && OwnersLive(db0) && OwnersLive(db)
    && SameRecords(db0, db)
    && OwnerGroupsKept(db0, db)
    && (forall g :: SourcesOf(db, g) == SourcesOf(db0, g))
    && Bare(db) == Bare(db0)
    && SameMaximal(db0, db)
    && Recounted(db0, db) && (Counted(db0) ==> Counted(db))
    && (TightKeys(hash, db0) ==> TightKeys(hash, db) && RecordsCovered(db0, db))
  }

  /** One family per maximal initial canonical set, and no other family with primary keys. */
  ghost predicate Consolidated(db0: Db, db: Db) {
    && (forall g, tokens :: HasCanon(db, g, tokens) <==> IsMaximal(db0, g, tokens))
    && forall f, o | f in db.families && o in db.families && f != o && SameGroup(db, f, db, o)
                     && FullPrimary(db, f) != {} && FullPrimary(db, o) != {} ::
         CanonOf(db, f) != CanonOf(db, o)
  }

  function Backfilled(db: Db): Db {
    Db(map f | f in db.families :: db.families[f].(primary := FullPrimary(db, f)), db.records)
  }

  lemma KeptTransitive(hash: KeyHash, a: Db, b: Db, c: Db)
    requires Kept(hash, a, b) && Kept(hash, b, c)
    ensures Kept(hash, a, c)
  {
    RecountedTransitive(a, b, c);
    forall r | r in a.records && a.records[r].owner.Some?
      ensures SameGroup(a, a.records[r].owner.value, c, c.records[r].owner.value)
    {
      assert SameGroup(a, a.records[r].owner.value, b, b.records[r].owner.value);
      assert SameGroup(b, b.records[r].owner.value, c, c.records[r].owner.value);
    }
    if TightKeys(hash, a) {
      forall r | r in a.records && a.records[r].owner.Some?
        ensures CanonOf(a, a.records[r].owner.value) <= CanonOf(c, c.records[r].owner.value)
      {
        assert CanonOf(a, a.records[r].owner.value) <= CanonOf(b, b.records[r].owner.value);
      }
    }
  }

  lemma BackfillPrimary(db: Db, f: FamilyId)
    requires f in db.families
    ensures f in Backfilled(db).families && FullPrimary(Backfilled(db), f) == FullPrimary(db, f)
  {
  }

  lemma BackfillMaximal(db: Db)
    ensures SameMaximal(db, Backfilled(db))
  {
    var db' := Backfilled(db);
    forall g, tokens ensures HasCanon(db', g, tokens) <==> HasCanon(db, g, tokens) {
      if f :| f in db.families && Group(f.scope, db.families[f].ascendancy) == g
              && FullPrimary(db, f) != {} && CanonOf(db, f) == tokens {
        BackfillPrimary(db, f);
        assert f in db'.families && db'.families[f].ascendancy == db.families[f].ascendancy;
      }
      if f :| f in db'.families && Group(f.scope, db'.families[f].ascendancy) == g
              && FullPrimary(db', f) != {} && CanonOf(db', f) == tokens {
        BackfillPrimary(db, f);
        assert f in db.families && db'.families[f].ascendancy == db.families[f].ascendancy;
      }
    }
  }

  lemma BackfillBare(db: Db)
    ensures Bare(Backfilled(db)) == Bare(db)
  {
  }

  lemma BackfillSources(db: Db, g: Group)
    ensures SourcesOf(Backfilled(db), g) == SourcesOf(db, g)
  {
    var db' := Backfilled(db);
    forall s ensures s in SourcesOf(db', g) <==> s in SourcesOf(db, g) {
      if s in SourcesOf(db, g) {
        var f :| f in db.families && Group(f.scope, db.families[f].ascendancy) == g && s in db.families[f].sources;
        assert f in db'.families && db'.families[f].sources == db.families[f].sources;
      }
    }
  }

  lemma BackfilledRows(hash: KeyHash, db: Db)
    requires KeyDiscipline(hash, db) && OwnersLive(db)
    ensures var db' := Backfilled(db);
            && KeyDiscipline(hash, db') && OwnersLive(db') && SameRecords(db, db') && OwnerGroupsKept(db, db')
            && (TightKeys(hash, db) ==> TightKeys(hash, db') && RecordsCovered(db, db'))
  {
    var db' := Backfilled(db);
    forall f | f in db.families ensures FullPrimary(db', f) == FullPrimary(db, f) {
      BackfillPrimary(db, f);
    }
  }

  lemma BackfillKept(hash: KeyHash, db: Db)
    requires KeyDiscipline(hash, db) && OwnersLive(db)
    ensures Kept(hash, db, Backfilled(db))
  {
    var db' := Backfilled(db);
    BackfilledRows(hash, db);
    BackfillMaximal(db);
    BackfillBare(db);
    forall g ensures SourcesOf(db', g) == SourcesOf(db, g) { BackfillSources(db, g); }
  }

  ghost function AllTokens(db: Db): set<Token> {
    set f, t | f in db.families && t in CanonOf(db, f) :: t
  }

  /** A round from a fresh load keeps everything, and makes progress unless the plan is empty. */
  lemma RoundKept(hash: KeyHash, db: Db, fams: seq<Fam>, u: set<Token>)
    requires Injective(hash) && IsLoad(db, fams) && KeyDiscipline(hash, db)
    requires OwnersLive(db) && Within(db, u)
    ensures RunPlan(hash, db, fams, PlanOf(fams)).Done?
    ensures Kept(hash, db, RunPlan(hash, db, fams, PlanOf(fams)).db)
    ensures Within(RunPlan(hash, db, fams, PlanOf(fams)).db, u)
    ensures PlanOf(fams) != [] ==>
              var round := RunPlan(hash, db, fams, PlanOf(fams));
              round.merged > 0 && Shrinks(db, round.db, u)
  {
    var plan := PlanOf(fams);
    assert plan[..|plan|] == plan;
    var gone := RunKeeps(hash, db, fams, u, |plan|);
    var Done(db', merged) := RunPlan(hash, db, fams, plan);
    CoveredWithin(hash, db, db', gone, u);
    forall f | f in gone ensures f in db.families && FullPrimary(db, f) != {} {
      var e :| e in plan && e.src == f;
      EntrySource(db, fams, e);
    }
    BareKept(hash, db, db', gone);
    RoundKeepsMaximal(hash, db, fams, u, db', gone);
    RunRecounts(hash, db, fams, plan);
    if TightKeys(hash, db) {
      var gone' := TightRun(hash, db, fams, u, |plan|);
    }
  }

  ghost predicate Antichain(db: Db) {
    forall f, o | f in db.families && o in db.families && f != o && SameGroup(db, f, db, o)
                  && FullPrimary(db, f) != {} && FullPrimary(db, o) != {} ::
      !(CanonOf(db, f) <= CanonOf(db, o))
  }

  lemma EmptyPlanAntichain(db: Db, fams: seq<Fam>)
    requires IsLoad(db, fams) && PlanOf(fams) == []
    ensures Antichain(db)
  {
    EmptyPlanIffIncomparable(fams);
    forall f, o | f in db.families && o in db.families && f != o && SameGroup(db, f, db, o)
                  && FullPrimary(db, f) != {} && FullPrimary(db, o) != {}
      ensures !(CanonOf(db, f) <= CanonOf(db, o))
    {
      assert View(db, f) in fams && View(db, o) in fams;
      assert !Comparable(View(db, f), View(db, o));
    }
  }

  lemma AntichainMaximal(db: Db, g: Group, tokens: set<Token>)
    requires Antichain(db) && HasCanon(db, g, tokens)
    ensures IsMaximal(db, g, tokens)
  {
  }

  /** Once nothing is planned, the families left are exactly the maximal ones. */
  lemma EmptyPlanConsolidated(hash: KeyHash, db0: Db, db: Db, fams: seq<Fam>)
    requires IsLoad(db, fams) && PlanOf(fams) == [] && Kept(hash, db0, db)
    ensures Consolidated(db0, db)
  {
    EmptyPlanAntichain(db, fams);
    AntichainConsolidated(db0, db);
  }

  lemma AntichainConsolidated(db0: Db, db: Db)
    requires Antichain(db) && SameMaximal(db0, db)
    ensures Consolidated(db0, db)
  {
    forall g, tokens ensures HasCanon(db, g, tokens) <==> IsMaximal(db0, g, tokens) {
      if HasCanon(db, g, tokens) {
        AntichainMaximal(db, g, tokens);
      }
      assert IsMaximal(db, g, tokens) <==> IsMaximal(db0, g, tokens);
    }
    forall f, o | f in db.families && o in db.families && f != o && SameGroup(db, f, db, o)
                  && FullPrimary(db, f) != {} && FullPrimary(db, o) != {}
      ensures CanonOf(db, f) != CanonOf(db, o)
    {
      assert !(CanonOf(db, f) <= CanonOf(db, o));
    }
  }

  function RowsAfter(families: map<FamilyId, FamilyRow>, fams: seq<Fam>): (rows: map<FamilyId, FamilyRow>)
    requires forall i | 0 <= i < |fams| :: fams[i].id in families
    ensures rows.Keys == families.Keys
  {
    if fams == [] then families else
      var last := fams[|fams| - 1];
      var rows := RowsAfter(families, fams[..|fams| - 1]);
      rows[last.id := rows[last.id].(primary := last.primary)]
  }

  lemma LoadIsStored(db: Db, fams: seq<Fam>)
    requires IsLoad(db, fams)
    ensures forall i | 0 <= i < |fams| :: fams[i].id in db.families
  {
  }

  lemma {:induction false} RowsAfterAt(families: map<FamilyId, FamilyRow>, fams: seq<Fam>, f: FamilyId)
    requires forall i | 0 <= i < |fams| :: fams[i].id in families
    requires DistinctIds(fams) && f in families
    ensures forall x | x in fams && x.id == f ::
              RowsAfter(families, fams)[f] == families[f].(primary := x.primary)
    ensures (forall x | x in fams :: x.id != f) ==> RowsAfter(families, fams)[f] == families[f]
  {
    if fams != [] {
      var n := |fams| - 1;
      RowsAfterAt(families, fams[..n], f);
      assert fams == fams[..n] + [fams[n]];
    }
  }

  lemma LoadedRow(db: Db, fams: seq<Fam>, f: FamilyId) returns (x: Fam)
    requires IsLoad(db, fams) && f in db.families
    ensures x in fams && x.id == f && x.primary == FullPrimary(db, f)
  {
    x := View(db, f);
  }

  lemma BackfillRows(db: Db, fams: seq<Fam>)
    requires IsLoad(db, fams)
    requires forall i | 0 <= i < |fams| :: fams[i].id in db.families
    ensures RowsAfter(db.families, fams) == Backfilled(db).families
  {
    var rows, wanted := RowsAfter(db.families, fams), Backfilled(db).families;
    forall f | f in db.families ensures rows[f] == wanted[f] {
      RowsAfterAt(db.families, fams, f);
      var x := LoadedRow(db, fams, f);
    }
  }

  // ----- the course of a consolidation

  /** Every family's stored keys have become its own and those of its records; nothing else changed. */
  ghost predicate Filled(db: Db, b: Db) {
    && b.records == db.records && b.families.Keys == db.families.Keys
    && forall f | f in db.families :: f in b.families && FilledRow(db, f, db.families[f], b.families[f])
  }

  ghost predicate FilledRow(db: Db, f: FamilyId, before: FamilyRow, after: FamilyRow) {
    && after.ascendancy == before.ascendancy && after.sources == before.sources
    && after.evidenceCount == before.evidenceCount
    && forall k :: k in after.primary <==>
         || k in before.primary
         || exists r :: r in db.records && db.records[r].owner == Some(f) && k in db.records[r].primary
  }

  /** A round that merges something: the plan of the families as they are, run on them. */
  ghost predicate Planned(hash: KeyHash, db: Db, db': Db, moved: nat) {
    moved > 0 && exists fams :: IsLoad(db, fams) && RunPlan(hash, db, fams, PlanOf(fams)) == Done(db', moved)
  }

  ghost predicate NothingPlanned(db: Db) {
    exists fams :: IsLoad(db, fams) && PlanOf(fams) == []
  }

  /** The tables after the backfill, and after each round with what it merged. */
  datatype Course = Start(db: Db) | Next(before: Course, db: Db, moved: nat)

  ghost predicate IsCourse(hash: KeyHash, c: Course, db0: Db) {
    match c
    case Start(db) => Filled(db0, db)
    case Next(before, db, moved) => IsCourse(hash, before, db0) && Planned(hash, before.db, db, moved)
  }

  function Length(c: Course): nat {
    match c
    case Start(_) => 0
    case Next(before, _, _) => Length(before) + 1
  }

  function Total(c: Course): nat {
    match c
    case Start(_) => 0
    case Next(before, _, moved) => Total(before) + moved
  }

  /** How the tables came to be as they are: backfilled, then round after round, each merging
      something; success is an empty plan after the last, failure a fifty-first round. */
  ghost predicate Ran(hash: KeyHash, db0: Db, db: Db, status: Status, rounds: nat, merged: nat) {
    exists c: Course ::
      && IsCourse(hash, c, db0) && c.db == db && merged == Total(c)
      && (status == Applied ==> NothingPlanned(db) && rounds == Length(c) + 1 <= 51)
      && (status == DidNotConverge ==> rounds == Length(c) == 51)
  }

  lemma BackfilledIsFilled(db: Db)
    ensures Filled(db, Backfilled(db))
  {
    forall f | f in db.families ensures FilledRow(db, f, db.families[f], Backfilled(db).families[f]) {
      assert Backfilled(db).families[f].primary == FullPrimary(db, f);
    }
  }

  /** Before a round of the loop. */
  ghost predicate Going(hash: KeyHash, db0: Db, db: Db, u: set<Token>, c: Course, rounds: nat, merged: nat) {
    && Kept(hash, db0, db) && Within(db, u)
    && IsCourse(hash, c, db0) && c.db == db && rounds == Length(c) && merged == Total(c)
  }

  lemma BackfilledWithin(db: Db)
    ensures Within(Backfilled(db), AllTokens(Backfilled(db)))
  {
  }

  lemma CourseStarts(hash: KeyHash, db0: Db, db: Db)
    requires Filled(db0, db)
    ensures IsCourse(hash, Start(db), db0) && Length(Start(db)) == 0 && Total(Start(db)) == 0
  {
  }

  lemma GoingStarts(hash: KeyHash, db0: Db, db: Db, u: set<Token>)
    requires Kept(hash, db0, db) && Within(db, u) && Filled(db0, db)
    ensures Going(hash, db0, db, u, Start(db), 0, 0)
  {
    CourseStarts(hash, db0, db);
  }

  lemma CourseGoesOn(hash: KeyHash, c: Course, db0: Db, db': Db, moved: nat)
    requires IsCourse(hash, c, db0) && Planned(hash, c.db, db', moved)
    ensures IsCourse(hash, Next(c, db', moved), db0)
    ensures Length(Next(c, db', moved)) == Length(c) + 1 && Total(Next(c, db', moved)) == Total(c) + moved
  {
  }

  lemma GoesOn(hash: KeyHash, db0: Db, db: Db, db': Db, u: set<Token>, c: Course, rounds: nat, merged: nat, moved: nat)
    requires Going(hash, db0, db, u, c, rounds, merged)
    requires Planned(hash, db, db', moved) && Kept(hash, db, db') && Within(db', u)
    ensures Going(hash, db0, db', u, Next(c, db', moved), rounds + 1, merged + moved)
  {
    CourseGoesOn(hash, c, db0, db', moved);
    KeptTransitive(hash, db0, db, db');
  }

  ghost predicate Ended(hash: KeyHash, db0: Db, db: Db, status: Status, rounds: nat, merged: nat) {
    && Kept(hash, db0, db) && Ran(hash, db0, db, status, rounds, merged)
    && (status == Applied ==> Consolidated(db0, db))
  }

  lemma EndsWell(hash: KeyHash, db0: Db, db: Db, u: set<Token>, c: Course, rounds: nat, merged: nat)
    requires Going(hash, db0, db, u, c, rounds, merged) && rounds <= 50 && NothingPlanned(db) && Antichain(db)
    ensures Ended(hash, db0, db, Applied, rounds + 1, merged)
  {
    AntichainConsolidated(db0, db);
  }

  lemma GivesUp(hash: KeyHash, db0: Db, db: Db, u: set<Token>, c: Course, rounds: nat, merged: nat)
    requires Going(hash, db0, db, u, c, rounds, merged) && rounds == 51
    ensures Ended(hash, db0, db, DidNotConverge, rounds, merged)
  {
  }

  class Store {
    var families: map<FamilyId, FamilyRow>
    var records: map<string, Record>

    ghost function State(): Db
      reads this
    {
      Db(families, records)
    }

    constructor (families: map<FamilyId, FamilyRow>, records: map<string, Record>)
      ensures State() == Db(families, records)
    {
      this.families, this.records := families, records;
    }

    /** Primary-damage skill keys declared by the family's own records. */
    method CollectRecordPrimaryKeys(f: FamilyId) returns (keys: set<SkillKey>)
      ensures keys == RecordKeys(State(), f)
    {
      keys := {};
      var rest := records.Keys;
      while rest != {}
        invariant rest <= records.Keys
        invariant keys == set r, k | r in records && r !in rest && records[r].owner == Some(f)
                                     && k in records[r].primary :: k
        decreases |rest|
      {
        var r :| r in rest;
        ghost var before := rest;
        rest := rest - {r};
        if records[r].owner == Some(f) {
          keys := keys + records[r].primary;
        }
        assert forall q | q in records :: q !in rest <==> q !in before || q == r;
      }
    }

    method LoadFamilies() returns (fams: seq<Fam>)
      ensures IsLoad(State(), fams)
      ensures |fams| == |families|
      ensures forall i | 0 <= i < |fams| ::
                && fams[i].id in families && fams[i].ascendancy == families[fams[i].id].ascendancy
                && fams[i].evidenceCount == families[fams[i].id].evidenceCount
                && forall k :: k in fams[i].primary <==>
                     || k in families[fams[i].id].primary
                     || exists r :: r in records && records[r].owner == Some(fams[i].id) && k in records[r].primary
    {
      fams := [];
      var rest := families.Keys;
      while rest != {}
        invariant rest <= families.Keys && |fams| + |rest| == |families|
        invariant forall i | 0 <= i < |fams| ::
                    fams[i].id in families && fams[i].id !in rest && fams[i] == View(State(), fams[i].id)
        invariant forall f | f in families && f !in rest :: View(State(), f) in fams
        invariant DistinctIds(fams)
        decreases |rest|
      {
        var f :| f in rest;
        var keys := CollectRecordPrimaryKeys(f);
        var row := families[f];
        ghost var old_fams := fams;
        fams := fams + [Fam(f, row.ascendancy, row.primary + keys, row.evidenceCount)];
        assert fams[|fams| - 1] == View(State(), f);
        forall g | g in families && g !in rest - {f} ensures View(State(), g) in fams {
          if g != f { assert View(State(), g) in old_fams; }
        }
        rest := rest - {f};
      }
    }

    /** Store the enriched primary keys of every family that lacks some. */
    method Backfill(fams: seq<Fam>)
      requires IsLoad(State(), fams)
      modifies this`families
      ensures State() == Backfilled(old(State())) && Filled(old(State()), State())
    {
      BackfilledIsFilled(State());
      LoadIsStored(State(), fams);
      StoreRows(fams);
      BackfillRows(old(State()), fams);
    }

    method StoreRows(fams: seq<Fam>)
      requires forall i | 0 <= i < |fams| :: fams[i].id in families
      modifies this`families
      ensures families == RowsAfter(old(families), fams)
    {
      for i := 0 to |fams|
        invariant families.Keys == old(families).Keys
        invariant families == RowsAfter(old(families), fams[..i])
      {
        assert fams[..i + 1][..i] == fams[..i];
        var f := fams[i].id;
        if families[f].primary != fams[i].primary {
          families := families[f := families[f].(primary := fams[i].primary)];
        }
      }
      assert fams[..|fams|] == fams;
    }

    method ReownRecords(src: FamilyId, dst: FamilyId)
      modifies this`records
      ensures records == Reowned(old(records), src, dst)
    {
      var rest := records.Keys;
      while rest != {}
        invariant rest <= records.Keys && records.Keys == old(records).Keys
        invariant forall r | r in records ::
                    records[r] == if r !in rest && old(records)[r].owner == Some(src)
                                  then old(records)[r].(owner := Some(dst)) else old(records)[r]
        decreases |rest|
      {
        var r :| r in rest;
        rest := rest - {r};
        if records[r].owner == Some(src) {
          records := records[r := records[r].(owner := Some(dst))];
        }
      }
    }

    /** Relocate every record of src under dst; the caller keeps them distinct. */
    method MergeFamilyRecords(src: FamilyId, dst: FamilyId, ascendancy: string, primary: set<SkillKey>)
      requires src in families && src != dst
      modifies this
      ensures State() == Merge(old(State()), src, dst, ascendancy, primary)
      ensures families.Keys == old(families).Keys - {src} + {dst}
      ensures families[dst].sources
              == old(families)[src].sources + if dst in old(families) then old(families)[dst].sources else {}
      ensures families[dst].evidenceCount
              == |old(families)[src].sources + if dst in old(families) then old(families)[dst].sources else {}|
      ensures families[dst].ascendancy == if dst in old(families) then old(families)[dst].ascendancy else ascendancy
      ensures families[dst].primary == if dst in old(families) then old(families)[dst].primary else primary
      ensures forall f | f in families && f != dst :: families[f] == old(families)[f]
      ensures records.Keys == old(records).Keys
      ensures forall r | r in records ::
                && records[r].primary == old(records)[r].primary
                && records[r].owner == if old(records)[r].owner == Some(src) then Some(dst) else old(records)[r].owner
    {
      var srcSources := families[src].sources;
      if dst !in families {
        families := families[dst := FamilyRow(ascendancy, primary, 0, {})];
      }
      var sources := srcSources + families[dst].sources;
      assert sources == families[dst].sources + srcSources;
      families := families[dst := families[dst].(sources := sources)];
      ReownRecords(src, dst);
      families := families[dst := families[dst].(evidenceCount := |sources|)];
      families := families - {src};
    }

    /** Run one stale plan; entries whose source or target has gone are left for the next round. */
    method RunRound(hash: KeyHash, fams: seq<Fam>, plan: seq<Entry>) returns (merged: nat)
      requires forall n | 0 <= n <= |plan| :: RunPlan(hash, State(), fams, plan[..n]).Done?
      modifies this
      ensures RunPlan(hash, old(State()), fams, plan) == Done(State(), merged)
    {
      ghost var db := State();
      merged := 0;
      for i := 0 to |plan|
        invariant RunPlan(hash, db, fams, plan[..i]) == Done(State(), merged)
      {
        var e := plan[i];
        assert plan[..i + 1][..i] == plan[..i] && plan[..i + 1][i] == e;
        assert RunPlan(hash, db, fams, plan[..i + 1]).Done?;
        if e.src !in families {
          continue;
        }
        match e.relation {
          case Join =>
            if e.dst !in families {
              continue;
            }
            var target := Lookup(fams, e.dst);
            if target.None? {
              continue;
            }
            MergeFamilyRecords(e.src, e.dst, target.value.ascendancy, target.value.primary);
          case Expand =>
            var ascendancy := Lookup(fams, e.src).value.ascendancy;
            var dst := FamilyId(e.src.scope, hash(ascendancy, e.dstPrimary));
            MergeFamilyRecords(e.src, dst, ascendancy, e.dstPrimary);
        }
        merged := merged + 1;
      }
      assert plan[..|plan|] == plan;
    }

    /** One round: load, plan, and run the plan unless it is empty. */
    method Round(hash: KeyHash, ghost u: set<Token>) returns (done: bool, moved: nat)
      requires Injective(hash) && KeyDiscipline(hash, State()) && OwnersLive(State()) && Within(State(), u)
      modifies this
      ensures done ==> State() == old(State()) && NothingPlanned(State()) && Antichain(State())
      ensures !done ==>
                && Planned(hash, old(State()), State(), moved) && Shrinks(old(State()), State(), u)
                && Kept(hash, old(State()), State()) && Within(State(), u)
    {
      ghost var db := State();
      var fams := LoadFamilies();
      var plan := MergePlanExpansions(fams);
      if plan == [] {
        EmptyPlanAntichain(db, fams);
        return true, 0;
      }
      RoundKept(hash, db, fams, u);
      forall n | 0 <= n <= |plan| ensures RunPlan(hash, db, fams, plan[..n]).Done? {
        var gone := RunKeeps(hash, db, fams, u, n);
      }
      moved := RunRound(hash, fams, plan);
      done := false;
    }

    /** One more round of the loop, in its course. */
    method NextRound(hash: KeyHash, ghost db0: Db, ghost u: set<Token>, ghost course: Course, ghost rounds: nat,
                     ghost merged: nat)
      returns (done: bool, moved: nat, ghost next: Course)
      requires Injective(hash) && Going(hash, db0, State(), u, course, rounds, merged)
      modifies this
      ensures done && rounds <= 50 ==> Ended(hash, db0, State(), Applied, rounds + 1, merged)
      ensures !done ==> Going(hash, db0, State(), u, next, rounds + 1, merged + moved)
      ensures !done ==> Shrinks(old(State()), State(), u)
    {
      ghost var db := State();
      done, moved := Round(hash, u);
      next := Next(course, State(), moved);
      if !done {
        GoesOn(hash, db0, db, State(), u, course, rounds, merged, moved);
      } else if rounds <= 50 {
        EndsWell(hash, db0, State(), u, course, rounds, merged);
      }
    }

    /** Round after round, until nothing is planned or the guard trips. */
    method Rounds(hash: KeyHash, ghost db0: Db, ghost u: set<Token>) returns (status: Status, rounds: nat, merged: nat)
      requires Injective(hash) && Going(hash, db0, State(), u, Start(State()), 0, 0)
      modifies this
      ensures Ended(hash, db0, State(), status, rounds, merged)
    {
      rounds, merged := 0, 0;
      ghost var course := Start(State());
      while true
        invariant Going(hash, db0, State(), u, course, rounds, merged) && rounds <= MAX_ROUNDS
        decreases |families|, |Missing(State(), u)|
      {
        var done, moved;
        done, moved, course := NextRound(hash, db0, u, course, rounds, merged);
        if done {
          return Applied, rounds + 1, merged;
        }
        rounds, merged := rounds + 1, merged + moved;
        if rounds > MAX_ROUNDS {
          GivesUp(hash, db0, State(), u, course, rounds, merged);
          return DidNotConverge, rounds, merged;
        }
      }
    }

    /** Apply mode.  It always terminates by itself (the loop's measure ignores the round guard);
        when it reports success the tables are consolidated. */
    method Apply(hash: KeyHash) returns (status: Status, rounds: nat, merged: nat)
      requires Injective(hash) && KeyDiscipline(hash, State()) && OwnersLive(State())
      modifies this
      ensures Kept(hash, old(State()), State())
      ensures Ran(hash, old(State()), State(), status, rounds, merged)
      ensures status == Applied ==> Consolidated(old(State()), State())
    {
      ghost var db0 := State();
      var enriched := LoadFamilies();
      Backfill(enriched);
      BackfillKept(hash, db0);
      BackfilledWithin(db0);
      GoingStarts(hash, db0, State(), AllTokens(State()));
      status, rounds, merged := Rounds(hash, db0, AllTokens(State()));
    }
  }
}
