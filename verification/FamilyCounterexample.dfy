/**
 Without tight keys a whole run can strand a record.  A richest twin k1, whose stored key is the
 digest of {A, B} although its records enriched it to {A, B, C}, is merged away first; an expansion
 in the same round re-creates its key with {A, B} only; a third twin then joins that key, and its
 record ends in the family {Z, A, B}, which no longer covers {A, B, C}.
 */
module FamilyCounterexample {
  import opened FamilyModel
  import opened FamilyPlanner
  import opened FamilyPlannerFacts
  import opened FamilyMerge

  const Z := SkillKey("Z", Token(0))
  const A := SkillKey("A", Token(1))
  const B := SkillKey("B", Token(2))
  const C := SkillKey("C", Token(3))

  const AB := {A, B}
  const ABC := {A, B, C}
  const ZAB := {Z, A, B}

  /** Stored keys: k1 and w are digests, the other four are old keys that digest nothing. */
  datatype Names = Names(k1: int, k2: int, low: int, q: int, x: int, w: int)

  ghost predicate Fitting(hash: KeyHash, n: Names) {
    && Injective(hash)
    && n.k1 == hash("m", AB) && n.w == hash("m", ZAB) && n.k1 < n.k2
    && (forall a, s :: hash(a, s) != n.k2 && hash(a, s) != n.low && hash(a, s) != n.q && hash(a, s) != n.x)
    && n.low != n.k2 && n.q != n.k2 && n.x != n.k2 && n.q != n.low && n.x != n.low && n.x != n.q
  }

  function Id(key: int): FamilyId {
    FamilyId("s", key)
  }

  /** Two evidence sources, and one of them. */
  const RICH := {"a", "b"}
  const POOR := {"a"}

  function Row(primary: set<SkillKey>, sources: set<string>): FamilyRow {
    FamilyRow("m", primary, |sources|, sources)
  }

  function Start(n: Names): Db {
    Db(map[Id(n.k1) := Row(ABC, RICH), Id(n.k2) := Row(ABC, RICH), Id(n.low) := Row(ABC, POOR),
           Id(n.q) := Row(AB, POOR), Id(n.x) := Row({A}, POOR), Id(n.w) := Row(ZAB, POOR)],
       map["r" := Record(Some(Id(n.low)), {A})])
  }

  function Loaded(key: int, primary: set<SkillKey>, sources: set<string>): Fam {
    Fam(Id(key), "m", primary, |sources|)
  }

  function FirstLoad(n: Names): seq<Fam> {
    [Loaded(n.k1, ABC, RICH), Loaded(n.x, {A}, POOR), Loaded(n.low, ABC, POOR),
     Loaded(n.q, AB, POOR), Loaded(n.k2, ABC, RICH), Loaded(n.w, ZAB, POOR)]
  }

  function FirstPlan(n: Names): seq<Entry> {
    [Entry(Id(n.k1), Id(n.k2), Join, ABC),
     Entry(Id(n.x), Id(n.q), Expand, AB),
     Entry(Id(n.low), Id(n.k1), Join, ABC),
     Entry(Id(n.q), Id(n.w), Expand, ZAB)]
  }

  /** After round one: the record hangs under the re-created k1. */
  function Middle(n: Names): Db {
    Db(map[Id(n.k1) := Row(AB, POOR), Id(n.k2) := Row(ABC, RICH), Id(n.w) := Row(ZAB, POOR)],
       map["r" := Record(Some(Id(n.k1)), {A})])
  }

  function SecondLoad(n: Names): seq<Fam> {
    [Loaded(n.k1, AB, POOR), Loaded(n.k2, ABC, RICH), Loaded(n.w, ZAB, POOR)]
  }

  function End(n: Names): Db {
    Db(map[Id(n.k2) := Row(ABC, RICH), Id(n.w) := Row(ZAB, POOR)],
       map["r" := Record(Some(Id(n.w)), {A})])
  }

  function ThirdLoad(n: Names): seq<Fam> {
    [Loaded(n.k2, ABC, RICH), Loaded(n.w, ZAB, POOR)]
  }

  lemma Tokens()
    ensures Canon({A}) == {Token(1)} && Canon(AB) == {Token(1), Token(2)}
    ensures Canon(ABC) == {Token(1), Token(2), Token(3)}
    ensures Canon(ZAB) == {Token(0), Token(1), Token(2)}
    ensures |Canon({A})| == 1 && |Canon(AB)| == 2 && |Canon(ABC)| == 3 && |Canon(ZAB)| == 3
    ensures LexBefore(Canon(ZAB), Canon(ABC))
  {
  }

  lemma OneRecord(db: Db, o: FamilyId)
    requires db.records == map["r" := Record(Some(o), {A})]
    ensures RecordKeys(db, o) == {A}
    ensures forall f | f != o :: RecordKeys(db, f) == {}
  {
    assert "r" in db.records && db.records["r"].owner == Some(o) && A in db.records["r"].primary;
  }

  lemma DistinctNames(hash: KeyHash, n: Names)
    requires Fitting(hash, n)
    ensures n.k1 != n.w && n.k1 != n.low && n.k1 != n.q && n.k1 != n.x
    ensures n.w != n.k2 && n.w != n.low && n.w != n.q && n.w != n.x
  {
  }

  lemma FirstDistinct(hash: KeyHash, n: Names)
    requires Fitting(hash, n)
    ensures DistinctIds(FirstLoad(n)) && AllDistinct(n)
  {
  }

  /** The six keys, pairwise. */
  ghost predicate AllDistinct(n: Names) {
    && n.k1 != n.k2 && n.k1 != n.low && n.k1 != n.q && n.k1 != n.x && n.k1 != n.w
    && n.k2 != n.low && n.k2 != n.q && n.k2 != n.x && n.k2 != n.w
    && n.low != n.q && n.low != n.x && n.low != n.w && n.q != n.x && n.q != n.w && n.x != n.w
  }

  lemma FirstViews(hash: KeyHash, n: Names)
    requires Fitting(hash, n)
    ensures forall i | 0 <= i < |FirstLoad(n)| ::
              FirstLoad(n)[i].id in Start(n).families && FirstLoad(n)[i] == View(Start(n), FirstLoad(n)[i].id)
  {
  }

  lemma FirstIndex(n: Names, f: FamilyId) returns (i: nat)
    requires f in Start(n).families
    ensures i < |FirstLoad(n)| && FirstLoad(n)[i].id == f
  {
    i := if f == Id(n.k1) then 0 else if f == Id(n.x) then 1 else if f == Id(n.low) then 2
         else if f == Id(n.q) then 3 else if f == Id(n.k2) then 4 else 5;
  }

  lemma FirstIsLoad(hash: KeyHash, n: Names)
    requires Fitting(hash, n)
    ensures IsLoad(Start(n), FirstLoad(n))
  {
    FirstDistinct(hash, n);
    FirstViews(hash, n);
    var db, fams := Start(n), FirstLoad(n);
    forall f | f in db.families ensures View(db, f) in fams {
      var i := FirstIndex(n, f);
      assert fams[i] == View(db, fams[i].id);
    }
  }

  /** The one record adds to no family's keys. */
  lemma FullAsStored(db: Db, o: FamilyId, f: FamilyId)
    requires db.records == map["r" := Record(Some(o), {A})] && f in db.families
    requires f == o ==> A in db.families[f].primary
    ensures FullPrimary(db, f) == db.families[f].primary
  {
    OneRecord(db, o);
  }

  lemma MiddleViews(hash: KeyHash, n: Names, i: nat)
    requires Fitting(hash, n) && i < 3
    ensures var f := SecondLoad(n)[i]; f.id in Middle(n).families && f == View(Middle(n), f.id)
  {
    DistinctNames(hash, n);
    FullAsStored(Middle(n), Id(n.k1), SecondLoad(n)[i].id);
  }

  lemma MiddleIsLoad(hash: KeyHash, n: Names)
    requires Fitting(hash, n)
    ensures IsLoad(Middle(n), SecondLoad(n))
  {
    DistinctNames(hash, n);
    var db, fams := Middle(n), SecondLoad(n);
    forall i | 0 <= i < |fams| ensures fams[i].id in db.families && fams[i] == View(db, fams[i].id) {
      MiddleViews(hash, n, i);
    }
    forall f | f in db.families ensures View(db, f) in fams {
      var i := if f == Id(n.k1) then 0 else if f == Id(n.k2) then 1 else 2;
      MiddleViews(hash, n, i);
      assert fams[i].id == f;
    }
  }

  lemma EndViews(hash: KeyHash, n: Names, i: nat)
    requires Fitting(hash, n) && i < 2
    ensures var f := ThirdLoad(n)[i]; f.id in End(n).families && f == View(End(n), f.id)
  {
    DistinctNames(hash, n);
    FullAsStored(End(n), Id(n.w), ThirdLoad(n)[i].id);
  }

  lemma EndIsLoad(hash: KeyHash, n: Names)
    requires Fitting(hash, n)
    ensures IsLoad(End(n), ThirdLoad(n))
  {
    DistinctNames(hash, n);
    var db, fams := End(n), ThirdLoad(n);
    forall i | 0 <= i < |fams| ensures fams[i].id in db.families && fams[i] == View(db, fams[i].id) {
      EndViews(hash, n, i);
    }
    forall f | f in db.families ensures View(db, f) in fams {
      var i := if f == Id(n.k2) then 0 else 1;
      EndViews(hash, n, i);
      assert fams[i].id == f;
    }
  }

  const G := Group("s", "m")

  ghost predicate AllIn(fams: seq<Fam>, g: Group) {
    forall f | f in fams :: GroupOf(f) == g && f.primary != {}
  }

  lemma {:induction false} OneGroup(fams: seq<Fam>, g: Group)
    requires AllIn(fams, g)
    ensures Entries(fams, g) == fams
    ensures GroupKeys(fams) == if fams == [] then [] else [g]
  {
    if fams != [] {
      var n := |fams| - 1;
      var front := fams[..n];
      assert fams == front + [fams[n]];
      assert AllIn(front, g);
      OneGroup(front, g);
      assert fams[n] in fams;
    }
  }

  lemma SingleGroup(fams: seq<Fam>, g: Group)
    ensures PlanGroups(fams, [g]) == GroupPlan(Entries(fams, g), |Entries(fams, g)|)
  {
    var groups := [g];
    assert groups[..0] == [];
    assert PlanGroups(fams, []) == [];
  }

  lemma OneGroupPlan(fams: seq<Fam>, g: Group)
    requires AllIn(fams, g) && fams != []
    ensures PlanOf(fams) == GroupPlan(fams, |fams|)
  {
    OneGroup(fams, g);
    SingleGroup(fams, g);
  }

  lemma NextEntry(fams: seq<Fam>, i: nat, plan: seq<Entry>, e: Option<Entry>)
    requires i < |fams| && GroupPlan(fams, i) == plan && EntryFor(fams, fams[i]) == e
    ensures GroupPlan(fams, i + 1) == if e.Some? then plan + [e.value] else plan
  {
  }

  /** Every family of the lists at hand is in the one group and has primary keys. */
  lemma InGroup(n: Names)
    ensures AllIn(FirstLoad(n), G) && AllIn(SecondLoad(n), G) && AllIn(ThirdLoad(n), G)
  {
    assert A in {A} && A in AB && A in ABC && A in ZAB;
  }

  lemma PlannedAs(fams: seq<Fam>, f: Fam, o: Fam, e: Entry)
    requires AllIn(fams, G) && DistinctIds(fams) && Explains(fams, e, f, o)
    ensures EntryFor(fams, f) == Some(e)
  {
    OneGroup(fams, G);
    ExplainedEntryFor(fams, e, f, o);
  }

  lemma Unplanned(fams: seq<Fam>, f: Fam)
    requires AllIn(fams, G) && DistinctIds(fams) && f in fams
    requires forall o | o in fams :: !StrictSuperset(f, o) && (Twins(f, o) ==> !Lower(f, o))
    ensures EntryFor(fams, f) == None
  {
    OneGroup(fams, G);
    if EntryFor(fams, f).Some? {
      EntryForExplained(fams, f, EntryFor(fams, f).value);
    }
  }

  /** The canonical sets of the example, as the planner compares them. */
  lemma Comparisons()
    ensures Canon({A}) < Canon(AB) < Canon(ABC) && Canon(AB) < Canon(ZAB)
    ensures !(Canon(ABC) <= Canon(ZAB)) && !(Canon(ZAB) <= Canon(ABC)) && !(Canon(AB) <= Canon({A}))
    ensures |Canon({A})| == 1 && |Canon(AB)| == 2 && |Canon(ABC)| == 3 && |Canon(ZAB)| == 3
    ensures LexBefore(Canon(ZAB), Canon(ABC))
    ensures {A} != {} && AB != {} && ABC != {} && ZAB != {}
  {
    Tokens();
    assert Token(1) in Canon(AB) && Token(2) in Canon(AB) && Token(2) !in Canon({A});
    assert Token(3) in Canon(ABC) && Token(3) !in Canon(ZAB) && Token(3) !in Canon(AB);
    assert Token(0) in Canon(ZAB) && Token(0) !in Canon(ABC) && Token(0) !in Canon(AB);
    assert A in AB && A in ABC && A in ZAB;
  }

  predicate TopSet(primary: set<SkillKey>) {
    primary == ABC || primary == ZAB
  }

  predicate ExampleSet(primary: set<SkillKey>) {
    primary == {A} || primary == AB || TopSet(primary)
  }

  /** Nothing is above the two largest sets, and only families of the very set are twins. */
  lemma NothingAbove(f: Fam, o: Fam)
    requires TopSet(f.primary) && ExampleSet(o.primary)
    ensures !StrictSuperset(f, o) && (Twins(f, o) ==> o.primary == f.primary)
  {
    Comparisons();
  }

  lemma AllExampleSets(n: Names)
    ensures forall f | f in FirstLoad(n) + SecondLoad(n) + ThirdLoad(n) :: ExampleSet(f.primary)
  {
  }

  lemma Sizes()
    ensures POOR <= RICH && |POOR| == 1 && |RICH| == 2
  {
    assert "a" != "b";
  }

  lemma MembersOfFirst(n: Names, p: Fam)
    requires p in FirstLoad(n)
    ensures || p == Loaded(n.k1, ABC, RICH) || p == Loaded(n.x, {A}, POOR) || p == Loaded(n.low, ABC, POOR)
            || p == Loaded(n.q, AB, POOR) || p == Loaded(n.k2, ABC, RICH) || p == Loaded(n.w, ZAB, POOR)
  {
  }

  /** The three families of the set ABC. */
  lemma FirstTwins(n: Names, p: Fam)
    requires p in FirstLoad(n) && p.primary == ABC
    ensures p == Loaded(n.k1, ABC, RICH) || p == Loaded(n.low, ABC, POOR) || p == Loaded(n.k2, ABC, RICH)
  {
    assert C in ABC && C !in {A} && C !in AB && C !in ZAB;
  }

  lemma FirstJoins(hash: KeyHash, n: Names)
    requires Fitting(hash, n)
    ensures Explains(FirstLoad(n), FirstPlan(n)[0], FirstLoad(n)[0], FirstLoad(n)[4])
  {
    DistinctNames(hash, n);
    Sizes();
    InGroup(n);
    AllExampleSets(n);
    var fams := FirstLoad(n);
    assert fams[0] in fams && fams[4] in fams;
    forall p | p in fams ensures !StrictSuperset(fams[0], p) {
      NothingAbove(fams[0], p);
    }
    forall p | p in fams && Twins(fams[0], p) ensures p == fams[4] || RicherTwin(fams[4], p) {
      NothingAbove(fams[0], p);
      FirstTwins(n, p);
    }
  }

  lemma FirstJoinsAfter(hash: KeyHash, n: Names)
    requires Fitting(hash, n)
    ensures Explains(FirstLoad(n), FirstPlan(n)[2], FirstLoad(n)[2], FirstLoad(n)[0])
  {
    DistinctNames(hash, n);
    Sizes();
    InGroup(n);
    AllExampleSets(n);
    var fams := FirstLoad(n);
    assert fams[0] in fams && fams[2] in fams;
    forall p | p in fams ensures !StrictSuperset(fams[2], p) {
      NothingAbove(fams[2], p);
    }
    forall p | p in fams && Twins(fams[2], p) ensures p == fams[0] || RicherTwin(fams[0], p) {
      NothingAbove(fams[2], p);
      FirstTwins(n, p);
    }
  }

  lemma FirstExpands(hash: KeyHash, n: Names)
    requires Fitting(hash, n)
    ensures Explains(FirstLoad(n), FirstPlan(n)[1], FirstLoad(n)[1], FirstLoad(n)[3])
    ensures Explains(FirstLoad(n), FirstPlan(n)[3], FirstLoad(n)[3], FirstLoad(n)[5])
  {
    DistinctNames(hash, n);
    Comparisons();
    var fams := FirstLoad(n);
    assert fams[1] in fams && fams[3] in fams && fams[5] in fams;
    assert {A} + AB == AB && AB + ZAB == ZAB;
    forall p | p in fams && StrictSuperset(fams[1], p) ensures p == fams[3] || SmallerSuperset(fams[3], p) {
      MembersOfFirst(n, p);
    }
    forall p | p in fams && StrictSuperset(fams[3], p) ensures p == fams[5] || SmallerSuperset(fams[5], p) {
      MembersOfFirst(n, p);
    }
  }

  /** The richest twin left and the largest other set have nowhere to go. */
  lemma FirstRest(hash: KeyHash, n: Names, i: nat)
    requires Fitting(hash, n) && 4 <= i < 6
    ensures EntryFor(FirstLoad(n), FirstLoad(n)[i]) == None
  {
    var fams := FirstLoad(n);
    InGroup(n);
    FirstIsLoad(hash, n);
    AllExampleSets(n);
    assert fams[i] in fams;
    forall o | o in fams
      ensures !StrictSuperset(fams[i], o) && (Twins(fams[i], o) ==> !Lower(fams[i], o))
    {
      NothingAbove(fams[i], o);
      if o.primary == fams[i].primary {
        FirstNotLower(hash, n, i, o);
      }
    }
    Unplanned(fams, fams[i]);
  }

  lemma FirstNotLower(hash: KeyHash, n: Names, i: nat, o: Fam)
    requires Fitting(hash, n) && 4 <= i < 6 && o in FirstLoad(n) && o.primary == FirstLoad(n)[i].primary
    ensures !Lower(FirstLoad(n)[i], o)
  {
    Sizes();
    if i == 4 {
      FirstTwins(n, o);
    } else {
      assert Z in ZAB && Z !in {A} && Z !in AB && Z !in ABC;
    }
  }

  lemma FirstPlanIsPlan(hash: KeyHash, n: Names)
    requires Fitting(hash, n)
    ensures PlanOf(FirstLoad(n)) == FirstPlan(n)
  {
    var fams, plan := FirstLoad(n), FirstPlan(n);
    InGroup(n);
    FirstIsLoad(hash, n);
    FirstJoins(hash, n);
    FirstJoinsAfter(hash, n);
    FirstExpands(hash, n);
    FirstRest(hash, n, 4);
    FirstRest(hash, n, 5);
    PlannedAs(fams, fams[0], fams[4], plan[0]);
    PlannedAs(fams, fams[1], fams[3], plan[1]);
    PlannedAs(fams, fams[2], fams[0], plan[2]);
    PlannedAs(fams, fams[3], fams[5], plan[3]);
    FirstSequence(fams, plan);
    OneGroupPlan(fams, G);
  }

  lemma FirstSequence(fams: seq<Fam>, plan: seq<Entry>)
    requires |fams| == 6 && |plan| == 4
    requires EntryFor(fams, fams[0]) == Some(plan[0]) && EntryFor(fams, fams[1]) == Some(plan[1])
    requires EntryFor(fams, fams[2]) == Some(plan[2]) && EntryFor(fams, fams[3]) == Some(plan[3])
    requires EntryFor(fams, fams[4]) == None && EntryFor(fams, fams[5]) == None
    ensures GroupPlan(fams, 6) == plan
  {
    FirstPair(fams, plan);
    NextEntry(fams, 2, [plan[0], plan[1]], Some(plan[2]));
    NextEntry(fams, 3, [plan[0], plan[1], plan[2]], Some(plan[3]));
    assert plan == [plan[0], plan[1], plan[2]] + [plan[3]];
    NextEntry(fams, 4, plan, None);
    NextEntry(fams, 5, plan, None);
  }

  lemma FirstPair(fams: seq<Fam>, plan: seq<Entry>)
    requires |fams| == 6 && |plan| == 4
    requires EntryFor(fams, fams[0]) == Some(plan[0]) && EntryFor(fams, fams[1]) == Some(plan[1])
    ensures GroupPlan(fams, 2) == [plan[0], plan[1]]
  {
    NextEntry(fams, 0, [], Some(plan[0]));
    NextEntry(fams, 1, [plan[0]], Some(plan[1]));
  }

  // ----- running the first plan

  lemma NextStep(hash: KeyHash, db: Db, fams: seq<Fam>, plan: seq<Entry>, e: Entry, d: Db, merged: nat, d': Db)
    requires RunPlan(hash, db, fams, plan) == Done(d, merged)
    requires Execute(hash, d, fams, e) == Merged(d')
    ensures RunPlan(hash, db, fams, plan + [e]) == Done(d', merged + 1)
  {
    assert (plan + [e])[..|plan|] == plan;
  }

  function OwnedBy(key: int): map<string, Record> {
    map["r" := Record(Some(Id(key)), {A})]
  }

  function First1(n: Names): Db {
    Db(map[Id(n.k2) := Row(ABC, RICH), Id(n.low) := Row(ABC, POOR), Id(n.q) := Row(AB, POOR),
           Id(n.x) := Row({A}, POOR), Id(n.w) := Row(ZAB, POOR)],
       OwnedBy(n.low))
  }

  function First2(n: Names): Db {
    Db(map[Id(n.k1) := Row(AB, POOR), Id(n.k2) := Row(ABC, RICH), Id(n.low) := Row(ABC, POOR),
           Id(n.q) := Row(AB, POOR), Id(n.w) := Row(ZAB, POOR)],
       OwnedBy(n.low))
  }

  function First3(n: Names): Db {
    Db(map[Id(n.k1) := Row(AB, POOR), Id(n.k2) := Row(ABC, RICH), Id(n.q) := Row(AB, POOR), Id(n.w) := Row(ZAB, POOR)],
       OwnedBy(n.k1))
  }

  lemma Reown(a: int, b: int, c: int)
    ensures a == b ==> Reowned(OwnedBy(a), Id(b), Id(c)) == OwnedBy(c)
    ensures a != b ==> Reowned(OwnedBy(a), Id(b), Id(c)) == OwnedBy(a)
  {
  }

  /** A merge adds nothing to the sources of a target that has them all. */
  lemma MergeRow(families: map<FamilyId, FamilyRow>, src: FamilyId, dst: FamilyId, primary: set<SkillKey>)
    requires src in families && dst in families && families[src].sources <= families[dst].sources
    requires families[dst].evidenceCount == |families[dst].sources|
    ensures MergedRow(families, src, dst, "m", primary) == families[dst]
  {
    assert families[dst].sources + families[src].sources == families[dst].sources;
  }

  lemma JoinRuns(hash: KeyHash, db: Db, fams: seq<Fam>, e: Entry, o: Fam)
    requires DistinctIds(fams) && o in fams && e.dst == o.id && o.ascendancy == "m"
    requires e.relation == Join && e.src in db.families && e.dst in db.families && e.src != e.dst
    requires db.families[e.src].sources <= db.families[e.dst].sources
    requires db.families[e.dst].evidenceCount == |db.families[e.dst].sources|
    ensures Execute(hash, db, fams, e) ==
            Merged(Db((db.families - {e.src})[e.dst := db.families[e.dst]], Reowned(db.records, e.src, e.dst)))
  {
    LookupFinds(fams, o);
    MergeRow(db.families, e.src, e.dst, o.primary);
  }

  lemma ExpandRuns(hash: KeyHash, db: Db, fams: seq<Fam>, e: Entry, f: Fam, dst: FamilyId)
    requires DistinctIds(fams) && f in fams && e.src == f.id && f.ascendancy == "m"
    requires e.relation == Expand && e.src in db.families
    requires dst == FamilyId(e.src.scope, hash("m", e.dstPrimary)) && dst != e.src
    requires dst in db.families ==>
               && db.families[e.src].sources <= db.families[dst].sources
               && db.families[dst].evidenceCount == |db.families[dst].sources|
    ensures Execute(hash, db, fams, e) ==
            Merged(Db((db.families - {e.src})
                      [dst := if dst in db.families then db.families[dst]
                              else Row(e.dstPrimary, db.families[e.src].sources)],
                      Reowned(db.records, e.src, dst)))
  {
    LookupFinds(fams, f);
    if dst in db.families {
      MergeRow(db.families, e.src, dst, e.dstPrimary);
    } else {
      var none: set<string> := {};
      assert none + db.families[e.src].sources == db.families[e.src].sources;
    }
  }

  lemma Rows1(n: Names)
    requires AllDistinct(n)
    ensures (Start(n).families - {Id(n.k1)})[Id(n.k2) := Row(ABC, RICH)] == First1(n).families
  {
  }

  lemma Rows2(n: Names)
    requires AllDistinct(n)
    ensures (First1(n).families - {Id(n.x)})[Id(n.k1) := Row(AB, POOR)] == First2(n).families
  {
  }

  lemma Rows3(n: Names)
    requires AllDistinct(n)
    ensures (First2(n).families - {Id(n.low)})[Id(n.k1) := Row(AB, POOR)] == First3(n).families
  {
  }

  lemma Rows4(n: Names)
    requires AllDistinct(n)
    ensures (First3(n).families - {Id(n.q)})[Id(n.w) := Row(ZAB, POOR)] == Middle(n).families
  {
  }

  lemma Step1(hash: KeyHash, n: Names)
    requires Fitting(hash, n)
    ensures Execute(hash, Start(n), FirstLoad(n), FirstPlan(n)[0]) == Merged(First1(n))
  {
    FirstDistinct(hash, n);
    var db, fams := Start(n), FirstLoad(n);
    assert fams[4] in fams;
    assert db.families[Id(n.k1)] == Row(ABC, RICH) && db.families[Id(n.k2)] == Row(ABC, RICH);
    JoinRuns(hash, db, fams, FirstPlan(n)[0], fams[4]);
    Reown(n.low, n.k1, n.k2);
    Rows1(n);
  }

  lemma Step2(hash: KeyHash, n: Names)
    requires Fitting(hash, n)
    ensures Execute(hash, First1(n), FirstLoad(n), FirstPlan(n)[1]) == Merged(First2(n))
  {
    FirstDistinct(hash, n);
    var db, fams := First1(n), FirstLoad(n);
    assert fams[1] in fams;
    assert Id(n.k1) !in db.families && db.families[Id(n.x)] == Row({A}, POOR);
    ExpandRuns(hash, db, fams, FirstPlan(n)[1], fams[1], Id(n.k1));
    Reown(n.low, n.x, n.k1);
    Rows2(n);
  }

  lemma Step3(hash: KeyHash, n: Names)
    requires Fitting(hash, n)
    ensures Execute(hash, First2(n), FirstLoad(n), FirstPlan(n)[2]) == Merged(First3(n))
  {
    FirstDistinct(hash, n);
    var db, fams := First2(n), FirstLoad(n);
    assert fams[0] in fams;
    assert db.families[Id(n.low)] == Row(ABC, POOR) && db.families[Id(n.k1)] == Row(AB, POOR);
    JoinRuns(hash, db, fams, FirstPlan(n)[2], fams[0]);
    Reown(n.low, n.low, n.k1);
    Rows3(n);
  }

  lemma Step4(hash: KeyHash, n: Names)
    requires Fitting(hash, n)
    ensures Execute(hash, First3(n), FirstLoad(n), FirstPlan(n)[3]) == Merged(Middle(n))
  {
    FirstDistinct(hash, n);
    var db, fams := First3(n), FirstLoad(n);
    assert fams[3] in fams;
    assert db.families[Id(n.q)] == Row(AB, POOR) && db.families[Id(n.w)] == Row(ZAB, POOR);
    ExpandRuns(hash, db, fams, FirstPlan(n)[3], fams[3], Id(n.w));
    Reown(n.k1, n.q, n.w);
    Rows4(n);
  }

  lemma FirstRound(hash: KeyHash, n: Names)
    requires Fitting(hash, n)
    ensures RunPlan(hash, Start(n), FirstLoad(n), PlanOf(FirstLoad(n))) == Done(Middle(n), 4)
  {
    FirstPlanIsPlan(hash, n);
    var db, fams, plan := Start(n), FirstLoad(n), FirstPlan(n);
    assert [] + [plan[0]] == [plan[0]];
    assert [plan[0]] + [plan[1]] == [plan[0], plan[1]];
    assert [plan[0], plan[1]] + [plan[2]] == [plan[0], plan[1], plan[2]];
    assert [plan[0], plan[1], plan[2]] + [plan[3]] == plan;
    Step1(hash, n);
    NextStep(hash, db, fams, [], plan[0], db, 0, First1(n));
    Step2(hash, n);
    NextStep(hash, db, fams, [plan[0]], plan[1], First1(n), 1, First2(n));
    Step3(hash, n);
    NextStep(hash, db, fams, [plan[0], plan[1]], plan[2], First2(n), 2, First3(n));
    Step4(hash, n);
    NextStep(hash, db, fams, [plan[0], plan[1], plan[2]], plan[3], First3(n), 3, Middle(n));
  }

  // ----- the second and third rounds

  function SecondEntry(n: Names): Entry {
    Entry(Id(n.k1), Id(n.w), Expand, ZAB)
  }

  lemma SecondExpands(hash: KeyHash, n: Names)
    requires Fitting(hash, n)
    ensures EntryFor(SecondLoad(n), SecondLoad(n)[0]) == Some(SecondEntry(n))
  {
    DistinctNames(hash, n);
    Comparisons();
    InGroup(n);
    MiddleIsLoad(hash, n);
    var fams, e := SecondLoad(n), SecondEntry(n);
    assert fams[0] in fams && fams[2] in fams;
    assert AB + ZAB == ZAB;
    forall p | p in fams && StrictSuperset(fams[0], p) ensures p == fams[2] || SmallerSuperset(fams[2], p) {
    }
    assert Explains(fams, e, fams[0], fams[2]);
    PlannedAs(fams, fams[0], fams[2], e);
  }

  /** In a list of families with different sets none has a twin. */
  lemma OneEach(f: Fam, o: Fam, fams: seq<Fam>)
    requires f in fams && o in fams && (Twins(f, o) ==> o.primary == f.primary)
    requires forall i, j | 0 <= i < j < |fams| :: fams[i].primary != fams[j].primary
    ensures !Twins(f, o)
  {
  }

  lemma SecondSets(n: Names)
    ensures forall i, j | 0 <= i < j < 3 :: SecondLoad(n)[i].primary != SecondLoad(n)[j].primary
    ensures ThirdLoad(n)[0].primary != ThirdLoad(n)[1].primary
  {
    assert C in ABC && C !in AB && C !in ZAB && Z in ZAB && Z !in AB;
  }

  lemma SecondRest(hash: KeyHash, n: Names, i: nat)
    requires Fitting(hash, n) && 1 <= i < 3
    ensures EntryFor(SecondLoad(n), SecondLoad(n)[i]) == None
  {
    InGroup(n);
    AllExampleSets(n);
    MiddleIsLoad(hash, n);
    SecondSets(n);
    var fams := SecondLoad(n);
    assert fams[i] in fams;
    forall o | o in fams ensures !StrictSuperset(fams[i], o) && !Twins(fams[i], o) {
      NothingAbove(fams[i], o);
      OneEach(fams[i], o, fams);
    }
    Unplanned(fams, fams[i]);
  }

  lemma SecondPlan(hash: KeyHash, n: Names)
    requires Fitting(hash, n)
    ensures PlanOf(SecondLoad(n)) == [SecondEntry(n)]
  {
    var fams, e := SecondLoad(n), SecondEntry(n);
    SecondExpands(hash, n);
    SecondRest(hash, n, 1);
    SecondRest(hash, n, 2);
    InGroup(n);
    NextEntry(fams, 0, [], Some(e));
    NextEntry(fams, 1, [e], None);
    NextEntry(fams, 2, [e], None);
    OneGroupPlan(fams, G);
  }

  lemma SecondStep(hash: KeyHash, n: Names)
    requires Fitting(hash, n)
    ensures Execute(hash, Middle(n), SecondLoad(n), SecondEntry(n)) == Merged(End(n))
  {
    DistinctNames(hash, n);
    MiddleIsLoad(hash, n);
    var db, fams := Middle(n), SecondLoad(n);
    assert fams[0] in fams;
    ExpandRuns(hash, db, fams, SecondEntry(n), fams[0], Id(n.w));
    Reown(n.k1, n.k1, n.w);
    assert (db.families - {Id(n.k1)})[Id(n.w) := Row(ZAB, POOR)] == End(n).families;
  }

  lemma SecondRound(hash: KeyHash, n: Names)
    requires Fitting(hash, n)
    ensures RunPlan(hash, Middle(n), SecondLoad(n), PlanOf(SecondLoad(n))) == Done(End(n), 1)
  {
    SecondPlan(hash, n);
    SecondStep(hash, n);
    NextStep(hash, Middle(n), SecondLoad(n), [], SecondEntry(n), Middle(n), 0, End(n));
    assert [] + [SecondEntry(n)] == [SecondEntry(n)];
  }

  lemma ThirdRest(hash: KeyHash, n: Names, i: nat)
    requires Fitting(hash, n) && i < 2
    ensures EntryFor(ThirdLoad(n), ThirdLoad(n)[i]) == None
  {
    InGroup(n);
    AllExampleSets(n);
    EndIsLoad(hash, n);
    SecondSets(n);
    var fams := ThirdLoad(n);
    assert fams[i] in fams;
    forall o | o in fams ensures !StrictSuperset(fams[i], o) && !Twins(fams[i], o) {
      NothingAbove(fams[i], o);
      OneEach(fams[i], o, fams);
    }
    Unplanned(fams, fams[i]);
  }

  lemma ThirdPlanEmpty(hash: KeyHash, n: Names)
    requires Fitting(hash, n)
    ensures PlanOf(ThirdLoad(n)) == []
  {
    var fams := ThirdLoad(n);
    InGroup(n);
    ThirdRest(hash, n, 0);
    ThirdRest(hash, n, 1);
    NextEntry(fams, 0, [], None);
    NextEntry(fams, 1, [], None);
    OneGroupPlan(fams, G);
  }

  /** A whole run (two rounds, then an empty plan) on tables that satisfy the key discipline, after
      which a record's family no longer covers the family it was mounted on. */
  lemma RecordLosesCover(hash: KeyHash, n: Names)
    requires Fitting(hash, n)
    ensures KeyDiscipline(hash, Start(n)) && OwnersLive(Start(n))
    ensures IsLoad(Start(n), FirstLoad(n))
            && RunPlan(hash, Start(n), FirstLoad(n), PlanOf(FirstLoad(n))) == Done(Middle(n), 4)
    ensures IsLoad(Middle(n), SecondLoad(n))
            && RunPlan(hash, Middle(n), SecondLoad(n), PlanOf(SecondLoad(n))) == Done(End(n), 1)
    ensures IsLoad(End(n), ThirdLoad(n)) && PlanOf(ThirdLoad(n)) == []
    ensures var before, after := Start(n).records["r"].owner.value, End(n).records["r"].owner.value;
            && before in Start(n).families && after in End(n).families
            && !(CanonOf(Start(n), before) <= CanonOf(End(n), after))
  {
    FirstIsLoad(hash, n);
    MiddleIsLoad(hash, n);
    EndIsLoad(hash, n);
    FirstRound(hash, n);
    SecondRound(hash, n);
    ThirdPlanEmpty(hash, n);
    StartDiscipline(hash, n);
    CanonsDiffer(hash, n);
  }

  lemma CanonsDiffer(hash: KeyHash, n: Names)
    requires Fitting(hash, n)
    ensures Id(n.low) in Start(n).families && Id(n.w) in End(n).families
    ensures !(CanonOf(Start(n), Id(n.low)) <= CanonOf(End(n), Id(n.w)))
  {
    DistinctNames(hash, n);
    OneRecord(Start(n), Id(n.low));
    OneRecord(End(n), Id(n.w));
    assert ABC + {A} == ABC && ZAB + {A} == ZAB;
    Comparisons();
  }

  lemma StartDiscipline(hash: KeyHash, n: Names)
    requires Fitting(hash, n)
    ensures KeyDiscipline(hash, Start(n)) && OwnersLive(Start(n))
  {
    DistinctNames(hash, n);
    var db := Start(n);
    forall f, a, s | f in db.families && hash(a, s) == f.key
      ensures a == db.families[f].ascendancy && s <= FullPrimary(db, f)
    {
      assert f in {Id(n.k1), Id(n.k2), Id(n.low), Id(n.q), Id(n.x), Id(n.w)};
      assert f == Id(n.k1) || f == Id(n.w);
    }
  }
}
