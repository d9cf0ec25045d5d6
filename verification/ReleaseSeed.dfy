/**
 Pruning a research database to the release seed (scripts/build_research_release_seed.py): an ordered
 list of deletes and updates over records, their evidence, source provenance and build families.
 A comparison of nullable columns counts only when both are present, as in SQL; every other column
 used under a NOT is declared NOT NULL.
 */
module ReleaseSeed {

  datatype Option<+T> = None | Some(value: T)

  datatype Id = Id(text: string)
  datatype Key = Key(text: string)
  datatype Hash = Hash(text: string)
  datatype Source = Source(text: string)
  datatype Ref = Ref(text: string)
  datatype Text = Text(text: string)

  datatype Scope = GlobalSeed | LocalUser | EvalEphemeral
  datatype Status = Valid | NeedsRevalidation | Stale | Deprecated | Quarantined
  datatype Visibility = CreatorVisible | EvaluatorOnly | Hidden   // with its split, by a table check
  datatype Safety = Passed | NeedsReview | Rejected
  datatype StateScope = ActiveState | StateAgnostic | OtherScope(text: string)
  datatype Issue = Clear | EmptyText | LegacySchema | StateUnknown | OtherIssue(text: string)

  datatype Record = Record(
    scope: Scope, knowledge: Option<Key>, family: Option<Key>, projection: Option<Hash>,
    status: Status, superseded: Option<Id>, visibility: Visibility, safety: Safety,
    schemaTwo: bool, standard: bool, stateScope: StateScope, patch: Text, tree: Text,
    sources: set<Source>, refs: set<Ref>, count: nat, lastSeen: Text)

  datatype Evidence = Evidence(
    scope: Scope, knowledge: Key, record: Option<Id>, source: Source, claim: Text,
    accepted: Option<Hash>, issue: Issue, stateScope: StateScope, patch: Text, tree: Text, refs: set<Ref>)

  datatype Provenance = Provenance(scope: Scope, source: Source)
  datatype FamilyId = FamilyId(scope: Scope, key: Key)
  datatype FamilyEvidence = FamilyEvidence(family: FamilyId, source: Source)

  /** The key of a fragment is a text primary key, which SQLite lets be null. */
  datatype Fragment = Fragment(id: Option<Id>, scope: Scope, status: Status, visibility: Visibility, safety: Safety)
  datatype FragmentEvidence = FragmentEvidence(key: Text, fragment: Id, scope: Scope, visibility: Visibility)

  /** held are the records with a pending review hold, by the operational tables as they stand. */
  datatype Db = Db(
    records: map<Id, Record>, evidence: set<Evidence>, provenance: set<Provenance>,
    families: map<FamilyId, nat>, familyEvidence: set<FamilyEvidence>,
    fragments: set<Fragment>, fragmentEvidence: set<FragmentEvidence>, held: set<Id>)

  predicate Same<T(==)>(a: Option<T>, b: Option<T>) {
    a.Some? && b.Some? && a == b
  }

  predicate Current(s: StateScope) {
    s == ActiveState || s == StateAgnostic
  }

  /** What a record must be to stay at all. */
  predicate Safe(r: Record) {
    && r.visibility == CreatorVisible && r.scope == GlobalSeed && r.safety == Passed && r.status == Valid
    && r.schemaTwo && r.projection.Some? && Current(r.stateScope) && r.standard
  }

  /** The evidence row names this record. */
  predicate Names(e: Evidence, id: Id, r: Record) {
    e.scope == r.scope && Same(r.knowledge, Some(e.knowledge)) && e.record == Some(id)
  }

  /** The row carries the record's accepted projection and no binding issue. */
  predicate Accepts(e: Evidence, id: Id, r: Record) {
    Names(e, id, r) && (e.issue == Clear || e.issue == EmptyText) && Same(e.accepted, r.projection)
  }

  predicate HasFamily(families: map<FamilyId, nat>, r: Record) {
    r.family.Some? && FamilyId(r.scope, r.family.value) in families
  }

  // ----- the statements, in order

  function DropHeld(records: map<Id, Record>, held: set<Id>): map<Id, Record> {
    records - held
  }

  function KeepSafe(records: map<Id, Record>): map<Id, Record> {
    map id | id in records && Safe(records[id]) :: records[id]
  }

  function KeepGlobal(provenance: set<Provenance>): set<Provenance> {
    set p | p in provenance && p.scope == GlobalSeed
  }

  predicate Supports(e: Evidence, id: Id, r: Record, provenance: set<Provenance>) {
    Accepts(e, id, r) && Current(e.stateScope) && Provenance(e.scope, e.source) in provenance
  }

  predicate Supported(id: Id, r: Record, evidence: set<Evidence>, provenance: set<Provenance>,
                      families: map<FamilyId, nat>)
  {
    HasFamily(families, r) && exists e :: e in evidence && Supports(e, id, r, provenance)
  }

  function KeepSupported(records: map<Id, Record>, evidence: set<Evidence>, provenance: set<Provenance>,
                         families: map<FamilyId, nat>): map<Id, Record>
  {
    map id | id in records && Supported(id, records[id], evidence, provenance, families) :: records[id]
  }

  predicate Bound(e: Evidence, records: map<Id, Record>, provenance: set<Provenance>) {
    && e.scope == GlobalSeed && Current(e.stateScope)
    && Provenance(e.scope, e.source) in provenance
    && e.record.Some? && e.record.value in records
    && var r := records[e.record.value];
       Accepts(e, e.record.value, r) && r.status == Valid && r.superseded.None?
  }

  function KeepBound(evidence: set<Evidence>, records: map<Id, Record>, provenance: set<Provenance>): set<Evidence> {
    set e | e in evidence && Bound(e, records, provenance)
  }

  predicate Witnesses(e: Evidence, f: FamilyEvidence, records: map<Id, Record>) {
    && e.record.Some? && e.record.value in records
    && var r := records[e.record.value];
       && Accepts(e, e.record.value, r) && r.status == Valid && r.superseded.None?
       && r.scope == GlobalSeed && r.scope == f.family.scope && Same(r.family, Some(f.family.key))
       && e.source == f.source
  }

  function KeepWitnessed(familyEvidence: set<FamilyEvidence>, evidence: set<Evidence>, records: map<Id, Record>)
    : set<FamilyEvidence>
  {
    set f | f in familyEvidence && exists e :: e in evidence && Witnesses(e, f, records)
  }

  /** The evidence that counts towards a record's support. */
  predicate Counts(e: Evidence, id: Id, r: Record) {
    && Names(e, id, r) && Same(e.accepted, r.projection)
    && (e.issue == Clear || e.issue == LegacySchema || e.issue == StateUnknown)
    && e.patch == r.patch && e.tree == r.tree && e.stateScope == r.stateScope
  }

  function SourcesOf(evidence: set<Evidence>, id: Id, r: Record): set<Source> {
    set e | e in evidence && Counts(e, id, r) :: e.source
  }

  function RefsOf(evidence: set<Evidence>, id: Id, r: Record): set<Ref> {
    set e, x | e in evidence && Counts(e, id, r) && x in e.refs :: x
  }

  function Refreshed(evidence: set<Evidence>, id: Id, r: Record): Record {
    var sources := SourcesOf(evidence, id, r);
    r.(sources := sources, refs := RefsOf(evidence, id, r), count := |sources|,
       status := if sources != {} then r.status else Deprecated)
  }

  /** A row for this record and its accepted projection, at its patch, tree and state scope, unbound at
      most for reasons of the source. */
  ghost predicate SpeaksFor(e: Evidence, id: Id, r: Record) {
    && e.record == Some(id) && e.scope == r.scope && r.knowledge == Some(e.knowledge)
    && e.accepted.Some? && e.accepted == r.projection
    && e.issue in {Clear, LegacySchema, StateUnknown}
    && e.patch == r.patch && e.tree == r.tree && e.stateScope == r.stateScope
  }

  /** Sources and references are those of these rows, each source counted once; without a row the
      record is deprecated; nothing else changes. */
  ghost predicate RefreshWritten(evidence: set<Evidence>, id: Id, r: Record, r': Record) {
    && (forall s :: s in r'.sources <==> exists e :: e in evidence && SpeaksFor(e, id, r) && e.source == s)
    && (forall x :: x in r'.refs <==> exists e :: e in evidence && SpeaksFor(e, id, r) && x in e.refs)
    && r'.count == |r'.sources|
    && r'.status == (if exists e :: e in evidence && SpeaksFor(e, id, r) then r.status else Deprecated)
    && r' == r.(sources := r'.sources, refs := r'.refs, count := r'.count, status := r'.status)
  }

  lemma RefreshIsWritten(evidence: set<Evidence>, id: Id, r: Record)
    ensures RefreshWritten(evidence, id, r, Refreshed(evidence, id, r))
  {
    assert forall e :: SpeaksFor(e, id, r) <==> Counts(e, id, r);
    var sources := SourcesOf(evidence, id, r);
    if e :| e in evidence && SpeaksFor(e, id, r) {
      assert e.source in sources;
    }
  }

  function RefreshAll(records: map<Id, Record>, evidence: set<Evidence>): map<Id, Record> {
    map id | id in records :: Refreshed(evidence, id, records[id])
  }

  ghost predicate AllRefreshWritten(evidence: set<Evidence>, before: map<Id, Record>, after: map<Id, Record>) {
    && after.Keys == before.Keys
    && forall id | id in after :: RefreshWritten(evidence, id, before[id], after[id])
  }

  lemma AllRefreshed(evidence: set<Evidence>, records: map<Id, Record>)
    ensures AllRefreshWritten(evidence, records, RefreshAll(records, evidence))
  {
    forall id | id in records ensures RefreshWritten(evidence, id, records[id], Refreshed(evidence, id, records[id])) {
      RefreshIsWritten(evidence, id, records[id]);
    }
  }

  predicate Inhabited(f: FamilyId, records: map<Id, Record>) {
    exists id :: id in records && records[id].scope == f.scope && Same(records[id].family, Some(f.key))
  }

  function KeepInhabited(families: map<FamilyId, nat>, records: map<Id, Record>): map<FamilyId, nat> {
    map f | f in families && Inhabited(f, records) :: families[f]
  }

  function RowsOf(familyEvidence: set<FamilyEvidence>, f: FamilyId): set<FamilyEvidence> {
    set x | x in familyEvidence && x.family == f
  }

  function Recount(families: map<FamilyId, nat>, familyEvidence: set<FamilyEvidence>): map<FamilyId, nat> {
    map f | f in families :: |RowsOf(familyEvidence, f)|
  }

  predicate SafeFragment(f: Fragment) {
    f.visibility == CreatorVisible && f.scope == GlobalSeed && f.safety == Passed && f.status == Valid
  }

  function KeepFragments(fragments: set<Fragment>): set<Fragment> {
    set f | f in fragments && SafeFragment(f)
  }

  datatype Truth = True | False | Unknown

  /** NOT IN over a column that may be null. */
  function NotIn(x: Id, column: set<Option<Id>>): Truth {
    if Some(x) in column then False else if None in column then Unknown else True
  }

  function OrElse(a: Truth, b: bool): Truth {
    if b then True else a
  }

  function Keys(fragments: set<Fragment>): set<Option<Id>> {
    set f | f in fragments :: f.id
  }

  /** A row goes only when its condition is true; an unknown condition keeps it. */
  function KeepFragmentEvidence(rows: set<FragmentEvidence>, fragments: set<Fragment>): set<FragmentEvidence> {
    set e | e in rows
            && OrElse(NotIn(e.fragment, Keys(fragments)),
                      e.visibility != CreatorVisible || e.scope != GlobalSeed) != True
  }

  /** The records that survive every delete. */
  function Survivors(db: Db): map<Id, Record> {
    KeepSupported(KeepSafe(DropHeld(db.records, db.held)), db.evidence, KeepGlobal(db.provenance), db.families)
  }

  function Pruned(db: Db): Db {
    var provenance := KeepGlobal(db.provenance);
    var records := Survivors(db);
    var evidence := KeepBound(db.evidence, records, provenance);
    var familyEvidence := KeepWitnessed(db.familyEvidence, evidence, records);
    var refreshed := RefreshAll(records, evidence);
    var families := Recount(KeepInhabited(db.families, refreshed), familyEvidence);
    var fragments := KeepFragments(db.fragments);
    Db(refreshed, evidence, provenance, families, familyEvidence,
       fragments, KeepFragmentEvidence(db.fragmentEvidence, fragments), {})
  }

  /** All records but the ones still to do have been refreshed. */
  ghost predicate PartlyRefreshed(evidence: set<Evidence>, start: map<Id, Record>, now: map<Id, Record>,
                                  todo: set<Id>)
  {
    && now.Keys == start.Keys
    && forall id | id in start :: now[id] == if id in todo then start[id] else Refreshed(evidence, id, start[id])
  }

  lemma RefreshOne(evidence: set<Evidence>, start: map<Id, Record>, now: map<Id, Record>, todo: set<Id>, id: Id)
    requires PartlyRefreshed(evidence, start, now, todo) && id in todo && id in start
    ensures PartlyRefreshed(evidence, start, now[id := Refreshed(evidence, id, now[id])], todo - {id})
  {
  }

  class Seed {
    var records: map<Id, Record>
    var evidence: set<Evidence>
    var provenance: set<Provenance>
    var families: map<FamilyId, nat>
    var familyEvidence: set<FamilyEvidence>
    var fragments: set<Fragment>
    var fragmentEvidence: set<FragmentEvidence>
    var held: set<Id>

    ghost function Now(): Db
      reads this
    {
      Db(records, evidence, provenance, families, familyEvidence, fragments, fragmentEvidence, held)
    }

    /** The refresh of every record; recency is kept. */
    method RefreshRecords()
      modifies this`records
      ensures records == RefreshAll(old(records), evidence)
      ensures AllRefreshWritten(evidence, old(records), records)
    {
      AllRefreshed(evidence, records);
      RefreshRows();
    }

    /** One row at a time. */
    method RefreshRows()
      modifies this`records
      ensures records == RefreshAll(old(records), evidence)
    {
      var todo := records.Keys;
      while todo != {}
        invariant todo <= old(records).Keys && PartlyRefreshed(evidence, old(records), records, todo)
        decreases |todo|
      {
        var id :| id in todo;
        RefreshOne(evidence, old(records), records, todo, id);
        records := records[id := Refreshed(evidence, id, records[id])];
        todo := todo - {id};
      }
    }

    /** The pruning itself; its effect is a function of the database it starts from. */
    method Prune()
      modifies this
      ensures Now() == Pruned(old(Now()))
      ensures SeedOf(old(Now()), Now())
      ensures Closed(Now())
    {
      PruneWritten(Now());
      PruneCloses(Now());
      records := DropHeld(records, held);
      held := {};
      fragments := KeepFragments(fragments);
      records := KeepSafe(records);
      provenance := KeepGlobal(provenance);
      records := KeepSupported(records, evidence, provenance, families);
      fragmentEvidence := KeepFragmentEvidence(fragmentEvidence, fragments);
      evidence := KeepBound(evidence, records, provenance);
      familyEvidence := KeepWitnessed(familyEvidence, evidence, records);
      RefreshRecords();
      families := KeepInhabited(families, records);
      families := Recount(families, familyEvidence);
    }
  }

  // ----- the seed, column by column

  /** A record that may be in the seed: every column it is chosen by, and a row that supports it. */
  ghost predicate SeedRecord(db: Db, id: Id, r: Record) {
    && id !in db.held
    && r.visibility == CreatorVisible && r.scope == GlobalSeed && r.safety == Passed && r.status == Valid
    && r.schemaTwo && r.projection.Some? && r.standard
    && (r.stateScope == ActiveState || r.stateScope == StateAgnostic)
    && r.family.Some? && FamilyId(GlobalSeed, r.family.value) in db.families
    && r.knowledge.Some?
    && exists e :: e in db.evidence && e.record == Some(id) && SeedEvidence(db, e, r)
  }

  /** An evidence row that speaks for this record of the seed. */
  predicate SeedEvidence(db: Db, e: Evidence, r: Record) {
    && e.scope == GlobalSeed && r.knowledge == Some(e.knowledge)
    && e.accepted.Some? && e.accepted == r.projection && (e.issue == Clear || e.issue == EmptyText)
    && (e.stateScope == ActiveState || e.stateScope == StateAgnostic)
    && Provenance(GlobalSeed, e.source) in db.provenance
  }

  /** An evidence row that the refresh counts for a record of the seed. */
  predicate CountedEvidence(e: Evidence, id: Id, r: Record) {
    && e.record == Some(id) && e.issue == Clear
    && e.patch == r.patch && e.tree == r.tree && e.stateScope == r.stateScope
  }

  /** Every table of d, as it must be after pruning db. */
  ghost predicate SeedOf(db: Db, d: Db) {
    && d.held == {}
    && (forall p :: p in d.provenance <==> p in db.provenance && p.scope == GlobalSeed)
    && RecordsOf(db, d) && EvidenceOf(db, d) && FamiliesOf(db, d) && FragmentsOf(db, d)
  }

  ghost predicate RecordsOf(db: Db, d: Db) {
    && (forall id :: id in d.records <==> id in db.records && SeedRecord(db, id, db.records[id]))
    && forall id | id in d.records :: id in db.records && RefreshedRecord(d, id, db.records[id], d.records[id])
  }

  ghost predicate EvidenceOf(db: Db, d: Db) {
    && (forall e :: e in d.evidence <==> e in db.evidence && KeptRow(db, d, e))
    && forall x :: x in d.familyEvidence <==> x in db.familyEvidence && SeedFamilyEvidence(db, d, x)
  }

  /** A row of a record of the seed that is not superseded, and speaks for it. */
  ghost predicate KeptRow(db: Db, d: Db, e: Evidence) {
    && e.record.Some? && e.record.value in d.records && e.record.value in db.records
    && SeedEvidence(db, e, db.records[e.record.value]) && db.records[e.record.value].superseded.None?
  }

  ghost predicate FamiliesOf(db: Db, d: Db) {
    && (forall f :: f in d.families <==>
          && f in db.families && f.scope == GlobalSeed
          && exists id :: id in d.records && d.records[id].family == Some(f.key))
    && forall f | f in d.families :: d.families[f] == |set x | x in d.familyEvidence && x.family == f|
  }

  ghost predicate FragmentsOf(db: Db, d: Db) {
    && (forall f :: f in d.fragments <==>
          && f in db.fragments && f.visibility == CreatorVisible && f.scope == GlobalSeed
          && f.safety == Passed && f.status == Valid)
    && (forall e :: e in d.fragmentEvidence <==>
          && e in db.fragmentEvidence && e.visibility == CreatorVisible && e.scope == GlobalSeed
          && exists f :: f in d.fragments && (f.id == Some(e.fragment) || f.id == None))
  }

  /** A family's evidence row stays for a row of a record of the family that is not superseded. */
  ghost predicate SeedFamilyEvidence(db: Db, d: Db, x: FamilyEvidence) {
    x.family.scope == GlobalSeed
    && exists e :: e in d.evidence && e.source == x.source && e.record.Some? && e.record.value in d.records
                   && d.records[e.record.value].family == Some(x.family.key)
  }

  /** The refreshed columns say what the kept rows say; without a counted row the record is
      deprecated; every other column is as it was. */
  ghost predicate RefreshedRecord(d: Db, id: Id, r: Record, r': Record) {
    && (forall s :: s in r'.sources <==> exists e :: e in d.evidence && CountedEvidence(e, id, r) && e.source == s)
    && (forall x :: x in r'.refs <==> exists e :: e in d.evidence && CountedEvidence(e, id, r) && x in e.refs)
    && r'.count == |r'.sources| && r'.status == (if r'.sources == {} then Deprecated else Valid)
    && r' == r.(sources := r'.sources, refs := r'.refs, count := r'.count, status := r'.status)
  }

  lemma SeedRecords(db: Db, id: Id)
    ensures id in Pruned(db).records <==> id in db.records && SeedRecord(db, id, db.records[id])
  {
    if id in db.records {
      var r, provenance := db.records[id], KeepGlobal(db.provenance);
      if r.scope == GlobalSeed {
        assert forall e | e in db.evidence ::
            Supports(e, id, r, provenance) <==> e.record == Some(id) && SeedEvidence(db, e, r);
      }
    }
  }

  lemma SeedRows(db: Db, e: Evidence)
    ensures var d := Pruned(db);
            e in d.evidence <==>
              && e in db.evidence && e.record.Some? && e.record.value in d.records
              && SeedEvidence(db, e, db.records[e.record.value]) && db.records[e.record.value].superseded.None?
  {
    if e.record.Some? {
      SeedRecords(db, e.record.value);
    }
  }

  lemma CountedRows(db: Db, id: Id, e: Evidence)
    requires id in Pruned(db).records && e in Pruned(db).evidence
    ensures Counts(e, id, db.records[id]) <==> CountedEvidence(e, id, db.records[id])
  {
    SeedRows(db, e);
  }

  lemma SeedRefreshed(db: Db, id: Id)
    requires id in Pruned(db).records
    ensures RefreshedRecord(Pruned(db), id, db.records[id], Pruned(db).records[id])
  {
    var d, r := Pruned(db), db.records[id];
    SeedRecords(db, id);
    forall e | e in d.evidence ensures Counts(e, id, r) <==> CountedEvidence(e, id, r) {
      CountedRows(db, id, e);
    }
    assert d.records[id] == Refreshed(d.evidence, id, r);
  }

  lemma SeedFamilyRows(db: Db, x: FamilyEvidence)
    ensures var d := Pruned(db);
            x in d.familyEvidence <==> x in db.familyEvidence && SeedFamilyEvidence(db, d, x)
  {
    var d, records := Pruned(db), Survivors(db);
    forall e | e in d.evidence
      ensures Witnesses(e, x, records) <==>
                && x.family.scope == GlobalSeed && e.source == x.source && e.record.Some?
                && e.record.value in d.records && d.records[e.record.value].family == Some(x.family.key)
    {
      SeedRows(db, e);
      SeedRecords(db, e.record.value);
    }
  }

  lemma SeedFamilies(db: Db, f: FamilyId)
    ensures var d := Pruned(db);
            f in d.families <==>
              && f in db.families && f.scope == GlobalSeed
              && exists id :: id in d.records && d.records[id].family == Some(f.key)
    ensures f in Pruned(db).families ==>
              Pruned(db).families[f] == |set x | x in Pruned(db).familyEvidence && x.family == f|
  {
    var d := Pruned(db);
    forall id | id in d.records ensures d.records[id].scope == GlobalSeed {
      SeedRecords(db, id);
    }
  }

  lemma SeedFragments(db: Db)
    ensures FragmentsOf(db, Pruned(db))
  {
    var d := Pruned(db);
    forall k ensures k in Keys(d.fragments) <==> exists f :: f in d.fragments && f.id == k {
    }
  }

  lemma AllSeedRecords(db: Db)
    ensures RecordsOf(db, Pruned(db))
  {
    var d := Pruned(db);
    forall id ensures id in d.records <==> id in db.records && SeedRecord(db, id, db.records[id]) {
      SeedRecords(db, id);
    }
    forall id | id in d.records ensures RefreshedRecord(d, id, db.records[id], d.records[id]) {
      SeedRefreshed(db, id);
    }
  }

  lemma AllSeedRows(db: Db)
    ensures EvidenceOf(db, Pruned(db))
  {
    var d := Pruned(db);
    forall e ensures e in d.evidence <==> e in db.evidence && KeptRow(db, d, e) {
      SeedRows(db, e);
      if e.record.Some? {
        SeedRecords(db, e.record.value);
      }
    }
    forall x ensures x in d.familyEvidence <==> x in db.familyEvidence && SeedFamilyEvidence(db, d, x) {
      SeedFamilyRows(db, x);
    }
  }

  lemma AllSeedFamilies(db: Db)
    ensures FamiliesOf(db, Pruned(db))
  {
    forall f
      ensures var d := Pruned(db);
              && (f in d.families <==>
                    && f in db.families && f.scope == GlobalSeed
                    && exists id :: id in d.records && d.records[id].family == Some(f.key))
              && (f in d.families ==> d.families[f] == |set x | x in d.familyEvidence && x.family == f|)
    {
      SeedFamilies(db, f);
    }
  }

  /** What one pass makes of any database, table by table and column by column. */
  lemma PruneWritten(db: Db)
    ensures SeedOf(db, Pruned(db))
  {
    AllSeedRecords(db);
    AllSeedRows(db);
    AllSeedFamilies(db);
    SeedFragments(db);
  }

  // ----- referential closure

  /** Everything points at something that is there, and the counts are exact. */
  ghost predicate Closed(d: Db) {
    && (forall e | e in d.evidence ::
          && Provenance(e.scope, e.source) in d.provenance
          && e.record.Some? && e.record.value in d.records
          && Accepts(e, e.record.value, d.records[e.record.value])
          && d.records[e.record.value].superseded.None?)
    && (forall id | id in d.records :: HasFamily(d.families, d.records[id]))
    && (forall f | f in d.families :: Inhabited(f, d.records))
    && (forall x | x in d.familyEvidence :: x.family in d.families && SourceInFamily(d, x))
    && (forall f | f in d.families :: d.families[f] == |RowsOf(d.familyEvidence, f)|)
    && (forall id | id in d.records ::
          && d.records[id].sources == SourcesOf(d.evidence, id, d.records[id])
          && d.records[id].count == |d.records[id].sources|)
  }

  /** Some evidence row of a record of the family comes from that source. */
  ghost predicate SourceInFamily(d: Db, x: FamilyEvidence) {
    exists e :: e in d.evidence && e.source == x.source && e.record.Some? && e.record.value in d.records
                && d.records[e.record.value].scope == x.family.scope
                && Same(d.records[e.record.value].family, Some(x.family.key))
  }

  /** Refreshing changes nothing that identifies a record. */
  lemma RefreshKeeps(evidence: set<Evidence>, id: Id, r: Record)
    ensures var r' := Refreshed(evidence, id, r);
            && r' == r.(sources := r'.sources, refs := r'.refs, count := r'.count, status := r'.status)
            && (forall e :: Names(e, id, r') <==> Names(e, id, r))
            && (forall e :: Accepts(e, id, r') <==> Accepts(e, id, r))
            && (forall e :: Counts(e, id, r') <==> Counts(e, id, r))
  {
  }

  lemma EvidenceClosed(db: Db, e: Evidence)
    requires e in Pruned(db).evidence
    ensures var d := Pruned(db);
            && Provenance(e.scope, e.source) in d.provenance
            && e.record.Some? && e.record.value in d.records
            && Accepts(e, e.record.value, d.records[e.record.value])
            && d.records[e.record.value].superseded.None?
  {
  }

  lemma RecordClosed(db: Db, id: Id)
    requires id in Pruned(db).records
    ensures var d := Pruned(db);
            && HasFamily(d.families, d.records[id])
            && d.records[id].sources == SourcesOf(d.evidence, id, d.records[id])
            && d.records[id].count == |d.records[id].sources|
  {
    var d, r := Pruned(db), Survivors(db)[id];
    RefreshKeeps(d.evidence, id, r);
    assert HasFamily(db.families, r);
    assert Inhabited(FamilyId(d.records[id].scope, d.records[id].family.value), d.records);
    assert SourcesOf(d.evidence, id, d.records[id]) == SourcesOf(d.evidence, id, r);
  }

  lemma FamilyEvidenceClosed(db: Db, x: FamilyEvidence)
    requires x in Pruned(db).familyEvidence
    ensures x.family in Pruned(db).families && SourceInFamily(Pruned(db), x)
  {
    var d, records := Pruned(db), Survivors(db);
    var e :| e in d.evidence && Witnesses(e, x, records);
    var id := e.record.value;
    RefreshKeeps(d.evidence, id, records[id]);
    RecordClosed(db, id);
    assert e in d.evidence && e.source == x.source;
  }

  /** One pass reaches closure, whatever the database. */
  lemma PruneCloses(db: Db)
    ensures Closed(Pruned(db))
  {
    var d := Pruned(db);
    forall e | e in d.evidence
      ensures Provenance(e.scope, e.source) in d.provenance
      ensures e.record.Some? && e.record.value in d.records
      ensures Accepts(e, e.record.value, d.records[e.record.value])
      ensures d.records[e.record.value].superseded.None?
    {
      EvidenceClosed(db, e);
    }
    forall id | id in d.records
      ensures HasFamily(d.families, d.records[id])
      ensures d.records[id].sources == SourcesOf(d.evidence, id, d.records[id])
      ensures d.records[id].count == |d.records[id].sources|
    {
      RecordClosed(db, id);
    }
    forall x | x in d.familyEvidence ensures x.family in d.families && SourceInFamily(d, x) {
      FamilyEvidenceClosed(db, x);
    }
  }

  ghost predicate HasFragment(fragments: set<Fragment>, e: FragmentEvidence) {
    exists f :: f in fragments && f.id == Some(e.fragment)
  }

  lemma KeysHave(fragments: set<Fragment>, e: FragmentEvidence)
    ensures Some(e.fragment) in Keys(fragments) <==> HasFragment(fragments, e)
  {
  }

  /** A fragment without a key that passes every other test. */
  ghost predicate NullKeyed(fragments: set<Fragment>) {
    exists f :: f in fragments && SafeFragment(f) && f.id.None?
  }

  /** An evidence row that is safe itself and names no safe fragment. */
  predicate Orphan(fragments: set<Fragment>, e: FragmentEvidence) {
    && e.visibility == CreatorVisible && e.scope == GlobalSeed
    && forall f | f in fragments && SafeFragment(f) :: f.id != Some(e.fragment)
  }

  /** Fragment evidence is closed too exactly when the database has no safe fragment with a null key,
      or no orphaned row: one null key makes the test unknown for every orphan. */
  lemma FragmentsClosedIff(db: Db)
    ensures (forall e | e in Pruned(db).fragmentEvidence :: HasFragment(Pruned(db).fragments, e))
            <==> !NullKeyed(db.fragments) || forall e | e in db.fragmentEvidence :: !Orphan(db.fragments, e)
  {
    var fragments, kept := Pruned(db).fragments, Pruned(db).fragmentEvidence;
    assert None in Keys(fragments) <==> NullKeyed(db.fragments);
    forall e | e in db.fragmentEvidence
      ensures e in kept <==> e.visibility == CreatorVisible && e.scope == GlobalSeed
                             && (HasFragment(fragments, e) || NullKeyed(db.fragments))
      ensures Orphan(db.fragments, e) <==>
                e.visibility == CreatorVisible && e.scope == GlobalSeed && !HasFragment(fragments, e)
    {
      KeysHave(fragments, e);
    }
  }

  /** One fragment without a key, and a row about another that is not there. */
  function NullKeyDb(): Db {
    Db(map[], {}, {}, map[], {}, {Fragment(None, GlobalSeed, Valid, CreatorVisible, Passed)},
       {FragmentEvidence(Text("e"), Id("gone"), GlobalSeed, CreatorVisible)}, {})
  }

  /** The row survives, and a second pass does not remove it either. */
  lemma NullKeyKeepsOrphan()
    ensures var e := FragmentEvidence(Text("e"), Id("gone"), GlobalSeed, CreatorVisible);
            && e in Pruned(NullKeyDb()).fragmentEvidence && !HasFragment(Pruned(NullKeyDb()).fragments, e)
            && e in Pruned(Pruned(NullKeyDb())).fragmentEvidence
  {
    var f := Fragment(None, GlobalSeed, Valid, CreatorVisible, Passed);
    var fragments := Pruned(NullKeyDb()).fragments;
    assert f in fragments && SafeFragment(f) && f.id in Keys(fragments);
    assert forall g | g in fragments :: g == f;
    FragmentsStay(NullKeyDb());
  }

  lemma FragmentsStay(db: Db)
    ensures KeepFragments(Pruned(db).fragments) == Pruned(db).fragments
    ensures KeepFragmentEvidence(Pruned(db).fragmentEvidence, Pruned(db).fragments) == Pruned(db).fragmentEvidence
  {
  }

  /** Which records survive, and that nothing about them changes but what the refresh recomputes. */
  lemma SurvivesIff(db: Db, id: Id)
    ensures id in Pruned(db).records <==>
              && id in db.records && id !in db.held && Safe(db.records[id])
              && Supported(id, db.records[id], db.evidence, KeepGlobal(db.provenance), db.families)
    ensures id in Pruned(db).records ==>
              var r, r' := db.records[id], Pruned(db).records[id];
              r' == r.(sources := r'.sources, refs := r'.refs, count := r'.count, status := r'.status)
  {
  }

  /** A surviving record keeps an evidence row of its own exactly when it is not superseded: the
      delete of records does not look at supersession, the delete of evidence does. */
  lemma KeepsEvidenceIff(db: Db, id: Id)
    requires id in Pruned(db).records
    ensures (exists e :: e in Pruned(db).evidence && e.record == Some(id)) <==> db.records[id].superseded.None?
  {
    var records, provenance := Survivors(db), KeepGlobal(db.provenance);
    if db.records[id].superseded.None? {
      var e :| e in db.evidence && Supports(e, id, records[id], provenance);
      assert Bound(e, records, provenance);
      assert e in Pruned(db).evidence && e.record == Some(id);
    }
  }

  // ----- pruning again

  /** Some evidence row that stays also counts: same patch, tree and state scope, and a binding
      issue that is absent rather than empty. */
  ghost predicate Backed(db: Db, id: Id, r: Record) {
    r.superseded.None?
    && exists e :: e in db.evidence && Supports(e, id, r, KeepGlobal(db.provenance)) && Counts(e, id, r)
  }

  lemma ValidIffBacked(db: Db, id: Id)
    requires id in Survivors(db)
    ensures Pruned(db).records[id].status == (if Backed(db, id, db.records[id]) then Valid else Deprecated)
  {
    var records, provenance, r := Survivors(db), KeepGlobal(db.provenance), db.records[id];
    var evidence := Pruned(db).evidence;
    assert Pruned(db).records[id] == Refreshed(evidence, id, r);
    if Backed(db, id, r) {
      var e :| e in db.evidence && Supports(e, id, r, provenance) && Counts(e, id, r);
      assert Bound(e, records, provenance);
      assert e.source in SourcesOf(evidence, id, r);
    } else {
      forall e | e in evidence ensures !Counts(e, id, r) {
        assert Bound(e, records, provenance);
        if Counts(e, id, r) {
          assert Supports(e, id, r, provenance);
        }
      }
      assert SourcesOf(evidence, id, r) == {};
    }
  }

  ghost predicate AllValid(records: map<Id, Record>) {
    forall id | id in records :: records[id].status == Valid
  }

  lemma RefreshStays(db: Db, id: Id)
    requires id in Pruned(db).records && Pruned(db).records[id].status == Valid
    ensures var d := Pruned(db); Refreshed(d.evidence, id, d.records[id]) == d.records[id]
    ensures SourcesOf(Pruned(db).evidence, id, Survivors(db)[id]) != {}
  {
    var d := Pruned(db);
    var r0, r := Survivors(db)[id], d.records[id];
    RefreshKeeps(d.evidence, id, r0);
    assert SourcesOf(d.evidence, id, r) == SourcesOf(d.evidence, id, r0);
    assert RefsOf(d.evidence, id, r) == RefsOf(d.evidence, id, r0);
  }

  /** In a pruned database a valid record is safe, supported by what is left, and as a refresh
      would leave it. */
  lemma ValidStays(db: Db, id: Id)
    requires id in Pruned(db).records && Pruned(db).records[id].status == Valid
    ensures var d := Pruned(db); var r := d.records[id];
            && Safe(r) && Supported(id, r, d.evidence, d.provenance, d.families)
            && Refreshed(d.evidence, id, r) == r
            && r.superseded.None?
  {
    var d := Pruned(db);
    var r0, r := Survivors(db)[id], d.records[id];
    RefreshKeeps(d.evidence, id, r0);
    RecordClosed(db, id);
    RefreshStays(db, id);
    var s :| s in SourcesOf(d.evidence, id, r0);
    var e :| e in d.evidence && Counts(e, id, r0) && e.source == s;
    EvidenceClosed(db, e);
    assert Supports(e, id, r, d.provenance);
  }

  lemma NothingDropped(d: Db)
    requires d.held == {} && KeepGlobal(d.provenance) == d.provenance
    requires forall id | id in d.records ::
               Safe(d.records[id]) && Supported(id, d.records[id], d.evidence, d.provenance, d.families)
    ensures Survivors(d) == d.records
  {
  }

  lemma NothingRefreshed(records: map<Id, Record>, evidence: set<Evidence>)
    requires forall id | id in records :: Refreshed(evidence, id, records[id]) == records[id]
    ensures RefreshAll(records, evidence) == records
  {
  }

  lemma GlobalTwice(db: Db)
    ensures KeepGlobal(Pruned(db).provenance) == Pruned(db).provenance
  {
  }

  lemma RecordsStay(db: Db)
    requires AllValid(Pruned(db).records)
    ensures Survivors(Pruned(db)) == Pruned(db).records
    ensures RefreshAll(Pruned(db).records, Pruned(db).evidence) == Pruned(db).records
  {
    var d := Pruned(db);
    GlobalTwice(db);
    forall id | id in d.records
      ensures Safe(d.records[id]) && Supported(id, d.records[id], d.evidence, d.provenance, d.families)
      ensures Refreshed(d.evidence, id, d.records[id]) == d.records[id]
    {
      ValidStays(db, id);
    }
    NothingDropped(d);
    NothingRefreshed(d.records, d.evidence);
  }

  lemma EvidenceStays(db: Db)
    requires AllValid(Pruned(db).records)
    ensures KeepBound(Pruned(db).evidence, Pruned(db).records, Pruned(db).provenance) == Pruned(db).evidence
  {
  }

  lemma FamilyEvidenceStays(db: Db)
    requires AllValid(Pruned(db).records)
    ensures KeepWitnessed(Pruned(db).familyEvidence, Pruned(db).evidence, Pruned(db).records)
            == Pruned(db).familyEvidence
  {
  }

  lemma InhabitedStay(db: Db)
    ensures KeepInhabited(Pruned(db).families, Pruned(db).records) == Pruned(db).families
  {
  }

  lemma CountsStay(db: Db)
    ensures Recount(Pruned(db).families, Pruned(db).familyEvidence) == Pruned(db).families
  {
  }

  lemma StableWhenValid(db: Db)
    requires AllValid(Pruned(db).records)
    ensures Pruned(Pruned(db)) == Pruned(db)
  {
    var d := Pruned(db);
    RecordsStay(db);
    EvidenceStays(db);
    FamilyEvidenceStays(db);
    InhabitedStay(db);
    CountsStay(db);
    FragmentsStay(db);
    assert KeepGlobal(d.provenance) == d.provenance;
  }

  /** Pruning again deletes nothing exactly when every surviving record is backed, and exactly when
      no surviving record was demoted, which is what the seed is validated for afterwards. */
  lemma StableIff(db: Db)
    ensures Pruned(Pruned(db)) == Pruned(db) <==> forall id | id in Survivors(db) :: Backed(db, id, db.records[id])
    ensures Pruned(Pruned(db)) == Pruned(db) <==> AllValid(Pruned(db).records)
  {
    var d := Pruned(db);
    forall id | id in Survivors(db)
      ensures d.records[id].status == Valid <==> Backed(db, id, db.records[id])
    {
      ValidIffBacked(db, id);
    }
    if AllValid(d.records) {
      StableWhenValid(db);
    } else {
      var id :| id in d.records && d.records[id].status != Valid;
      SurvivesIff(d, id);
    }
  }

  lemma BackedAgain(db: Db, id: Id)
    requires id in Pruned(db).records && Pruned(db).records[id].status == Valid
    ensures Backed(Pruned(db), id, Pruned(db).records[id])
  {
    var d := Pruned(db);
    var r := d.records[id];
    ValidStays(db, id);
    GlobalTwice(db);
    RecordClosed(db, id);
    var s :| s in SourcesOf(d.evidence, id, r);
    var e :| e in d.evidence && Counts(e, id, r) && e.source == s;
    EvidenceClosed(db, e);
    assert Supports(e, id, r, d.provenance);
  }

  /** Two passes always reach a fixpoint. */
  lemma TwoPasses(db: Db)
    ensures Pruned(Pruned(Pruned(db))) == Pruned(Pruned(db))
  {
    var d := Pruned(db);
    forall id | id in Survivors(d) ensures Backed(d, id, d.records[id]) {
      SurvivesIff(d, id);
      BackedAgain(db, id);
    }
    StableIff(d);
  }

  /** A record and its one evidence row, which is from the patch before. */
  function OldRecord(): Record {
    Record(GlobalSeed, Some(Key("k")), Some(Key("f")), Some(Hash("h")), Valid, None, CreatorVisible, Passed,
           true, true, ActiveState, Text("new"), Text("t"), {}, {}, 1, Text("seen"))
  }

  function OldEvidence(): Evidence {
    Evidence(GlobalSeed, Key("k"), Some(Id("r")), Source("s"), Text("c"), Some(Hash("h")), Clear, ActiveState,
             Text("old"), Text("t"), {})
  }

  function OldDb(): Db {
    Db(map[Id("r") := OldRecord()], {OldEvidence()}, {Provenance(GlobalSeed, Source("s"))},
       map[FamilyId(GlobalSeed, Key("f")) := 1], {FamilyEvidence(FamilyId(GlobalSeed, Key("f")), Source("s"))},
       {}, {}, {})
  }

  lemma OldPatchSurvives()
    ensures Id("r") in Survivors(OldDb()) && !Backed(OldDb(), Id("r"), OldRecord())
  {
  }

  /** A record that is not superseded, with evidence of an earlier patch only, survives the deletes,
      is demoted by the refresh, and a second pass deletes it. */
  lemma OldPatchIsNotStable()
    ensures var db := OldDb();
            && db.records[Id("r")].superseded.None?
            && Id("r") in Pruned(db).records && Pruned(db).records[Id("r")].status == Deprecated
            && Id("r") !in Pruned(Pruned(db)).records
  {
    OldPatchSurvives();
    ValidIffBacked(OldDb(), Id("r"));
    SurvivesIff(Pruned(OldDb()), Id("r"));
  }
}
