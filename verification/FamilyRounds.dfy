/**
 Whole rounds of the apply loop: what a round keeps, why every non-empty round makes progress,
 and which canonical sets survive it.
 */
module FamilyRounds {
  import opened FamilyModel
  import opened FamilyPlanner
  import opened FamilyPlannerFacts
  import opened FamilyMerge
  import opened FamilyRound

  // ----- termination measure: family count, then canonical elements still missing

  ghost function Missing(db: Db, u: set<Token>): set<(FamilyId, Token)> {
    set f, t | f in db.families && t in u && t !in CanonOf(db, f) :: (f, t)
  }

  ghost predicate Shrinks(db: Db, db': Db, u: set<Token>) {
    || |db'.families| < |db.families|
    || (|db'.families| == |db.families| && |Missing(db', u)| < |Missing(db, u)|)
  }

  ghost predicate Within(db: Db, u: set<Token>) {
    forall f | f in db.families :: CanonOf(db, f) <= u
  }

  function Column(f: FamilyId, ts: set<Token>): set<(FamilyId, Token)> {
    set t | t in ts :: (f, t)
  }

  lemma {:induction false} ColumnSize(f: FamilyId, ts: set<Token>)
    ensures |Column(f, ts)| == |ts|
  {
    if ts == {} {
      assert Column(f, ts) == {};
    } else {
      var t :| t in ts;
      ColumnSize(f, ts - {t});
      assert Column(f, ts) == Column(f, ts - {t}) + {(f, t)};
    }
  }

  lemma MissingColumns(db: Db, u: set<Token>, f: FamilyId, rest: set<(FamilyId, Token)>)
    requires f in db.families
    requires rest == set p | p in Missing(db, u) && p.0 != f
    ensures |Missing(db, u)| == |rest| + |u - CanonOf(db, f)|
  {
    var column := Column(f, u - CanonOf(db, f));
    ColumnSize(f, u - CanonOf(db, f));
    assert Missing(db, u) == rest + column;
    assert rest !! column;
  }

  lemma FreshShrinks(db0: Db, db: Db, db': Db, e: Entry, dst: FamilyId, u: set<Token>)
    requires StepFacts(db0, db, db', e, dst) && Within(db', u) && dst !in db.families
    ensures |Missing(db', u)| < |Missing(db, u)|
  {
    var rest := set p | p in Missing(db, u) && p.0 != e.src;
    var rest' := set p | p in Missing(db', u) && p.0 != dst;
    forall p ensures p in rest <==> p in rest' {
      if p.0 in db.families && p.0 != e.src {
        assert CanonOf(db', p.0) == CanonOf(db, p.0);
      }
    }
    assert rest == rest';
    MissingColumns(db, u, e.src, rest);
    MissingColumns(db', u, dst, rest');
    StrictRemainder(u, CanonOf(db, e.src), CanonOf(db', dst));
  }

  lemma StrictRemainder(u: set<Token>, a: set<Token>, b: set<Token>)
    requires a < b <= u
    ensures |u - b| < |u - a|
  {
    var t :| t in b && t !in a;
    SubsetSize((u - b) + {t}, u - a);
  }

  /** Every executed entry lowers (family count, missing elements): a merge into a stored family
      removes one family, an expansion into a fresh key grows the canonical set of its source. */
  lemma StepShrinks(db0: Db, db: Db, db': Db, e: Entry, dst: FamilyId, u: set<Token>)
    requires StepFacts(db0, db, db', e, dst) && Within(db', u)
    ensures Shrinks(db, db', u)
  {
    FamilyCount(db, db', e.src, dst);
    if dst !in db.families {
      FreshShrinks(db0, db, db', e, dst, u);
    }
  }

  lemma FamilyCount(db: Db, db': Db, src: FamilyId, dst: FamilyId)
    requires src in db.families && src != dst
    requires db'.families.Keys == db.families.Keys - {src} + {dst}
    ensures |db'.families| == |db.families| - (if dst in db.families then 1 else 0)
  {
  }

  lemma {:induction false} SubsetSize<T>(a: set<T>, b: set<T>)
    requires a <= b
    ensures |a| <= |b|
  {
    assert b == a + (b - a);
    assert |b| == |a| + |b - a|;
  }

  // ----- families without primary keys

  function Bare(db: Db): map<FamilyId, FamilyRow> {
    map f | f in db.families && FullPrimary(db, f) == {} :: db.families[f]
  }

  lemma BareKept(hash: KeyHash, db0: Db, db: Db, gone: set<FamilyId>)
    requires RoundInv(hash, db0, db, gone)
    requires forall f | f in gone :: f in db0.families && FullPrimary(db0, f) != {}
    ensures Bare(db) == Bare(db0)
  {
  }

  // ----- a whole prefix of the plan

  function SourcesIn(plan: seq<Entry>): set<FamilyId> {
    set e | e in plan :: e.src
  }

  lemma OwnersStep(hash: KeyHash, db0: Db, db: Db, gone: set<FamilyId>, db': Db, e: Entry, dst: FamilyId)
    requires OwnersLive(db0) && RoundInv(hash, db0, db, gone) && OwnersLive(db') && SameRecords(db0, db')
    requires StepFacts(db0, db, db', e, dst)
    requires OwnerGroupsKept(db0, db)
    ensures OwnerGroupsKept(db0, db')
  {
  }

  lemma CoveredWithin(hash: KeyHash, db0: Db, db: Db, gone: set<FamilyId>, u: set<Token>)
    requires RoundInv(hash, db0, db, gone) && Within(db0, u)
    ensures Within(db, u)
  {
  }

  lemma RoundStart(hash: KeyHash, db0: Db)
    requires KeyDiscipline(hash, db0) && OwnersLive(db0)
    ensures RoundInv(hash, db0, db0, {})
  {
  }

  lemma EntrySource(db0: Db, fams: seq<Fam>, e: Entry)
    requires IsLoad(db0, fams) && e in PlanOf(fams)
    ensures e.src in db0.families && FullPrimary(db0, e.src) != {}
    ensures e.dst in db0.families
  {
    PlanExact(fams);
    var f, o :| Explains(fams, e, f, o);
    PlannedFam(db0, fams, f);
    PlannedFam(db0, fams, o);
  }

  ghost predicate RunFacts(hash: KeyHash, db0: Db, u: set<Token>, n: nat, gone: set<FamilyId>, db: Db, merged: nat)
    requires OwnersLive(db0)
  {
    && RoundInv(hash, db0, db, gone)
    && OwnerGroupsKept(db0, db)
    && (merged == 0 ==> db == db0)
    && (merged > 0 ==> Shrinks(db0, db, u))
    && (n > 0 ==> merged > 0)
  }

  lemma SourcesOfPrefix(plan: seq<Entry>, n: nat)
    requires n < |plan| && DistinctSources(plan)
    ensures SourcesIn(plan[..n + 1]) == SourcesIn(plan[..n]) + {plan[n].src}
    ensures plan[n].src !in SourcesIn(plan[..n])
  {
  }

  lemma RunStep(hash: KeyHash, db0: Db, fams: seq<Fam>, u: set<Token>, n: nat, before: set<FamilyId>, db: Db,
                merged: nat, e: Entry)
    requires Injective(hash) && IsLoad(db0, fams) && KeyDiscipline(hash, db0)
    requires OwnersLive(db0) && Within(db0, u)
    requires RunFacts(hash, db0, u, n, before, db, merged)
    requires e in PlanOf(fams) && e.src !in before
    ensures match Execute(hash, db, fams, e)
            case Crashed => false
            case Skipped => RunFacts(hash, db0, u, n + 1, before, db, merged)
            case Merged(db') => RunFacts(hash, db0, u, n + 1, before + {e.src}, db', merged + 1)
  {
    ExecuteStep(hash, db0, fams, db, before, e);
    EntrySource(db0, fams, e);
    match Execute(hash, db, fams, e)
    case Skipped =>
    case Merged(db') =>
      var dst := DstOf(hash, fams, e);
      CoveredWithin(hash, db0, db', before + {e.src}, u);
      StepShrinks(db0, db, db', e, dst, u);
      OwnersStep(hash, db0, db, before, db', e, dst);
  }

  /** The first n entries of a plan never crash; from the first entry on they make progress. */
  lemma {:induction false} RunKeeps(hash: KeyHash, db0: Db, fams: seq<Fam>, u: set<Token>,
                                    n: nat) returns (gone: set<FamilyId>)
    requires Injective(hash) && IsLoad(db0, fams) && KeyDiscipline(hash, db0)
    requires OwnersLive(db0) && Within(db0, u) && n <= |PlanOf(fams)|
    ensures gone <= SourcesIn(PlanOf(fams)[..n])
    ensures match RunPlan(hash, db0, fams, PlanOf(fams)[..n])
            case Failed => false
            case Done(db, merged) => RunFacts(hash, db0, u, n, gone, db, merged)
  {
    var plan := PlanOf(fams);
    if n == 0 {
      gone := {};
      RoundStart(hash, db0);
    } else {
      var e := plan[n - 1];
      assert plan[..n][..n - 1] == plan[..n - 1];
      gone := RunKeeps(hash, db0, fams, u, n - 1);
      var Done(db, merged) := RunPlan(hash, db0, fams, plan[..n - 1]);
      PlanSourcesDistinct(fams);
      SourcesOfPrefix(plan, n - 1);
      RunStep(hash, db0, fams, u, n - 1, gone, db, merged, e);
      if Execute(hash, db, fams, e).Merged? {
        gone := gone + {e.src};
      }
    }
  }

  // ----- maximal canonical sets

  ghost predicate HasCanon(db: Db, g: Group, tokens: set<Token>) {
    exists f :: f in db.families && Group(f.scope, db.families[f].ascendancy) == g
                && FullPrimary(db, f) != {} && CanonOf(db, f) == tokens
  }

  ghost predicate IsMaximal(db: Db, g: Group, tokens: set<Token>) {
    && HasCanon(db, g, tokens)
    && forall larger | HasCanon(db, g, larger) :: !(tokens < larger)
  }

  ghost predicate SameMaximal(db0: Db, db: Db) {
    forall g, tokens :: IsMaximal(db, g, tokens) <==> IsMaximal(db0, g, tokens)
  }

  lemma {:induction false} BelowMaximal(db: Db, u: set<Token>, g: Group, tokens: set<Token>) returns (top: set<Token>)
    requires Within(db, u) && HasCanon(db, g, tokens)
    ensures IsMaximal(db, g, top) && tokens <= top
    decreases |u| - |tokens|
  {
    assert tokens <= u;
    SubsetSize(tokens, u);
    if larger :| HasCanon(db, g, larger) && tokens < larger {
      assert larger <= u;
      SubsetSize(larger, u);
      StrictRemainder(u, tokens, larger);
      SizeOfRemainder(u, tokens);
      SizeOfRemainder(u, larger);
      top := BelowMaximal(db, u, g, larger);
    } else {
      top := tokens;
    }
  }

  lemma SizeOfRemainder(u: set<Token>, a: set<Token>)
    requires a <= u
    ensures |u - a| == |u| - |a|
  {
  }

  /** Among the families with one maximal canonical set, the last in the planner's join order. */
  lemma {:induction false} Sink(s: seq<Fam>) returns (f: Fam)
    requires s != [] && DistinctKeys(s)
    ensures f in s && forall x | x in s :: x == f || Lower(x, f)
  {
    var n := |s| - 1;
    f := s[n];
    if n > 0 {
      var g := Sink(s[..n]);
      assert s == s[..n] + [s[n]];
      assert g.id.key != s[n].id.key;
      if Lower(f, g) { f := g; }
    }
  }

  ghost predicate ClanSink(fams: seq<Fam>, g: Group, tokens: set<Token>, sink: Fam) {
    && sink in fams && GroupOf(sink) == g && sink.primary != {} && Canon(sink.primary) == tokens
    && forall x | x in fams && GroupOf(x) == g && x.primary != {} && Canon(x.primary) == tokens ::
         x == sink || Lower(x, sink)
  }

  lemma ClanHasSink(fams: seq<Fam>, a: Fam) returns (sink: Fam)
    requires DistinctIds(fams) && a in fams && a.primary != {}
    ensures ClanSink(fams, GroupOf(a), Canon(a.primary), sink)
  {
    var g := GroupOf(a);
    var entries := Entries(fams, g);
    EntriesMembers(fams, g);
    EntriesDistinct(fams, g);
    TwinsMembers(entries, a);
    var twins := TwinsOf(entries, a);
    var clan := twins + [a];
    forall i | 0 <= i < |twins| ensures twins[i].id.key != a.id.key {
      assert twins[i] in twins;
    }
    sink := Sink(clan);
    forall x | x in fams && GroupOf(x) == g && x.primary != {} && Canon(x.primary) == Canon(a.primary)
      ensures x in clan
    {
      SameId(fams, x, a);
      assert x in entries;
    }
  }

  lemma SinkStays(db0: Db, fams: seq<Fam>, g: Group, tokens: set<Token>, sink: Fam, e: Entry)
    requires IsLoad(db0, fams) && IsMaximal(db0, g, tokens)
    requires ClanSink(fams, g, tokens, sink) && e in PlanOf(fams)
    ensures e.src != sink.id
  {
    PlanExact(fams);
    var s, o :| Explains(fams, e, s, o);
    SameId(fams, s, sink);
    LoadedCanon(db0, fams, o);
    if GroupOf(o) == g && o.id != sink.id {
      SinkClimbsNowhere(db0, fams, g, tokens, sink, o);
    }
  }

  lemma SinkClimbsNowhere(db0: Db, fams: seq<Fam>, g: Group, tokens: set<Token>, sink: Fam, o: Fam)
    requires IsMaximal(db0, g, tokens) && ClanSink(fams, g, tokens, sink)
    requires o in fams && o.primary != {} && HasCanon(db0, GroupOf(o), Canon(o.primary))
    requires GroupOf(o) == g && o.id != sink.id
    ensures !Climbs(sink, o)
  {
  }

  lemma LoadedCanon(db0: Db, fams: seq<Fam>, o: Fam)
    requires IsLoad(db0, fams) && o in fams && o.primary != {}
    ensures HasCanon(db0, GroupOf(o), Canon(o.primary))
  {
  }

  /** Every maximal canonical set has a family that no entry of the plan moves. */
  lemma MaximalHasSink(db0: Db, fams: seq<Fam>, g: Group, tokens: set<Token>) returns (f: FamilyId)
    requires IsLoad(db0, fams) && IsMaximal(db0, g, tokens)
    ensures f in db0.families && Group(f.scope, db0.families[f].ascendancy) == g
    ensures FullPrimary(db0, f) != {} && CanonOf(db0, f) == tokens
    ensures f !in SourcesIn(PlanOf(fams))
  {
    f :| f in db0.families && Group(f.scope, db0.families[f].ascendancy) == g
         && FullPrimary(db0, f) != {} && CanonOf(db0, f) == tokens;
    var sink := ClanHasSink(fams, View(db0, f));
    PlannedFam(db0, fams, sink);
    f := sink.id;
    forall e | e in PlanOf(fams) ensures e.src != f {
      SinkStays(db0, fams, g, tokens, sink, e);
    }
  }

  lemma MaximalStaysMaximal(hash: KeyHash, db0: Db, fams: seq<Fam>, db: Db, gone: set<FamilyId>, g: Group,
                            tokens: set<Token>)
    requires IsLoad(db0, fams) && RoundInv(hash, db0, db, gone)
    requires gone <= SourcesIn(PlanOf(fams)) && IsMaximal(db0, g, tokens)
    ensures IsMaximal(db, g, tokens)
  {
    MaximalSurvives(hash, db0, fams, db, gone, g, tokens);
    forall larger | HasCanon(db, g, larger) ensures !(tokens < larger) {
      var l := CanonCovered(hash, db0, db, gone, g, larger);
      assert !(tokens < l);
    }
  }

  lemma MaximalWasMaximal(hash: KeyHash, db0: Db, fams: seq<Fam>, u: set<Token>, db: Db, gone: set<FamilyId>,
                          g: Group, tokens: set<Token>)
    requires IsLoad(db0, fams) && RoundInv(hash, db0, db, gone) && Within(db0, u)
    requires gone <= SourcesIn(PlanOf(fams)) && IsMaximal(db, g, tokens)
    ensures IsMaximal(db0, g, tokens)
  {
    var l := CanonCovered(hash, db0, db, gone, g, tokens);
    var top := BelowMaximal(db0, u, g, l);
    MaximalSurvives(hash, db0, fams, db, gone, g, top);
    NothingAbove(db, g, tokens, top);
  }

  lemma NothingAbove(db: Db, g: Group, tokens: set<Token>, top: set<Token>)
    requires IsMaximal(db, g, tokens) && HasCanon(db, g, top) && tokens <= top
    ensures tokens == top
  {
  }

  /** A round neither adds nor loses a maximal canonical set of any group. */
  lemma RoundKeepsMaximal(hash: KeyHash, db0: Db, fams: seq<Fam>, u: set<Token>, db: Db, gone: set<FamilyId>)
    requires IsLoad(db0, fams) && RoundInv(hash, db0, db, gone) && Within(db0, u)
    requires gone <= SourcesIn(PlanOf(fams))
    ensures SameMaximal(db0, db)
  {
    forall g, tokens
      ensures IsMaximal(db, g, tokens) <==> IsMaximal(db0, g, tokens)
    {
      if IsMaximal(db0, g, tokens) {
        MaximalStaysMaximal(hash, db0, fams, db, gone, g, tokens);
      }
      if IsMaximal(db, g, tokens) {
        MaximalWasMaximal(hash, db0, fams, u, db, gone, g, tokens);
      }
    }
  }

  lemma MaximalSurvives(hash: KeyHash, db0: Db, fams: seq<Fam>, db: Db, gone: set<FamilyId>, g: Group,
                        tokens: set<Token>)
    requires IsLoad(db0, fams) && RoundInv(hash, db0, db, gone)
    requires gone <= SourcesIn(PlanOf(fams)) && IsMaximal(db0, g, tokens)
    ensures HasCanon(db, g, tokens)
  {
    var f := MaximalHasSink(db0, fams, g, tokens);
    assert Continues(db0, db, f);
  }

  lemma CanonCovered(hash: KeyHash, db0: Db, db: Db, gone: set<FamilyId>, g: Group,
                     tokens: set<Token>) returns (larger: set<Token>)
    requires RoundInv(hash, db0, db, gone) && HasCanon(db, g, tokens)
    ensures HasCanon(db0, g, larger) && tokens <= larger
  {
    var f :| f in db.families && Group(f.scope, db.families[f].ascendancy) == g
             && FullPrimary(db, f) != {} && CanonOf(db, f) == tokens;
    assert Covered(db0, db, f);
    var o := f;
    if f !in db0.families {
      o :| o in db0.families && SameGroup(db0, o, db, f) && CanonOf(db, f) <= CanonOf(db0, o);
    }
    larger := CanonOf(db0, o);
  }
}
