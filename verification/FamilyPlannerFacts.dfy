/**
 What a merge plan means: which pairs of families it relates, that it is empty exactly when the
 canonical sets of every group are pairwise incomparable, and that src -> dst is acyclic.
 */
module FamilyPlannerFacts {
  import opened FamilyModel
  import opened FamilyPlanner

  /** Entry e sends f to o: the smallest strict superset of f's canonical set if there is one,
      otherwise the richest family with the same canonical set, provided f is the poorer. */
  ghost predicate Explains(fams: seq<Fam>, e: Entry, f: Fam, o: Fam) {
    && f in fams && o in fams && GroupOf(f) == GroupOf(o)
    && f.primary != {} && o.primary != {}
    && e.src == f.id && e.dst == o.id
    && match e.relation
       case Expand =>
         && StrictSuperset(f, o)
         && e.dstPrimary == f.primary + o.primary
         && forall p | p in fams && GroupOf(p) == GroupOf(f) && StrictSuperset(f, p) ::
              p == o || SmallerSuperset(o, p)
       case Join =>
         && Twins(f, o) && Lower(f, o)
         && e.dstPrimary == o.primary
         && (forall p | p in fams && GroupOf(p) == GroupOf(f) :: !StrictSuperset(f, p))
         && forall p | p in fams && GroupOf(p) == GroupOf(f) && p.primary != {} && Twins(f, p) ::
              p == o || RicherTwin(o, p)
  }

  ghost predicate DistinctKeys(s: seq<Fam>) {
    forall i, j | 0 <= i < j < |s| :: s[i].id.key != s[j].id.key
  }

  lemma {:induction false} EntriesMembers(fams: seq<Fam>, g: Group)
    ensures forall f :: f in Entries(fams, g) <==> f in fams && GroupOf(f) == g && f.primary != {}
  {
    if fams != [] {
      var n := |fams| - 1;
      EntriesMembers(fams[..n], g);
      assert fams == fams[..n] + [fams[n]];
    }
  }

  lemma {:induction false} EntriesDistinct(fams: seq<Fam>, g: Group)
    requires DistinctIds(fams)
    ensures DistinctKeys(Entries(fams, g))
  {
    if fams != [] {
      var n := |fams| - 1;
      EntriesDistinct(fams[..n], g);
      EntriesMembers(fams[..n], g);
      var rest, f := Entries(fams[..n], g), fams[n];
      if GroupOf(f) == g {
        forall i | 0 <= i < |rest| ensures rest[i].id.key != f.id.key {
          assert rest[i] in fams[..n];
          assert rest[i].id != f.id;
        }
      }
    }
  }

  lemma {:induction false} SupersetsMembers(entries: seq<Fam>, f: Fam)
    ensures forall o :: o in SupersetsOf(entries, f) <==> o in entries && StrictSuperset(f, o)
    ensures DistinctKeys(entries) ==> DistinctKeys(SupersetsOf(entries, f))
  {
    if entries != [] {
      var n := |entries| - 1;
      SupersetsMembers(entries[..n], f);
      assert entries == entries[..n] + [entries[n]];
      var rest := SupersetsOf(entries[..n], f);
      if DistinctKeys(entries) {
        forall i | 0 <= i < |rest| ensures rest[i].id.key != entries[n].id.key {
          assert rest[i] in entries[..n];
        }
      }
    }
  }

  lemma {:induction false} TwinsMembers(entries: seq<Fam>, f: Fam)
    ensures forall o :: o in TwinsOf(entries, f) <==> o in entries && Twins(f, o)
    ensures DistinctKeys(entries) ==> DistinctKeys(TwinsOf(entries, f))
  {
    if entries != [] {
      var n := |entries| - 1;
      TwinsMembers(entries[..n], f);
      assert entries == entries[..n] + [entries[n]];
      var rest := TwinsOf(entries[..n], f);
      if DistinctKeys(entries) {
        forall i | 0 <= i < |rest| ensures rest[i].id.key != entries[n].id.key {
          assert rest[i] in entries[..n];
        }
      }
    }
  }

  /** The first of the sorted supersets precedes every other one. */
  lemma {:induction false} SmallestIsLeast(s: seq<Fam>)
    requires s != [] && DistinctKeys(s)
    ensures SmallestSuperset(s) in s
    ensures forall x | x in s :: x == SmallestSuperset(s) || SmallerSuperset(SmallestSuperset(s), x)
  {
    var n := |s| - 1;
    var last, least := s[n], SmallestSuperset(s);
    if n > 0 {
      var best := SmallestSuperset(s[..n]);
      SmallestIsLeast(s[..n]);
      assert s == s[..n] + [last];
      assert best.id.key != last.id.key;
      SmallerSupersetTotal(last, best);
      forall x | x in s[..n] ensures x == least || SmallerSuperset(least, x) {
        if least == last && x != best {
          SmallerSupersetTransitive(last, best, x);
        }
      }
    }
  }

  lemma {:induction false} RichestIsFirst(s: seq<Fam>)
    requires s != [] && DistinctKeys(s)
    ensures RichestTwin(s) in s
    ensures forall x | x in s :: x == RichestTwin(s) || RicherTwin(RichestTwin(s), x)
  {
    var n := |s| - 1;
    if n > 0 {
      RichestIsFirst(s[..n]);
      assert s == s[..n] + [s[n]];
      assert RichestTwin(s[..n]).id.key != s[n].id.key;
    }
  }

  lemma EntryForExplained(fams: seq<Fam>, f: Fam, e: Entry)
    requires DistinctIds(fams) && f in fams && f.primary != {}
    requires EntryFor(Entries(fams, GroupOf(f)), f) == Some(e)
    ensures exists o :: Explains(fams, e, f, o)
  {
    var g := GroupOf(f);
    var entries := Entries(fams, g);
    EntriesMembers(fams, g);
    EntriesDistinct(fams, g);
    SupersetsMembers(entries, f);
    TwinsMembers(entries, f);
    var supersets, twins := SupersetsOf(entries, f), TwinsOf(entries, f);
    forall p | p in fams && GroupOf(p) == g && StrictSuperset(f, p) ensures p in supersets {
      assert p.primary != {};
    }
    if supersets != [] {
      SmallestIsLeast(supersets);
      assert Explains(fams, e, f, SmallestSuperset(supersets));
    } else {
      RichestIsFirst(twins);
      assert Explains(fams, e, f, RichestTwin(twins));
    }
  }

  lemma ExplainedEntryFor(fams: seq<Fam>, e: Entry, f: Fam, o: Fam)
    requires DistinctIds(fams) && Explains(fams, e, f, o)
    ensures EntryFor(Entries(fams, GroupOf(f)), f) == Some(e)
  {
    var g := GroupOf(f);
    var entries := Entries(fams, g);
    EntriesMembers(fams, g);
    EntriesDistinct(fams, g);
    SupersetsMembers(entries, f);
    TwinsMembers(entries, f);
    var supersets, twins := SupersetsOf(entries, f), TwinsOf(entries, f);
    match e.relation
    case Expand =>
      assert o in supersets;
      SmallestIsLeast(supersets);
      var least := SmallestSuperset(supersets);
      if least != o {
        SmallerSupersetAsymmetric(o, least);
      }
    case Join =>
      assert o in twins;
      RichestIsFirst(twins);
  }

  lemma {:induction false} GroupPlanMembers(entries: seq<Fam>, n: nat, e: Entry)
    requires n <= |entries|
    ensures e in GroupPlan(entries, n) <==>
            exists i :: 0 <= i < n && EntryFor(entries, entries[i]) == Some(e)
  {
    if n > 0 {
      GroupPlanMembers(entries, n - 1, e);
    }
  }

  /** Some family of one of these groups, with primary keys, has this entry. */
  ghost predicate PlannedIn(fams: seq<Fam>, groups: seq<Group>, e: Entry) {
    exists f :: f in fams && f.primary != {} && GroupOf(f) in groups
                && EntryFor(Entries(fams, GroupOf(f)), f) == Some(e)
  }

  lemma OneGroupMembers(fams: seq<Fam>, g: Group, e: Entry)
    ensures var entries := Entries(fams, g);
            e in GroupPlan(entries, |entries|) <==> PlannedIn(fams, [g], e)
  {
    var entries := Entries(fams, g);
    GroupPlanMembers(entries, |entries|, e);
    EntriesMembers(fams, g);
    if i :| 0 <= i < |entries| && EntryFor(entries, entries[i]) == Some(e) {
      assert entries[i] in entries;
    }
  }

  lemma {:induction false} PlanGroupsMembers(fams: seq<Fam>, groups: seq<Group>, e: Entry)
    ensures e in PlanGroups(fams, groups) <==> PlannedIn(fams, groups, e)
  {
    if groups != [] {
      var n := |groups| - 1;
      assert groups == groups[..n] + [groups[n]];
      PlanGroupsMembers(fams, groups[..n], e);
      OneGroupMembers(fams, groups[n], e);
      assert PlannedIn(fams, groups, e) <==> PlannedIn(fams, groups[..n], e) || PlannedIn(fams, [groups[n]], e);
    }
  }

  lemma {:induction false} GroupKeysCover(fams: seq<Fam>)
    ensures forall g :: g in GroupKeys(fams) <==> exists f :: f in fams && GroupOf(f) == g
    ensures forall i, j | 0 <= i < j < |GroupKeys(fams)| :: GroupKeys(fams)[i] != GroupKeys(fams)[j]
  {
    if fams != [] {
      var n := |fams| - 1;
      GroupKeysCover(fams[..n]);
      assert fams == fams[..n] + [fams[n]];
    }
  }

  /** The plan consists of exactly the explained entries. */
  lemma PlanExact(fams: seq<Fam>)
    requires DistinctIds(fams)
    ensures forall e :: e in PlanOf(fams) <==> exists f, o :: Explains(fams, e, f, o)
  {
    GroupKeysCover(fams);
    forall e
      ensures e in PlanOf(fams) <==> exists f, o :: Explains(fams, e, f, o)
    {
      PlanGroupsMembers(fams, GroupKeys(fams), e);
      if e in PlanOf(fams) {
        var f :| f in fams && f.primary != {} && GroupOf(f) in GroupKeys(fams)
                 && EntryFor(Entries(fams, GroupOf(f)), f) == Some(e);
        EntryForExplained(fams, f, e);
      }
      if f, o :| Explains(fams, e, f, o) {
        ExplainedEntryFor(fams, e, f, o);
      }
    }
  }

  // ----- the planner's rules, written out

  function Tokens(f: Fam): set<Token> {
    set k | k in f.primary :: k.token
  }

  predicate SameClan(f: Fam, o: Fam) {
    f.id.scope == o.id.scope && f.ascendancy == o.ascendancy && f.primary != {} && o.primary != {}
  }

  /** o's tokens are more than f's, and of the families of the group with more tokens than f it has the
      fewest; of those the first in the order of sorted token lists; of those the lowest key. */
  ghost predicate ExpandsInto(fams: seq<Fam>, f: Fam, o: Fam) {
    && f in fams && o in fams && SameClan(f, o) && Tokens(f) < Tokens(o)
    && forall p | p in fams && SameClan(f, p) && Tokens(f) < Tokens(p) && p != o ::
         || |Tokens(o)| < |Tokens(p)|
         || (|Tokens(o)| == |Tokens(p)| && LexBefore(Tokens(o), Tokens(p)))
         || (Tokens(o) == Tokens(p) && o.id.key < p.id.key)
  }

  /** f has as many tokens as any family above it, o has the same ones and, but for f, the most
      evidence or on a tie the lowest key; and f has less evidence than o, or as much and a lower key. */
  ghost predicate JoinsInto(fams: seq<Fam>, f: Fam, o: Fam) {
    && f in fams && o in fams && SameClan(f, o) && f != o && Tokens(f) == Tokens(o)
    && (forall p | p in fams && SameClan(f, p) :: !(Tokens(f) < Tokens(p)))
    && (f.evidenceCount < o.evidenceCount || (f.evidenceCount == o.evidenceCount && f.id.key < o.id.key))
    && forall p | p in fams && SameClan(f, p) && Tokens(f) == Tokens(p) && p != f && p != o ::
         || p.evidenceCount < o.evidenceCount
         || (p.evidenceCount == o.evidenceCount && o.id.key < p.id.key)
  }

  lemma OtherKey(fams: seq<Fam>, f: Fam, o: Fam)
    requires DistinctIds(fams) && f in fams && o in fams && f.id.scope == o.id.scope
    ensures f == o <==> f.id.key == o.id.key
  {
  }

  lemma ExpandExplained(fams: seq<Fam>, e: Entry, f: Fam, o: Fam)
    requires DistinctIds(fams) && e.relation == Expand
    ensures Explains(fams, e, f, o)
            <==> ExpandsInto(fams, f, o) && e == Entry(f.id, o.id, Expand, f.primary + o.primary)
  {
    forall p | p in fams && f in fams && p.id.scope == f.id.scope ensures f == p <==> f.id.key == p.id.key {
      OtherKey(fams, f, p);
    }
    assert forall p :: Tokens(p) == Canon(p.primary);
    assert forall p :: Tokens(p) == {} <==> p.primary == {};
  }

  lemma JoinExplained(fams: seq<Fam>, e: Entry, f: Fam, o: Fam)
    requires DistinctIds(fams) && e.relation == Join
    ensures Explains(fams, e, f, o) <==> JoinsInto(fams, f, o) && e == Entry(f.id, o.id, Join, o.primary)
  {
    forall p | p in fams && f in fams && p.id.scope == f.id.scope ensures f == p <==> f.id.key == p.id.key {
      OtherKey(fams, f, p);
    }
    assert forall p :: Tokens(p) == Canon(p.primary);
    assert forall p :: Tokens(p) == {} <==> p.primary == {};
  }

  /** The plan consists of exactly the entries that these rules give. */
  lemma PlanWritten(fams: seq<Fam>, e: Entry)
    requires DistinctIds(fams)
    ensures e in PlanOf(fams) <==>
            exists f, o ::
              || (ExpandsInto(fams, f, o) && e == Entry(f.id, o.id, Expand, f.primary + o.primary))
              || (JoinsInto(fams, f, o) && e == Entry(f.id, o.id, Join, o.primary))
  {
    PlanExact(fams);
    forall f, o
      ensures Explains(fams, e, f, o) <==>
              || (ExpandsInto(fams, f, o) && e == Entry(f.id, o.id, Expand, f.primary + o.primary))
              || (JoinsInto(fams, f, o) && e == Entry(f.id, o.id, Join, o.primary))
    {
      match e.relation
      case Expand => ExpandExplained(fams, e, f, o);
      case Join => JoinExplained(fams, e, f, o);
    }
  }

  // ----- each source at most once

  ghost predicate DistinctSources(plan: seq<Entry>) {
    forall i, j | 0 <= i < j < |plan| :: plan[i].src != plan[j].src
  }

  ghost predicate SourceAmong(entries: seq<Fam>, n: nat, e: Entry)
    requires n <= |entries|
  {
    exists i :: 0 <= i < n && entries[i].id == e.src
  }

  ghost predicate SourceOf(fams: seq<Fam>, groups: seq<Group>, e: Entry) {
    exists f :: f in fams && f.id == e.src && GroupOf(f) in groups
  }

  lemma {:induction false} GroupPlanSources(entries: seq<Fam>, n: nat)
    requires n <= |entries| && DistinctKeys(entries)
    ensures DistinctSources(GroupPlan(entries, n))
    ensures forall e | e in GroupPlan(entries, n) :: SourceAmong(entries, n, e)
  {
    if n > 0 {
      GroupPlanSources(entries, n - 1);
      var front, next := GroupPlan(entries, n - 1), EntryFor(entries, entries[n - 1]);
      forall e | e in front ensures SourceAmong(entries, n, e) && e.src != entries[n - 1].id {
        assert SourceAmong(entries, n - 1, e);
      }
      if next.Some? {
        assert next.value.src == entries[n - 1].id && SourceAmong(entries, n, next.value);
        SourcesJoin(front, [next.value]);
      }
    }
  }

  lemma SourcesJoin(a: seq<Entry>, b: seq<Entry>)
    requires DistinctSources(a) && DistinctSources(b)
    requires forall x, y | x in a && y in b :: x.src != y.src
    ensures DistinctSources(a + b)
  {
  }

  lemma {:induction false} PlanGroupsSources(fams: seq<Fam>, groups: seq<Group>)
    requires DistinctIds(fams)
    requires forall i, j | 0 <= i < j < |groups| :: groups[i] != groups[j]
    ensures DistinctSources(PlanGroups(fams, groups))
    ensures forall e | e in PlanGroups(fams, groups) :: SourceOf(fams, groups, e)
  {
    if groups != [] {
      var n := |groups| - 1;
      var g := groups[n];
      assert groups == groups[..n] + [g];
      PlanGroupsSources(fams, groups[..n]);
      var front, back := PlanGroups(fams, groups[..n]), GroupPlan(Entries(fams, g), |Entries(fams, g)|);
      GroupSources(fams, g);
      forall x, y | x in front && y in back ensures x.src != y.src {
        assert SourceOf(fams, groups[..n], x) && SourceOf(fams, [g], y);
      }
      SourcesJoin(front, back);
      forall e | e in front + back ensures SourceOf(fams, groups, e) {
        assert SourceOf(fams, groups[..n], e) || SourceOf(fams, [g], e);
      }
    }
  }

  lemma GroupSources(fams: seq<Fam>, g: Group)
    requires DistinctIds(fams)
    ensures var entries := Entries(fams, g);
            && DistinctSources(GroupPlan(entries, |entries|))
            && forall e | e in GroupPlan(entries, |entries|) :: SourceOf(fams, [g], e)
  {
    var entries := Entries(fams, g);
    EntriesDistinct(fams, g);
    EntriesMembers(fams, g);
    GroupPlanSources(entries, |entries|);
    forall e | e in GroupPlan(entries, |entries|) ensures SourceOf(fams, [g], e) {
      assert SourceAmong(entries, |entries|, e);
      var i :| 0 <= i < |entries| && entries[i].id == e.src;
      assert entries[i] in entries;
    }
  }

  /** No family is the source of two entries of one plan. */
  lemma PlanSourcesDistinct(fams: seq<Fam>)
    requires DistinctIds(fams)
    ensures DistinctSources(PlanOf(fams))
  {
    GroupKeysCover(fams);
    PlanGroupsSources(fams, GroupKeys(fams));
  }

  // ----- empty plan <==> pairwise incomparable

  ghost predicate Comparable(f: Fam, o: Fam) {
    && f.id != o.id && GroupOf(f) == GroupOf(o)
    && f.primary != {} && o.primary != {}
    && Canon(f.primary) <= Canon(o.primary)
  }

  ghost predicate PairwiseIncomparable(fams: seq<Fam>) {
    forall f, o | f in fams && o in fams :: !Comparable(f, o)
  }

  lemma SupersetGivesEntry(fams: seq<Fam>, f: Fam, o: Fam)
    requires DistinctIds(fams) && f in fams && o in fams && f.primary != {}
    requires GroupOf(f) == GroupOf(o) && StrictSuperset(f, o)
    ensures PlanOf(fams) != []
  {
    var entries := Entries(fams, GroupOf(f));
    EntriesMembers(fams, GroupOf(f));
    SupersetsMembers(entries, f);
    assert o in SupersetsOf(entries, f);
    var e := EntryFor(entries, f).value;
    EntryForExplained(fams, f, e);
    PlanExact(fams);
    assert e in PlanOf(fams);
  }

  /** The poorest twin (least evidence, then least key) always joins somebody. */
  lemma {:induction false} PoorestTwin(s: seq<Fam>) returns (f: Fam)
    requires s != [] && DistinctKeys(s)
    ensures f in s && forall x | x in s :: x == f || Lower(f, x)
  {
    var n := |s| - 1;
    f := s[n];
    if n > 0 {
      var g := PoorestTwin(s[..n]);
      assert s == s[..n] + [s[n]];
      assert g.id.key != s[n].id.key;
      if Lower(g, f) { f := g; }
    }
  }

  lemma TwinGivesEntry(fams: seq<Fam>, a: Fam, b: Fam)
    requires DistinctIds(fams) && a in fams && b in fams && a.primary != {} && b.primary != {}
    requires GroupOf(a) == GroupOf(b) && Twins(a, b)
    ensures PlanOf(fams) != []
  {
    var entries := Entries(fams, GroupOf(a));
    EntriesMembers(fams, GroupOf(a));
    EntriesDistinct(fams, GroupOf(a));
    TwinsMembers(entries, a);
    var clan := TwinsOf(entries, a) + [a];
    assert DistinctKeys(clan) by {
      forall i | 0 <= i < |clan| - 1 ensures clan[i].id.key != a.id.key {
        assert clan[i] == TwinsOf(entries, a)[i];
        assert clan[i] in TwinsOf(entries, a);
      }
    }
    var f := PoorestTwin(clan);
    var partner := if f == a then b else a;
    assert b in TwinsOf(entries, a);
    assert f in fams && GroupOf(f) == GroupOf(a) && Twins(f, partner);
    SupersetsMembers(entries, f);
    if SupersetsOf(entries, f) != [] {
      var o := SupersetsOf(entries, f)[0];
      assert o in SupersetsOf(entries, f);
      SupersetGivesEntry(fams, f, o);
    } else {
      TwinsMembers(entries, f);
      assert partner in entries && partner in TwinsOf(entries, f);
      RichestIsFirst(TwinsOf(entries, f));
      var t := RichestTwin(TwinsOf(entries, f));
      assert t in clan;
      assert Lower(f, t);
      var e := EntryFor(entries, f).value;
      EntryForExplained(fams, f, e);
      PlanExact(fams);
      assert e in PlanOf(fams);
    }
  }

  /** merge_plan_expansions proposes nothing exactly when no two families of a group (among those
      with primary keys) have comparable canonical sets. */
  lemma EmptyPlanIffIncomparable(fams: seq<Fam>)
    requires DistinctIds(fams)
    ensures PlanOf(fams) == [] <==> PairwiseIncomparable(fams)
  {
    if PlanOf(fams) != [] {
      PlanExact(fams);
      var e := PlanOf(fams)[0];
      assert e in PlanOf(fams);
      var f, o :| Explains(fams, e, f, o);
      assert Comparable(f, o);
    }
    if !PairwiseIncomparable(fams) {
      var f, o :| f in fams && o in fams && Comparable(f, o);
      assert f.id.key != o.id.key;
      if Canon(f.primary) == Canon(o.primary) {
        TwinGivesEntry(fams, f, o);
      } else {
        SupersetGivesEntry(fams, f, o);
      }
    }
  }

  // ----- acyclicity

  /** Where a family stands in the order every entry climbs. */
  ghost predicate Climbs(f: Fam, o: Fam) {
    || Canon(f.primary) < Canon(o.primary)
    || (Canon(f.primary) == Canon(o.primary) && Lower(f, o))
  }

  ghost predicate Chain(plan: seq<Entry>, path: seq<Entry>) {
    && path != []
    && (forall i | 0 <= i < |path| :: path[i] in plan)
    && forall i | 0 <= i < |path| - 1 :: path[i].dst == path[i + 1].src
  }

  lemma SameId(fams: seq<Fam>, f: Fam, o: Fam)
    requires DistinctIds(fams) && f in fams && o in fams
    ensures f.id == o.id ==> f == o
  {
  }

  lemma {:induction false} ChainClimbs(fams: seq<Fam>, path: seq<Entry>) returns (f: Fam, o: Fam)
    requires DistinctIds(fams) && Chain(PlanOf(fams), path)
    ensures f in fams && o in fams && Climbs(f, o)
    ensures f.id == path[0].src && o.id == path[|path| - 1].dst
    decreases |path|
  {
    PlanExact(fams);
    var n := |path| - 1;
    assert path[n] in PlanOf(fams);
    var f1, o1 :| Explains(fams, path[n], f1, o1);
    f, o := f1, o1;
    if n > 0 {
      assert path[n - 1].dst == path[n].src;
      var f0, o0 := ChainClimbs(fams, path[..n]);
      SameId(fams, o0, f1);
      f := f0;
    }
  }

  /** Following src -> dst entries of one plan never returns to where it started. */
  lemma PlanAcyclic(fams: seq<Fam>, path: seq<Entry>)
    requires DistinctIds(fams) && Chain(PlanOf(fams), path)
    ensures path[|path| - 1].dst != path[0].src
  {
    var f, o := ChainClimbs(fams, path);
    SameId(fams, f, o);
  }
}
