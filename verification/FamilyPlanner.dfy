/**
 The merge planner (merge_plan_expansions): which family joins or expands into which, per
 (scope, ascendancy) group, from containment of canonical primary-skill sets.
 */
module FamilyPlanner {
  import opened FamilyModel

  // ----- specification functions, in the order the planner enumerates

  /** The group keys in order of first appearance. */
  function GroupKeys(fams: seq<Fam>): seq<Group> {
    if fams == [] then [] else
      var gs, g := GroupKeys(fams[..|fams| - 1]), GroupOf(fams[|fams| - 1]);
      if g in gs then gs else gs + [g]
  }

  function Entries(fams: seq<Fam>, g: Group): seq<Fam> {
    if fams == [] then [] else
      var rest, f := Entries(fams[..|fams| - 1], g), fams[|fams| - 1];
      if GroupOf(f) == g && f.primary != {} then rest + [f] else rest
  }

  predicate StrictSuperset(f: Fam, o: Fam) {
    o.id.key != f.id.key && Canon(f.primary) < Canon(o.primary)
  }

  predicate Twins(f: Fam, o: Fam) {
    o.id.key != f.id.key && Canon(o.primary) == Canon(f.primary)
  }

  function SupersetsOf(entries: seq<Fam>, f: Fam): seq<Fam> {
    if entries == [] then [] else
      var rest, o := SupersetsOf(entries[..|entries| - 1], f), entries[|entries| - 1];
      if StrictSuperset(f, o) then rest + [o] else rest
  }

  function TwinsOf(entries: seq<Fam>, f: Fam): seq<Fam> {
    if entries == [] then [] else
      var rest, o := TwinsOf(entries[..|entries| - 1], f), entries[|entries| - 1];
      if Twins(f, o) then rest + [o] else rest
  }

  function SmallestSuperset(s: seq<Fam>): Fam
    requires s != []
  {
    var last := s[|s| - 1];
    if |s| == 1 then last else
      var best := SmallestSuperset(s[..|s| - 1]);
      if SmallerSuperset(last, best) then last else best
  }

  function RichestTwin(s: seq<Fam>): Fam
    requires s != []
  {
    var last := s[|s| - 1];
    if |s| == 1 then last else
      var best := RichestTwin(s[..|s| - 1]);
      if RicherTwin(last, best) then last else best
  }

  /** fam joins target only when it is the poorer of the two. */
  predicate Lower(f: Fam, o: Fam) {
    || f.evidenceCount < o.evidenceCount
    || (f.evidenceCount == o.evidenceCount && f.id.key < o.id.key)
  }

  function EntryFor(entries: seq<Fam>, f: Fam): Option<Entry> {
    var supersets, twins := SupersetsOf(entries, f), TwinsOf(entries, f);
    if supersets != [] then
      var o := SmallestSuperset(supersets);
      Some(Entry(f.id, o.id, Expand, f.primary + o.primary))
    else if twins != [] && Lower(f, RichestTwin(twins)) then
      var o := RichestTwin(twins);
      Some(Entry(f.id, o.id, Join, o.primary))
    else
      None
  }

  function GroupPlan(entries: seq<Fam>, n: nat): seq<Entry>
    requires n <= |entries|
  {
    if n == 0 then [] else
      var rest, e := GroupPlan(entries, n - 1), EntryFor(entries, entries[n - 1]);
      if e.Some? then rest + [e.value] else rest
  }

  function PlanGroups(fams: seq<Fam>, groups: seq<Group>): seq<Entry> {
    if groups == [] then [] else
      var entries := Entries(fams, groups[|groups| - 1]);
      PlanGroups(fams, groups[..|groups| - 1]) + GroupPlan(entries, |entries|)
  }

  function PlanOf(fams: seq<Fam>): seq<Entry> {
    PlanGroups(fams, GroupKeys(fams))
  }

  // ----- the planner itself

  ghost predicate Grouped(groups: seq<Group>, byGroup: map<Group, seq<Fam>>, fams: seq<Fam>) {
    && groups == GroupKeys(fams)
    && (forall g :: g in groups <==> g in byGroup)
    && forall g :: MembersOf(fams, g) == if g in byGroup then byGroup[g] else []
  }

  method GroupFamilies(fams: seq<Fam>) returns (groups: seq<Group>, byGroup: map<Group, seq<Fam>>)
    ensures Grouped(groups, byGroup, fams)
  {
    groups, byGroup := [], map[];
    for i := 0 to |fams|
      invariant Grouped(groups, byGroup, fams[..i])
    {
      assert fams[..i + 1][..i] == fams[..i];
      var g := GroupOf(fams[i]);
      if g !in byGroup {
        groups := groups + [g];
        byGroup := byGroup[g := []];
      }
      byGroup := byGroup[g := byGroup[g] + [fams[i]]];
    }
    assert fams[..|fams|] == fams;
  }

  method MergePlanExpansions(fams: seq<Fam>) returns (plan: seq<Entry>)
    ensures plan == PlanOf(fams)
  {
    var groups, byGroup := GroupFamilies(fams);
    plan := [];
    for i := 0 to |groups|
      invariant plan == PlanGroups(fams, groups[..i])
    {
      assert groups[..i + 1][..i] == groups[..i];
      assert groups[i] in groups;
      var entries := WithPrimary(byGroup[groups[i]]);
      EntriesAreMembers(fams, groups[i]);
      var part := PlanGroup(entries);
      plan := plan + part;
    }
    assert groups[..|groups|] == groups;
  }

  function MembersOf(fams: seq<Fam>, g: Group): seq<Fam> {
    if fams == [] then [] else
      var rest, f := MembersOf(fams[..|fams| - 1], g), fams[|fams| - 1];
      if GroupOf(f) == g then rest + [f] else rest
  }

  function NonEmpty(fams: seq<Fam>): seq<Fam> {
    if fams == [] then [] else
      var rest, f := NonEmpty(fams[..|fams| - 1]), fams[|fams| - 1];
      if f.primary != {} then rest + [f] else rest
  }

  lemma {:induction false} EntriesAreMembers(fams: seq<Fam>, g: Group)
    ensures NonEmpty(MembersOf(fams, g)) == Entries(fams, g)
  {
    if fams != [] {
      var rest, f := fams[..|fams| - 1], fams[|fams| - 1];
      EntriesAreMembers(rest, g);
      if GroupOf(f) == g {
        assert (MembersOf(rest, g) + [f])[..|MembersOf(rest, g)|] == MembersOf(rest, g);
      }
    }
  }

  method WithPrimary(group: seq<Fam>) returns (entries: seq<Fam>)
    ensures entries == NonEmpty(group)
  {
    entries := [];
    for i := 0 to |group|
      invariant entries == NonEmpty(group[..i])
    {
      assert group[..i + 1][..i] == group[..i];
      if group[i].primary != {} {
        entries := entries + [group[i]];
      }
    }
    assert group[..|group|] == group;
  }

  method PlanGroup(entries: seq<Fam>) returns (plan: seq<Entry>)
    ensures plan == GroupPlan(entries, |entries|)
  {
    plan := [];
    for i := 0 to |entries|
      invariant plan == GroupPlan(entries, i)
    {
      var fam := entries[i];
      var supersets := CollectSupersets(entries, fam);
      if supersets != [] {
        // strict subset -> expand into the smallest strict superset
        var other := SortedFirstSuperset(supersets);
        plan := plan + [Entry(fam.id, other.id, Expand, fam.primary + other.primary)];
        continue;
      }
      // identical canonical set -> the poorer family joins the richest
      var twins := CollectTwins(entries, fam);
      if twins != [] {
        var target := SortedFirstTwin(twins);
        if Lower(fam, target) {
          plan := plan + [Entry(fam.id, target.id, Join, target.primary)];
        }
      }
    }
  }

  method CollectSupersets(entries: seq<Fam>, f: Fam) returns (s: seq<Fam>)
    ensures s == SupersetsOf(entries, f)
  {
    s := [];
    for i := 0 to |entries|
      invariant s == SupersetsOf(entries[..i], f)
    {
      assert entries[..i + 1][..i] == entries[..i];
      if StrictSuperset(f, entries[i]) {
        s := s + [entries[i]];
      }
    }
    assert entries[..|entries|] == entries;
  }

  method CollectTwins(entries: seq<Fam>, f: Fam) returns (s: seq<Fam>)
    ensures s == TwinsOf(entries, f)
  {
    s := [];
    for i := 0 to |entries|
      invariant s == TwinsOf(entries[..i], f)
    {
      assert entries[..i + 1][..i] == entries[..i];
      if Twins(f, entries[i]) {
        s := s + [entries[i]];
      }
    }
    assert entries[..|entries|] == entries;
  }

  method SortedFirstSuperset(s: seq<Fam>) returns (best: Fam)
    requires s != []
    ensures best == SmallestSuperset(s)
  {
    best := s[0];
    for i := 1 to |s|
      invariant best == SmallestSuperset(s[..i])
    {
      assert s[..i + 1][..i] == s[..i];
      if SmallerSuperset(s[i], best) {
        best := s[i];
      }
    }
    assert s[..|s|] == s;
  }

  method SortedFirstTwin(s: seq<Fam>) returns (best: Fam)
    requires s != []
    ensures best == RichestTwin(s)
  {
    best := s[0];
    for i := 1 to |s|
      invariant best == RichestTwin(s[..i])
    {
      assert s[..i + 1][..i] == s[..i];
      if RicherTwin(s[i], best) {
        best := s[i];
      }
    }
    assert s[..|s|] == s;
  }
}
