/**
 The order of the merge plan (merge_plan_expansions): groups in the order their first family is
 listed, and the families of a group in the order they are listed.
 */
module FamilyPlanOrder {
  import opened FamilyModel
  import opened FamilyPlanner

  ghost predicate Precedes(fams: seq<Fam>, x: Fam, y: Fam) {
    exists i, j :: 0 <= i < j < |fams| && fams[i] == x && fams[j] == y
  }

  /** A family of group g is listed before any of group h. */
  ghost predicate GroupFirst(fams: seq<Fam>, g: Group, h: Group) {
    exists i :: 0 <= i < |fams| && GroupOf(fams[i]) == g && NoneUpTo(fams, i, h)
  }

  ghost predicate NoneUpTo(fams: seq<Fam>, i: nat, h: Group)
    requires i < |fams|
  {
    forall k | 0 <= k <= i :: GroupOf(fams[k]) != h
  }

  ghost predicate InTurn(fams: seq<Fam>, x: Fam, y: Fam) {
    if GroupOf(x) == GroupOf(y) then Precedes(fams, x, y) else GroupFirst(fams, GroupOf(x), GroupOf(y))
  }

  /** The entries of the plan are those of these families. */
  ghost predicate EntriesOf(plan: seq<Entry>, from: seq<Fam>, fams: seq<Fam>) {
    && |from| == |plan|
    && (forall a | 0 <= a < |plan| :: plan[a].src == from[a].id && from[a] in fams)
  }

  ghost predicate Ordered(fams: seq<Fam>, from: seq<Fam>) {
    forall a, b | 0 <= a < b < |from| :: InTurn(fams, from[a], from[b])
  }

  ghost predicate AllPrecede(fams: seq<Fam>, from: seq<Fam>) {
    forall a, b | 0 <= a < b < |from| :: Precedes(fams, from[a], from[b])
  }

  // ----- the families of a group

  lemma PrecedesGrows(fams: seq<Fam>, f: Fam, x: Fam, y: Fam)
    requires Precedes(fams, x, y) || (x in fams && y == f)
    ensures Precedes(fams + [f], x, y)
  {
    var next := fams + [f];
    if Precedes(fams, x, y) {
      var i, j :| 0 <= i < j < |fams| && fams[i] == x && fams[j] == y;
      assert next[i] == x && next[j] == y;
    } else {
      var i :| 0 <= i < |fams| && fams[i] == x;
      assert next[i] == x && next[|fams|] == y;
    }
  }

  lemma {:induction false} EntriesListed(fams: seq<Fam>, g: Group)
    ensures forall x | x in Entries(fams, g) :: x in fams && GroupOf(x) == g
    ensures AllPrecede(fams, Entries(fams, g))
  {
    if fams != [] {
      var n := |fams| - 1;
      var rest, f := Entries(fams[..n], g), fams[n];
      EntriesListed(fams[..n], g);
      assert fams == fams[..n] + [f];
      forall a, b | 0 <= a < b < |Entries(fams, g)|
        ensures Precedes(fams, Entries(fams, g)[a], Entries(fams, g)[b])
      {
        PrecedesGrows(fams[..n], f, Entries(fams, g)[a], Entries(fams, g)[b]);
      }
    }
  }

  lemma {:induction false} GroupPlanSources(entries: seq<Fam>, n: nat) returns (from: seq<Fam>)
    requires n <= |entries|
    ensures EntriesOf(GroupPlan(entries, n), from, entries[..n]) && AllPrecede(entries[..n], from)
  {
    from := [];
    if n > 0 {
      var k := n - 1;
      from := GroupPlanSources(entries, k);
      assert entries[..n] == entries[..k] + [entries[k]];
      forall a, b | 0 <= a < b < |from| ensures Precedes(entries[..n], from[a], from[b]) {
        PrecedesGrows(entries[..k], entries[k], from[a], from[b]);
      }
      forall a | 0 <= a < |from| ensures Precedes(entries[..n], from[a], entries[k]) {
        PrecedesGrows(entries[..k], entries[k], from[a], entries[k]);
      }
      if EntryFor(entries, entries[k]).Some? {
        from := from + [entries[k]];
      }
    }
  }

  lemma Transfer(fams: seq<Fam>, entries: seq<Fam>, x: Fam, y: Fam)
    requires AllPrecede(fams, entries) && Precedes(entries, x, y)
    ensures Precedes(fams, x, y)
  {
    var i, j :| 0 <= i < j < |entries| && entries[i] == x && entries[j] == y;
    assert Precedes(fams, entries[i], entries[j]);
  }

  lemma GroupSources(fams: seq<Fam>, g: Group) returns (from: seq<Fam>)
    ensures var entries := Entries(fams, g);
            && EntriesOf(GroupPlan(entries, |entries|), from, fams) && Ordered(fams, from)
            && forall x | x in from :: GroupOf(x) == g
  {
    var entries := Entries(fams, g);
    from := GroupPlanSources(entries, |entries|);
    assert entries[..|entries|] == entries;
    EntriesListed(fams, g);
    forall a, b | 0 <= a < b < |from| ensures InTurn(fams, from[a], from[b]) {
      assert Precedes(entries, from[a], from[b]);
      Transfer(fams, entries, from[a], from[b]);
    }
  }

  // ----- the groups

  lemma GroupFirstGrows(fams: seq<Fam>, f: Fam, g: Group, h: Group)
    requires GroupFirst(fams, g, h)
    ensures GroupFirst(fams + [f], g, h)
  {
    var i :| 0 <= i < |fams| && GroupOf(fams[i]) == g && NoneUpTo(fams, i, h);
    var next := fams + [f];
    assert GroupOf(next[i]) == g;
    forall k | 0 <= k <= i ensures GroupOf(next[k]) != h {
      assert next[k] == fams[k];
    }
    assert NoneUpTo(next, i, h);
  }

  lemma NewGroup(fams: seq<Fam>, f: Fam, i: nat)
    requires i < |fams| && forall k | 0 <= k < |fams| :: GroupOf(fams[k]) != GroupOf(f)
    ensures GroupFirst(fams + [f], GroupOf(fams[i]), GroupOf(f))
  {
    var next := fams + [f];
    assert GroupOf(next[i]) == GroupOf(fams[i]);
    forall k | 0 <= k <= i ensures GroupOf(next[k]) != GroupOf(f) {
      assert next[k] == fams[k];
    }
    assert NoneUpTo(next, i, GroupOf(f));
  }

  lemma {:induction false} GroupKeysListed(fams: seq<Fam>)
    ensures forall k | 0 <= k < |fams| :: GroupOf(fams[k]) in GroupKeys(fams)
    ensures forall g | g in GroupKeys(fams) :: exists i :: 0 <= i < |fams| && GroupOf(fams[i]) == g
    ensures forall p, q | 0 <= p < q < |GroupKeys(fams)| :: GroupFirst(fams, GroupKeys(fams)[p], GroupKeys(fams)[q])
  {
    if fams != [] {
      var n := |fams| - 1;
      var rest, f := fams[..n], fams[n];
      var gs := GroupKeys(rest);
      assert fams == rest + [f];
      GroupKeysListed(rest);
      forall k | 0 <= k < |fams| ensures GroupOf(fams[k]) in GroupKeys(fams) {
        assert k < n ==> fams[k] == rest[k];
      }
      forall g | g in GroupKeys(fams) ensures exists i :: 0 <= i < |fams| && GroupOf(fams[i]) == g {
        if g in gs {
          var i :| 0 <= i < |rest| && GroupOf(rest[i]) == g;
          assert GroupOf(fams[i]) == g;
        }
      }
      forall p, q | 0 <= p < q < |GroupKeys(fams)| ensures GroupFirst(fams, GroupKeys(fams)[p], GroupKeys(fams)[q]) {
        if q < |gs| {
          GroupFirstGrows(rest, f, gs[p], gs[q]);
        } else {
          assert gs[p] in gs;
          var i :| 0 <= i < |rest| && GroupOf(rest[i]) == gs[p];
          NewGroup(rest, f, i);
        }
      }
    }
  }

  ghost predicate SourcesTo(fams: seq<Fam>, n: nat, from: seq<Fam>)
    requires n <= |GroupKeys(fams)|
  {
    && EntriesOf(PlanGroups(fams, GroupKeys(fams)[..n]), from, fams) && Ordered(fams, from)
    && forall x | x in from :: GroupOf(x) in GroupKeys(fams)[..n]
  }

  lemma {:induction false} PlanSources(fams: seq<Fam>, n: nat) returns (from: seq<Fam>)
    requires n <= |GroupKeys(fams)|
    ensures SourcesTo(fams, n, from)
  {
    from := [];
    if n > 0 {
      from := PlanSources(fams, n - 1);
      var more := GroupSources(fams, GroupKeys(fams)[n - 1]);
      NextGroup(fams, n - 1, from, more);
      from := from + more;
    }
  }

  lemma NextGroup(fams: seq<Fam>, k: nat, from: seq<Fam>, more: seq<Fam>)
    requires k < |GroupKeys(fams)| && SourcesTo(fams, k, from)
    requires var entries := Entries(fams, GroupKeys(fams)[k]);
             EntriesOf(GroupPlan(entries, |entries|), more, fams) && Ordered(fams, more)
    requires forall x | x in more :: GroupOf(x) == GroupKeys(fams)[k]
    ensures SourcesTo(fams, k + 1, from + more)
  {
    var groups := GroupKeys(fams);
    forall a, b | 0 <= a < |from| && 0 <= b < |more| ensures InTurn(fams, from[a], more[b]) {
      GroupsInTurn(fams, k, from[a], more[b]);
    }
    OrderedTogether(fams, from, more);
    PlanGroupsPush(fams, groups, k);
    var entries := Entries(fams, groups[k]);
    EntriesTogether(PlanGroups(fams, groups[..k]), from, GroupPlan(entries, |entries|), more, fams);
    GroupsTogether(groups, k, from, more);
  }

  lemma EntriesTogether(plan: seq<Entry>, from: seq<Fam>, part: seq<Entry>, more: seq<Fam>, fams: seq<Fam>)
    requires EntriesOf(plan, from, fams) && EntriesOf(part, more, fams)
    ensures EntriesOf(plan + part, from + more, fams)
  {
  }

  lemma GroupsTogether(groups: seq<Group>, k: nat, from: seq<Fam>, more: seq<Fam>)
    requires k < |groups| && (forall x | x in from :: GroupOf(x) in groups[..k])
    requires forall x | x in more :: GroupOf(x) == groups[k]
    ensures forall x | x in from + more :: GroupOf(x) in groups[..k + 1]
  {
    assert groups[..k + 1] == groups[..k] + [groups[k]];
  }

  lemma PlanGroupsPush(fams: seq<Fam>, groups: seq<Group>, k: nat)
    requires k < |groups|
    ensures var entries := Entries(fams, groups[k]);
            PlanGroups(fams, groups[..k + 1]) == PlanGroups(fams, groups[..k]) + GroupPlan(entries, |entries|)
  {
    assert groups[..k + 1][..k] == groups[..k] && groups[..k + 1][k] == groups[k];
  }

  lemma GroupsInTurn(fams: seq<Fam>, k: nat, x: Fam, y: Fam)
    requires k < |GroupKeys(fams)| && GroupOf(x) in GroupKeys(fams)[..k] && GroupOf(y) == GroupKeys(fams)[k]
    ensures InTurn(fams, x, y)
  {
    var groups := GroupKeys(fams);
    GroupKeysListed(fams);
    var p :| 0 <= p < k && groups[p] == GroupOf(x);
    assert GroupFirst(fams, groups[p], groups[k]);
    var i :| 0 <= i < |fams| && GroupOf(fams[i]) == groups[p] && NoneUpTo(fams, i, groups[k]);
    assert GroupOf(x) != GroupOf(y);
  }

  lemma OrderedTogether(fams: seq<Fam>, from: seq<Fam>, more: seq<Fam>)
    requires Ordered(fams, from) && Ordered(fams, more)
    requires forall a, b | 0 <= a < |from| && 0 <= b < |more| :: InTurn(fams, from[a], more[b])
    ensures Ordered(fams, from + more)
  {
    var all := from + more;
    forall a, b | 0 <= a < b < |all| ensures InTurn(fams, all[a], all[b]) {
      if b < |from| {
        assert InTurn(fams, from[a], from[b]);
      } else if a < |from| {
        assert InTurn(fams, from[a], more[b - |from|]);
      } else {
        assert InTurn(fams, more[a - |from|], more[b - |from|]);
      }
    }
  }

  /** The plan's entries come in the order of their families: group by group as the groups are first
      listed, and within a group as the families are listed. */
  lemma PlanInOrder(fams: seq<Fam>) returns (from: seq<Fam>)
    ensures EntriesOf(PlanOf(fams), from, fams) && Ordered(fams, from)
  {
    from := PlanSources(fams, |GroupKeys(fams)|);
    assert GroupKeys(fams)[..|GroupKeys(fams)|] == GroupKeys(fams);
  }
}
