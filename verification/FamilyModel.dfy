/**
 The Research Memory tables that the build-family consolidation works on
 (scripts/merge_build_families.py), and the order in which its planner ranks families.
 */
module FamilyModel {

  datatype Option<+T> = None | Some(value: T)

  /** A canonical token, by its place in the alphabetical order of tokens. */
  datatype Token = Token(rank: int)

  /** A skill key together with the canonical token that gem and model-confirmed equivalence
      give it.  The token is a function of the key, so a canonical set is an image of a key set. */
  datatype SkillKey = SkillKey(name: string, token: Token)

  datatype FamilyId = FamilyId(scope: string, key: int)

  /** One row of research_build_families with its (cascading) family evidence rows. */
  datatype FamilyRow = FamilyRow(
    ascendancy: string, primary: set<SkillKey>, evidenceCount: int, sources: set<string>)

  /** The two columns of a deep research record that consolidation reads: the mounting family
      and the skill keys the record itself declares as primary damage. */
  datatype Record = Record(owner: Option<FamilyId>, primary: set<SkillKey>)

  datatype Db = Db(families: map<FamilyId, FamilyRow>, records: map<string, Record>)

  /** A family as loaded for planning: stored keys enriched with its records' keys. */
  datatype Fam = Fam(id: FamilyId, ascendancy: string, primary: set<SkillKey>, evidenceCount: int)

  datatype Relation = Join | Expand

  datatype Entry = Entry(src: FamilyId, dst: FamilyId, relation: Relation, dstPrimary: set<SkillKey>)

  function Canon(keys: set<SkillKey>): (tokens: set<Token>)
    ensures keys == {} <==> tokens == {}
  {
    var tokens := set k | k in keys :: k.token;
    assert forall k | k in keys :: k.token in tokens;
    tokens
  }

  lemma CanonUnion(a: set<SkillKey>, b: set<SkillKey>)
    ensures Canon(a + b) == Canon(a) + Canon(b)
  {
  }

  lemma CanonMonotone(a: set<SkillKey>, b: set<SkillKey>)
    requires a <= b
    ensures Canon(a) <= Canon(b)
  {
  }

  function RecordKeys(db: Db, f: FamilyId): set<SkillKey> {
    set r, k | r in db.records && db.records[r].owner == Some(f) && k in db.records[r].primary :: k
  }

  function FullPrimary(db: Db, f: FamilyId): set<SkillKey>
    requires f in db.families
  {
    db.families[f].primary + RecordKeys(db, f)
  }

  function CanonOf(db: Db, f: FamilyId): set<Token>
    requires f in db.families
  {
    Canon(FullPrimary(db, f))
  }

  function View(db: Db, f: FamilyId): Fam
    requires f in db.families
  {
    Fam(f, db.families[f].ascendancy, FullPrimary(db, f), db.families[f].evidenceCount)
  }

  /** fams lists every stored family exactly once, in some order, as currently enriched. */
  ghost predicate IsLoad(db: Db, fams: seq<Fam>) {
    && (forall i | 0 <= i < |fams| :: fams[i].id in db.families && fams[i] == View(db, fams[i].id))
    && (forall f | f in db.families :: View(db, f) in fams)
    && DistinctIds(fams)
  }

  ghost predicate DistinctIds(fams: seq<Fam>) {
    forall i, j | 0 <= i < j < |fams| :: fams[i].id != fams[j].id
  }

  datatype Group = Group(scope: string, ascendancy: string)

  function GroupOf(f: Fam): Group {
    Group(f.id.scope, f.ascendancy)
  }

  // ----- the planner's two sort orders

  predicate Below(a: Token, b: Token) {
    a.rank < b.rank
  }

  /** The sorted lists of a and b first differ at an element of a: for sets of equal size this is
      the lexicographic order of the sorted lists (see LexBeforeIsListOrder). */
  predicate LexBefore(a: set<Token>, b: set<Token>) {
    exists t | t in a :: t !in b && forall u | u in a + b :: Below(u, t) ==> (u in a <==> u in b)
  }

  lemma {:induction false} LeastBelow(s: set<Token>, w: Token) returns (m: Token)
    requires w in s
    ensures m in s
    ensures forall x | x in s :: !Below(x, m)
  {
    m := w;
    if x :| x in s && Below(x, w) {
      var n := LeastBelow(s - {w}, x);
      forall y | y in s ensures !Below(y, n) {
        if y != w { assert y in s - {w}; }
      }
      m := n;
    }
  }

  lemma Differing(a: set<Token>, b: set<Token>) returns (w: Token)
    requires a != b
    ensures w in (a - b) + (b - a)
  {
    if a <= b {
      w :| w in b && w !in a;
    } else {
      w :| w in a && w !in b;
    }
  }

  lemma LexTotal(a: set<Token>, b: set<Token>)
    requires |a| == |b| && a != b
    ensures LexBefore(a, b) || LexBefore(b, a)
  {
    var d := (a - b) + (b - a);
    var w := Differing(a, b);
    var m := LeastBelow(d, w);
    if m in a {
      forall u | u in a + b && Below(u, m) ensures u in a <==> u in b { assert u !in d; }
    } else {
      forall u | u in b + a && Below(u, m) ensures u in b <==> u in a { assert u !in d; }
    }
  }

  predicate ListBefore(a: seq<Token>, b: seq<Token>) {
    if a == [] || b == [] then a == [] && b != []
    else if a[0] != b[0] then Below(a[0], b[0])
    else ListBefore(a[1..], b[1..])
  }

  ghost predicate Increasing(s: seq<Token>) {
    forall i, j | 0 <= i < j < |s| :: Below(s[i], s[j])
  }

  function Elements(s: seq<Token>): set<Token> {
    set x | x in s
  }

  lemma ElementsSplit(s: seq<Token>)
    requires Increasing(s) && s != []
    ensures Elements(s) == {s[0]} + Elements(s[1..])
    ensures forall u | u in Elements(s[1..]) :: Below(s[0], u)
    ensures Increasing(s[1..])
  {
  }

  lemma LexCommonHead(h: Token, a: set<Token>, b: set<Token>)
    requires forall u | u in a + b :: Below(h, u)
    ensures LexBefore({h} + a, {h} + b) <==> LexBefore(a, b)
  {
  }

  lemma LexDifferentHead(g: Token, a: set<Token>, h: Token, b: set<Token>)
    requires Below(g, h)
    requires (forall u | u in a :: Below(g, u)) && (forall u | u in b :: Below(h, u))
    ensures LexBefore({g} + a, {h} + b)
    ensures !LexBefore({h} + b, {g} + a)
  {
  }

  /** LexBefore on sets of equal size is Python's order on their sorted lists. */
  lemma {:induction false} LexBeforeIsListOrder(a: seq<Token>, b: seq<Token>)
    requires Increasing(a) && Increasing(b) && |a| == |b|
    ensures LexBefore(Elements(a), Elements(b)) <==> ListBefore(a, b)
    decreases |a|
  {
    if a != [] {
      ElementsSplit(a);
      ElementsSplit(b);
      if a[0] == b[0] {
        LexCommonHead(a[0], Elements(a[1..]), Elements(b[1..]));
        LexBeforeIsListOrder(a[1..], b[1..]);
      } else if Below(a[0], b[0]) {
        LexDifferentHead(a[0], Elements(a[1..]), b[0], Elements(b[1..]));
      } else {
        LexDifferentHead(b[0], Elements(b[1..]), a[0], Elements(a[1..]));
      }
    }
  }

  /** Order of the strict supersets of a family: size, then sorted tokens, then key. */
  predicate SmallerSuperset(x: Fam, y: Fam) {
    var cx, cy := Canon(x.primary), Canon(y.primary);
    || |cx| < |cy|
    || (|cx| == |cy| && (LexBefore(cx, cy) || (cx == cy && x.id.key < y.id.key)))
  }

  /** Order of the families with an identical canonical set: more evidence first, then key. */
  predicate RicherTwin(x: Fam, y: Fam) {
    || x.evidenceCount > y.evidenceCount
    || (x.evidenceCount == y.evidenceCount && x.id.key < y.id.key)
  }

  lemma SmallerSupersetTransitive(x: Fam, y: Fam, z: Fam)
    requires SmallerSuperset(x, y) && SmallerSuperset(y, z)
    ensures SmallerSuperset(x, z)
  {
  }

  lemma SmallerSupersetTotal(x: Fam, y: Fam)
    requires x.id.key != y.id.key
    ensures SmallerSuperset(x, y) || SmallerSuperset(y, x)
  {
    var cx, cy := Canon(x.primary), Canon(y.primary);
    if |cx| == |cy| && cx != cy {
      LexTotal(cx, cy);
    }
  }

  lemma SmallerSupersetAsymmetric(x: Fam, y: Fam)
    requires SmallerSuperset(x, y)
    ensures !SmallerSuperset(y, x)
  {
  }
}
