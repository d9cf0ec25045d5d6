/**
 The stratified sampler (sample_rows in scripts/run_judge_ninja_samples.py): rows are bucketed by
 ascendancy, each bucket is sorted by level, a minimum is taken from every bucket, and the rest is
 dealt out in rounds.
 */
module SampleRows {

  /** A string, by its place in string order. */
  datatype Text = Text(rank: nat)

  datatype Row = Row(account: Text, name: Text, ascendancy: Text, level: int)
  datatype RowKey = RowKey(account: Text, name: Text)

  function KeyOf(r: Row): RowKey {
    RowKey(r.account, r.name)
  }

  /** No two rows are the same character. */
  ghost predicate UniqueKeys(rows: seq<Row>) {
    forall i, j | 0 <= i < j < |rows| :: KeyOf(rows[i]) != KeyOf(rows[j])
  }

  ghost predicate Distinct(rows: seq<Row>) {
    forall i, j | 0 <= i < j < |rows| :: rows[i] != rows[j]
  }

  /** Higher levels first, then by name. */
  predicate InOrder(a: Row, b: Row) {
    a.level > b.level || (a.level == b.level && a.name.rank <= b.name.rank)
  }

  ghost predicate Sorted(s: seq<Row>) {
    forall i, j | 0 <= i < j < |s| :: InOrder(s[i], s[j])
  }

  /** A stable insertion: behind every row it may follow. */
  function Insert(s: seq<Row>, r: Row): (t: seq<Row>)
    ensures |t| == |s| + 1 && multiset(t) == multiset(s) + multiset{r}
  {
    if s == [] || InOrder(s[|s| - 1], r) then s + [r]
    else
      assert s == s[..|s| - 1] + [s[|s| - 1]];
      Insert(s[..|s| - 1], r) + [s[|s| - 1]]
  }

  function Sort(s: seq<Row>): (t: seq<Row>)
    ensures |t| == |s| && multiset(t) == multiset(s)
  {
    if s == [] then []
    else
      assert s == s[..|s| - 1] + [s[|s| - 1]];
      Insert(Sort(s[..|s| - 1]), s[|s| - 1])
  }

  lemma {:induction false} InsertSorts(s: seq<Row>, r: Row)
    requires Sorted(s)
    ensures Sorted(Insert(s, r))
  {
    if s != [] && !InOrder(s[|s| - 1], r) {
      var k := |s| - 1;
      InsertSorts(s[..k], r);
      var t := Insert(s[..k], r);
      forall i | 0 <= i < |t| ensures InOrder(t[i], s[k]) {
        InsertMember(s[..k], r, t[i]);
        OthersInOrder(s, r, t[i]);
      }
      SortedPush(t, s[k]);
    }
  }

  lemma {:induction false} InsertMember(s: seq<Row>, r: Row, x: Row)
    requires x in Insert(s, r)
    ensures x in s || x == r
  {
    if s != [] && !InOrder(s[|s| - 1], r) && x != s[|s| - 1] {
      InsertMember(s[..|s| - 1], r, x);
    }
  }

  lemma OthersInOrder(s: seq<Row>, r: Row, x: Row)
    requires Sorted(s) && s != [] && !InOrder(s[|s| - 1], r)
    requires x in s[..|s| - 1] || x == r
    ensures InOrder(x, s[|s| - 1])
  {
  }

  lemma SortedPush(t: seq<Row>, last: Row)
    requires Sorted(t) && forall i | 0 <= i < |t| :: InOrder(t[i], last)
    ensures Sorted(t + [last])
  {
  }

  lemma {:induction false} SortSorts(s: seq<Row>)
    ensures Sorted(Sort(s))
  {
    if s != [] {
      SortSorts(s[..|s| - 1]);
      InsertSorts(Sort(s[..|s| - 1]), s[|s| - 1]);
    }
  }

  ghost predicate Precedes(rows: seq<Row>, x: Row, y: Row) {
    exists i, j :: 0 <= i < j < |rows| && rows[i] == x && rows[j] == y
  }

  /** Of a higher level, or of the same and an earlier name, or the same in both and listed first. */
  ghost predicate Ahead(rows: seq<Row>, x: Row, y: Row) {
    || x.level > y.level
    || (x.level == y.level && x.name.rank < y.name.rank)
    || (x.level == y.level && x.name.rank == y.name.rank && Precedes(rows, x, y))
  }

  ghost predicate AllAhead(rows: seq<Row>, s: seq<Row>) {
    forall i, j | 0 <= i < j < |s| :: Ahead(rows, s[i], s[j])
  }

  lemma AheadGrows(rows: seq<Row>, r: Row, x: Row, y: Row)
    requires Ahead(rows, x, y)
    ensures Ahead(rows + [r], x, y)
  {
    if Precedes(rows, x, y) {
      var i, j :| 0 <= i < j < |rows| && rows[i] == x && rows[j] == y;
      assert (rows + [r])[i] == x && (rows + [r])[j] == y;
    }
  }

  lemma LastIsBehind(rows: seq<Row>, r: Row, x: Row)
    requires x in rows && InOrder(x, r)
    ensures Ahead(rows + [r], x, r)
  {
    var i :| 0 <= i < |rows| && rows[i] == x;
    assert (rows + [r])[i] == x && (rows + [r])[|rows|] == r;
  }

  /** The sort is stable. */
  lemma {:induction false} SortStable(s: seq<Row>)
    ensures AllAhead(s, Sort(s))
  {
    if s != [] {
      var k := |s| - 1;
      var before := Sort(s[..k]);
      SortStable(s[..k]);
      SortSorts(s[..k]);
      assert s == s[..k] + [s[k]];
      forall i, j | 0 <= i < j < |before| ensures Ahead(s, before[i], before[j]) {
        AheadGrows(s[..k], s[k], before[i], before[j]);
      }
      forall x | x in before ensures x in s[..k] {
        assert x in multiset(before);
      }
      InsertAhead(s[..k], before, s[k]);
    }
  }

  lemma {:induction false} InsertAhead(rows: seq<Row>, s: seq<Row>, r: Row)
    requires Sorted(s) && AllAhead(rows + [r], s) && forall x | x in s :: x in rows
    ensures AllAhead(rows + [r], Insert(s, r))
  {
    if s == [] || InOrder(s[|s| - 1], r) {
      forall i | 0 <= i < |s| ensures Ahead(rows + [r], s[i], r) {
        LastIsBehind(rows, r, s[i]);
      }
      AheadPush(rows + [r], s, r);
    } else {
      var k := |s| - 1;
      InsertAhead(rows, s[..k], r);
      var t := Insert(s[..k], r);
      forall i | 0 <= i < |t| ensures Ahead(rows + [r], t[i], s[k]) {
        InsertMember(s[..k], r, t[i]);
      }
      AheadPush(rows + [r], t, s[k]);
    }
  }

  lemma AheadPush(rows: seq<Row>, t: seq<Row>, last: Row)
    requires AllAhead(rows, t) && forall i | 0 <= i < |t| :: Ahead(rows, t[i], last)
    ensures AllAhead(rows, t + [last])
  {
  }

  /** The rows of one ascendancy, in their order. */
  function Bucket(rows: seq<Row>, a: Text): (b: seq<Row>)
    ensures forall r | r in b :: r in rows && r.ascendancy == a
  {
    if rows == [] then []
    else
      var last := rows[|rows| - 1];
      if last.ascendancy == a then Bucket(rows[..|rows| - 1], a) + [last] else Bucket(rows[..|rows| - 1], a)
  }

  lemma BucketPush(rows: seq<Row>, r: Row, a: Text)
    ensures Bucket(rows + [r], a) == if r.ascendancy == a then Bucket(rows, a) + [r] else Bucket(rows, a)
  {
  }

  lemma {:induction false} BucketCounts(rows: seq<Row>, r: Row)
    ensures multiset(Bucket(rows, r.ascendancy))[r] == multiset(rows)[r]
  {
    if rows != [] {
      assert rows == rows[..|rows| - 1] + [rows[|rows| - 1]];
      BucketCounts(rows[..|rows| - 1], r);
    }
  }

  /** The bucket as it is sampled from. */
  function Ranked(rows: seq<Row>, a: Text): seq<Row> {
    Sort(Bucket(rows, a))
  }

  lemma RankedCounts(rows: seq<Row>, r: Row)
    ensures multiset(Ranked(rows, r.ascendancy))[r] == multiset(rows)[r]
    ensures r in Ranked(rows, r.ascendancy) <==> r in rows
  {
    BucketCounts(rows, r);
    assert r in Ranked(rows, r.ascendancy) <==> r in multiset(Ranked(rows, r.ascendancy));
    assert r in rows <==> r in multiset(rows);
  }

  lemma {:induction false} BucketPrecedes(rows: seq<Row>, a: Text, x: Row, y: Row)
    requires Precedes(Bucket(rows, a), x, y)
    ensures Precedes(rows, x, y)
  {
    var k := |rows| - 1;
    var b := Bucket(rows[..k], a);
    var i, j :| 0 <= i < j < |Bucket(rows, a)| && Bucket(rows, a)[i] == x && Bucket(rows, a)[j] == y;
    if j < |b| {
      assert b[i] == x && b[j] == y;
      BucketPrecedes(rows[..k], a, x, y);
      var v, w :| 0 <= v < w < |rows[..k]| && rows[..k][v] == x && rows[..k][w] == y;
      assert rows[v] == x && rows[w] == y;
    } else {
      assert x in b;
      var v :| 0 <= v < k && rows[v] == x;
      assert rows[k] == y;
    }
  }

  /** A bucket's rows are ranked best first. */
  lemma RankedAhead(rows: seq<Row>, a: Text)
    ensures AllAhead(rows, Ranked(rows, a))
  {
    SortStable(Bucket(rows, a));
    var list := Ranked(rows, a);
    forall i, j | 0 <= i < j < |list| ensures Ahead(rows, list[i], list[j]) {
      assert Ahead(Bucket(rows, a), list[i], list[j]);
      if Precedes(Bucket(rows, a), list[i], list[j]) {
        BucketPrecedes(rows, a, list[i], list[j]);
      }
    }
  }

  lemma RankedIn(rows: seq<Row>, a: Text, k: nat)
    requires k < |Ranked(rows, a)|
    ensures Ranked(rows, a)[k] in rows && Ranked(rows, a)[k].ascendancy == a
  {
    var r := Ranked(rows, a)[k];
    assert r in multiset(Ranked(rows, a));
    assert r in multiset(Bucket(rows, a));
  }

  lemma {:induction false} CountAtMostOne(rows: seq<Row>, r: Row)
    requires Distinct(rows)
    ensures multiset(rows)[r] <= 1
  {
    if rows != [] {
      var k := |rows| - 1;
      assert rows == rows[..k] + [rows[k]];
      CountAtMostOne(rows[..k], r);
      if r == rows[k] {
        assert r !in rows[..k];
        assert multiset(rows[..k])[r] == 0;
      }
    }
  }

  lemma {:induction false} DistinctByCount(s: seq<Row>)
    requires forall r :: multiset(s)[r] <= 1
    ensures Distinct(s)
  {
    if s != [] {
      var k := |s| - 1;
      assert s == s[..k] + [s[k]];
      forall r ensures multiset(s[..k])[r] <= 1 {
        assert multiset(s)[r] <= 1;
      }
      DistinctByCount(s[..k]);
      assert multiset(s)[s[k]] <= 1;
      assert s[k] !in multiset(s[..k]);
      assert s[k] !in s[..k];
    }
  }

  lemma RankedDistinct(rows: seq<Row>, a: Text)
    requires UniqueKeys(rows)
    ensures Distinct(Ranked(rows, a))
  {
    forall r ensures multiset(Ranked(rows, a))[r] <= 1 {
      if r in multiset(Ranked(rows, a)) {
        assert r in multiset(Bucket(rows, a));
        assert r in Bucket(rows, a);
        CountAtMostOne(rows, r);
        RankedCounts(rows, r);
      }
    }
    DistinctByCount(Ranked(rows, a));
  }

  // ----- the order in which rows are picked

  function Min(a: nat, b: nat): nat {
    if a <= b then a else b
  }

  /** The first rows of each bucket, bucket by bucket. */
  function Heads(rows: seq<Row>, order: seq<Text>, m: nat): seq<Row> {
    if order == [] then []
    else
      var list := Ranked(rows, order[|order| - 1]);
      Heads(rows, order[..|order| - 1], m) + list[..Min(m, |list|)]
  }

  /** One round: a row of each bucket that is long enough. */
  function Layer(rows: seq<Row>, order: seq<Text>, k: nat): seq<Row> {
    if order == [] then []
    else
      var list := Ranked(rows, order[|order| - 1]);
      Layer(rows, order[..|order| - 1], k) + if k < |list| then [list[k]] else []
  }

  /** All that is picked before round k. */
  function Picks(rows: seq<Row>, order: seq<Text>, m: nat, k: nat): seq<Row> {
    if k <= m then Heads(rows, order, m) else Picks(rows, order, m, k - 1) + Layer(rows, order, k - 1)
  }

  /** The beginning of the picks, however many rounds are played. */
  ghost predicate Follows(selected: seq<Row>, rows: seq<Row>, order: seq<Text>, m: nat) {
    exists k :: k >= m && selected <= Picks(rows, order, m, k)
  }

  // ----- what a selection is

  function Count(selected: seq<Row>, a: Text): nat {
    |Bucket(selected, a)|
  }

  /** Drawn from the rows, and from every bucket its best rows in order. */
  ghost predicate Drawn(rows: seq<Row>, selected: seq<Row>) {
    && (forall r | r in selected :: r in rows)
    && forall a :: Bucket(selected, a) <= Ranked(rows, a)
  }

  /** Beyond the minimum no bucket is two ahead of another that still has rows. */
  ghost predicate Even(rows: seq<Row>, selected: seq<Row>, m: nat) {
    forall a, b :: Count(selected, a) < |Ranked(rows, a)| && Count(selected, b) > m
                   ==> Count(selected, b) <= Count(selected, a) + 1
  }

  /** How many of its ascendancy were selected before it. */
  function Place(selected: seq<Row>, i: nat): nat
    requires i < |selected|
  {
    Count(selected[..i], selected[i].ascendancy)
  }

  /** Within the minimum an ascendancy's rows come together, in string order; beyond it every
      ascendancy gets its next row before any gets the one after. */
  predicate Earlier(place: nat, a: Text, next: nat, b: Text, m: nat) {
    if place < m && next < m then a.rank <= b.rank else place < next || (place == next && a.rank < b.rank)
  }

  predicate EarlierAt(selected: seq<Row>, i: nat, j: nat, m: nat)
    requires i < |selected| && j < |selected|
  {
    Earlier(Place(selected, i), selected[i].ascendancy, Place(selected, j), selected[j].ascendancy, m)
  }

  ghost predicate Dealt(selected: seq<Row>, m: nat) {
    forall i, j | 0 <= i < j < |selected| :: EarlierAt(selected, i, j, m)
  }

  predicate LeftAt(rows: seq<Row>, selected: seq<Row>, a: Text, i: nat, m: nat)
    requires i < |selected|
  {
    Count(selected, a) < |Ranked(rows, a)| ==>
      Earlier(Place(selected, i), selected[i].ascendancy, Count(selected, a), a, m)
  }

  /** Whatever a bucket has left would have come later. */
  ghost predicate Behind(rows: seq<Row>, selected: seq<Row>, m: nat) {
    forall a, i | 0 <= i < |selected| :: LeftAt(rows, selected, a, i, m)
  }

  lemma {:induction false} CountGrows(s: seq<Row>, i: nat, a: Text)
    requires i <= |s|
    ensures Count(s[..i], a) <= Count(s, a)
    decreases |s| - i
  {
    if i < |s| {
      assert s[..i + 1] == s[..i] + [s[i]];
      CountGrows(s, i + 1, a);
    } else {
      assert s[..i] == s;
    }
  }

  lemma PlaceBelow(s: seq<Row>, i: nat)
    requires i < |s|
    ensures Place(s, i) < Count(s, s[i].ascendancy)
  {
    assert s[..i + 1] == s[..i] + [s[i]];
    CountGrows(s, i + 1, s[i].ascendancy);
  }

  lemma DealtPush(rows: seq<Row>, selected: seq<Row>, m: nat, a: Text)
    requires Dealt(selected, m) && Behind(rows, selected, m) && Count(selected, a) < |Ranked(rows, a)|
    ensures Dealt(selected + [Ranked(rows, a)[Count(selected, a)]], m)
  {
    var n := Count(selected, a);
    var next := selected + [Ranked(rows, a)[n]];
    RankedIn(rows, a, n);
    forall i, j | 0 <= i < j < |next| ensures EarlierAt(next, i, j, m) {
      assert next[..i] == selected[..i];
      if j < |selected| {
        assert next[..j] == selected[..j];
        assert EarlierAt(selected, i, j, m);
      } else {
        assert next[..j] == selected;
        assert LeftAt(rows, selected, a, i, m);
      }
    }
  }

  ghost predicate SeenKeys(selected: seq<Row>, seen: set<RowKey>) {
    forall k :: k in seen <==> exists i :: 0 <= i < |selected| && KeyOf(selected[i]) == k
  }

  lemma KeysApart(rows: seq<Row>, a: Row, b: Row)
    requires UniqueKeys(rows) && a in rows && b in rows && KeyOf(a) == KeyOf(b)
    ensures a == b
  {
  }

  lemma {:induction false} InBucket(s: seq<Row>, r: Row)
    requires r in s
    ensures r in Bucket(s, r.ascendancy)
  {
    assert s == s[..|s| - 1] + [s[|s| - 1]];
    if r in s[..|s| - 1] {
      InBucket(s[..|s| - 1], r);
    }
  }

  /** The next row of a bucket is new. */
  lemma NextIsNew(rows: seq<Row>, selected: seq<Row>, a: Text)
    requires UniqueKeys(rows) && Drawn(rows, selected) && Count(selected, a) < |Ranked(rows, a)|
    ensures forall i | 0 <= i < |selected| :: KeyOf(selected[i]) != KeyOf(Ranked(rows, a)[Count(selected, a)])
  {
    var k, list := Count(selected, a), Ranked(rows, a);
    RankedIn(rows, a, k);
    RankedDistinct(rows, a);
    assert Bucket(selected, a) == list[..k];
    assert list[k] !in list[..k];
    forall i | 0 <= i < |selected| ensures KeyOf(selected[i]) != KeyOf(list[k]) {
      InBucket(selected, selected[i]);
      if KeyOf(selected[i]) == KeyOf(list[k]) {
        KeysApart(rows, selected[i], list[k]);
      }
    }
  }

  lemma DrawNextAt(rows: seq<Row>, selected: seq<Row>, a: Text, r: Row, b: Text)
    requires Bucket(selected, b) <= Ranked(rows, b) && r.ascendancy == a
    requires b == a ==> Count(selected, a) < |Ranked(rows, a)| && r == Ranked(rows, a)[Count(selected, a)]
    ensures Bucket(selected + [r], b) <= Ranked(rows, b)
    ensures Count(selected + [r], b) == Count(selected, b) + if b == a then 1 else 0
  {
  }

  lemma DrawNext(rows: seq<Row>, selected: seq<Row>, a: Text)
    requires Drawn(rows, selected) && Count(selected, a) < |Ranked(rows, a)|
    ensures var r := Ranked(rows, a)[Count(selected, a)];
            && Drawn(rows, selected + [r])
            && forall b :: Count(selected + [r], b) == Count(selected, b) + if b == a then 1 else 0
  {
    var r := Ranked(rows, a)[Count(selected, a)];
    RankedIn(rows, a, Count(selected, a));
    forall b
      ensures Bucket(selected + [r], b) <= Ranked(rows, b)
      ensures Count(selected + [r], b) == Count(selected, b) + if b == a then 1 else 0
    {
      DrawNextAt(rows, selected, a, r, b);
    }
  }

  lemma NothingDrawn(rows: seq<Row>)
    ensures Drawn(rows, []) && UniqueKeys([]) && forall a :: Count([], a) == 0
  {
  }

  /** A selection of distinct characters is a part of the rows. */
  lemma PartOfRows(rows: seq<Row>, selected: seq<Row>)
    requires Drawn(rows, selected) && UniqueKeys(selected)
    ensures multiset(selected) <= multiset(rows) && |selected| <= |rows|
  {
    assert Distinct(selected) by {
      forall i, j | 0 <= i < j < |selected| ensures selected[i] != selected[j] {
        assert KeyOf(selected[i]) != KeyOf(selected[j]);
      }
    }
    forall r ensures multiset(selected)[r] <= multiset(rows)[r] {
      CountAtMostOne(selected, r);
      if r in multiset(selected) {
        assert r in selected;
        assert r in rows;
        assert r in multiset(rows);
      }
    }
    SubMultisetSize(multiset(selected), multiset(rows));
  }

  lemma SubMultisetSize(a: multiset<Row>, b: multiset<Row>)
    requires a <= b
    ensures |a| <= |b| && (|a| == |b| ==> a == b)
  {
    assert b == a + (b - a);
  }

  /** When every bucket is used up, every row is selected. */
  lemma Exhausted(rows: seq<Row>, selected: seq<Row>)
    requires Drawn(rows, selected) && forall a :: Count(selected, a) >= |Ranked(rows, a)|
    ensures multiset(selected) == multiset(rows) && |selected| == |rows|
  {
    forall r ensures multiset(selected)[r] == multiset(rows)[r] {
      assert Bucket(selected, r.ascendancy) <= Ranked(rows, r.ascendancy);
      assert Count(selected, r.ascendancy) >= |Ranked(rows, r.ascendancy)|;
      assert Bucket(selected, r.ascendancy) == Ranked(rows, r.ascendancy);
      BucketCounts(selected, r);
      RankedCounts(rows, r);
    }
    assert multiset(selected) == multiset(rows);
    assert |multiset(selected)| == |selected|;
  }

  /** Selecting as many as there are rows returns all of them, in another order. */
  lemma FullSelectionIsPermutation(rows: seq<Row>, selected: seq<Row>)
    requires Drawn(rows, selected) && UniqueKeys(selected) && |selected| == |rows|
    ensures multiset(selected) == multiset(rows)
  {
    PartOfRows(rows, selected);
    SubMultisetSize(multiset(selected), multiset(rows));
  }

  // ----- the sampler

  /** The ascendancies of the rows in string order, each once. */
  ghost predicate OrderOf(order: seq<Text>, rows: seq<Row>) {
    && (forall i, j | 0 <= i < j < |order| :: order[i].rank < order[j].rank)
    && (forall r | r in rows :: r.ascendancy in order)
  }

  lemma BucketEmpty(rows: seq<Row>, a: Text)
    requires forall r | r in rows :: r.ascendancy != a
    ensures Bucket(rows, a) == []
  {
  }

  ghost predicate BucketsOf(buckets: map<Text, seq<Row>>, rows: seq<Row>) {
    && (forall a :: a in buckets <==> exists r :: r in rows && r.ascendancy == a)
    && forall a | a in buckets :: buckets[a] == Bucket(rows, a)
  }

  lemma BucketsPush(buckets: map<Text, seq<Row>>, rows: seq<Row>, r: Row)
    requires BucketsOf(buckets, rows)
    ensures var list := if r.ascendancy in buckets then buckets[r.ascendancy] else [];
            BucketsOf(buckets[r.ascendancy := list + [r]], rows + [r])
  {
    var list := if r.ascendancy in buckets then buckets[r.ascendancy] else [];
    var next := buckets[r.ascendancy := list + [r]];
    if r.ascendancy !in buckets {
      BucketEmpty(rows, r.ascendancy);
    }
    forall a | a in next ensures next[a] == Bucket(rows + [r], a) {
      BucketPush(rows, r, a);
    }
    forall a ensures a in next <==> exists x :: x in rows + [r] && x.ascendancy == a {
      assert r in rows + [r];
      assert forall x | x in rows :: x in rows + [r];
    }
  }

  method FillBuckets(rows: seq<Row>) returns (buckets: map<Text, seq<Row>>)
    ensures BucketsOf(buckets, rows)
  {
    buckets := map[];
    for i := 0 to |rows|
      invariant BucketsOf(buckets, rows[..i])
    {
      var r := rows[i];
      assert rows[..i + 1] == rows[..i] + [r];
      BucketsPush(buckets, rows[..i], r);
      buckets := buckets[r.ascendancy := (if r.ascendancy in buckets then buckets[r.ascendancy] else []) + [r]];
    }
    assert rows[..|rows|] == rows;
  }

  method SortKeys(keys: set<Text>) returns (order: seq<Text>)
    ensures forall i, j | 0 <= i < j < |order| :: order[i].rank < order[j].rank
    ensures forall a :: a in order <==> a in keys
  {
    order := [];
    var todo := keys;
    while todo != {}
      invariant forall i, j | 0 <= i < j < |order| :: order[i].rank < order[j].rank
      invariant todo <= keys
      invariant forall a :: a in order <==> a in keys - todo
      decreases |todo|
    {
      var a :| a in todo;
      var k := 0;
      while k < |order| && order[k].rank < a.rank
        invariant k <= |order|
        invariant forall i | 0 <= i < k :: order[i].rank < a.rank
      {
        k := k + 1;
      }
      assert a !in order;
      assert k < |order| ==> order[k] != a;
      ghost var before := order;
      order := order[..k] + [a] + order[k..];
      assert before == before[..k] + before[k..];
      assert forall x :: x in order <==> x in before || x == a;
      todo := todo - {a};
    }
  }

  function Trunc(s: seq<Row>, target: nat): seq<Row> {
    if |s| <= target then s else s[..target]
  }

  /** After the minimum phase has passed i buckets and j rows of the next. */
  ghost predicate PhaseOne(rows: seq<Row>, order: seq<Text>, selected: seq<Row>, m: nat, target: nat, i: nat, j: nat) {
    && Drawn(rows, selected)
    && (forall a :: Count(selected, a) <= m)
    && Dealt(selected, m) && Behind(rows, selected, m)
    && (|selected| < target ==> MinimumCounts(rows, order, selected, m, i, j))
  }

  ghost predicate MinimumCounts(rows: seq<Row>, order: seq<Text>, selected: seq<Row>, m: nat, i: nat, j: nat) {
    forall b | 0 <= b < |order| ::
      Count(selected, order[b]) == if b < i then Min(m, |Ranked(rows, order[b])|) else if b == i then j else 0
  }

  lemma SelectedInOrder(rows: seq<Row>, order: seq<Text>, selected: seq<Row>, x: nat) returns (b: nat)
    requires OrderOf(order, rows) && Drawn(rows, selected) && x < |selected|
    ensures b < |order| && order[b] == selected[x].ascendancy
  {
    assert selected[x] in rows;
    b :| 0 <= b < |order| && order[b] == selected[x].ascendancy;
  }

  lemma BehindInMinimum(rows: seq<Row>, order: seq<Text>, selected: seq<Row>, m: nat, i: nat, j: nat)
    requires OrderOf(order, rows) && Drawn(rows, selected) && MinimumCounts(rows, order, selected, m, i, j)
    requires forall a :: Count(selected, a) <= m
    ensures Behind(rows, selected, m)
  {
    forall a, x | 0 <= x < |selected| ensures LeftAt(rows, selected, a, x, m) {
      if Count(selected, a) < |Ranked(rows, a)| {
        LeftInMinimum(rows, order, selected, m, i, j, a, x);
      }
    }
  }

  lemma LeftInMinimum(rows: seq<Row>, order: seq<Text>, selected: seq<Row>, m: nat, i: nat, j: nat, a: Text, x: nat)
    requires OrderOf(order, rows) && Drawn(rows, selected) && MinimumCounts(rows, order, selected, m, i, j)
    requires x < |selected| && Count(selected, a) < |Ranked(rows, a)|
    requires Count(selected, a) <= m && Count(selected, selected[x].ascendancy) <= m
    ensures LeftAt(rows, selected, a, x, m)
  {
    PlaceBelow(selected, x);
    InOrderList(rows, order, a);
    var b :| 0 <= b < |order| && order[b] == a;
    var y := SelectedInOrder(rows, order, selected, x);
    assert Count(selected, order[y]) > 0;
    assert y <= i;
    assert b < i ==> Count(selected, order[b]) == m;
  }

  lemma BehindInRound(rows: seq<Row>, order: seq<Text>, selected: seq<Row>, m: nat, k: nat, i: nat)
    requires OrderOf(order, rows) && InRound(rows, order, selected, k, i) && m <= k
    ensures Behind(rows, selected, m)
  {
    forall a, x | 0 <= x < |selected| ensures LeftAt(rows, selected, a, x, m) {
      if Count(selected, a) < |Ranked(rows, a)| {
        LeftInRound(rows, order, selected, m, k, i, a, x);
      }
    }
  }

  lemma LeftInRound(rows: seq<Row>, order: seq<Text>, selected: seq<Row>, m: nat, k: nat, i: nat, a: Text, x: nat)
    requires OrderOf(order, rows) && InRound(rows, order, selected, k, i) && m <= k
    requires x < |selected| && Count(selected, a) < |Ranked(rows, a)|
    ensures LeftAt(rows, selected, a, x, m)
  {
    PlaceBelow(selected, x);
    InOrderList(rows, order, a);
    var b :| 0 <= b < |order| && order[b] == a;
    var y := SelectedInOrder(rows, order, selected, x);
    CountAt(rows, order, selected, k, i, y);
    CountAt(rows, order, selected, k, i, b);
    if Place(selected, x) >= Count(selected, a) {
      assert y < i <= b;
    }
  }

  lemma CountAt(rows: seq<Row>, order: seq<Text>, selected: seq<Row>, k: nat, i: nat, b: nat)
    requires RoundCounts(rows, order, selected, k, i) && b < |order|
    ensures Count(selected, order[b]) <= k + if b < i then 1 else 0
    ensures Count(selected, order[b]) < |Ranked(rows, order[b])| ==>
              Count(selected, order[b]) == k + if b < i then 1 else 0
  {
  }

  /** In round k, after i buckets. */
  ghost predicate RoundCounts(rows: seq<Row>, order: seq<Text>, selected: seq<Row>, k: nat, i: nat) {
    forall b | 0 <= b < |order| ::
      Count(selected, order[b]) == Min(|Ranked(rows, order[b])|, k + if b < i then 1 else 0)
  }

  ghost predicate InRound(rows: seq<Row>, order: seq<Text>, selected: seq<Row>, k: nat, i: nat) {
    Drawn(rows, selected) && RoundCounts(rows, order, selected, k, i)
  }

  lemma MinimumStep(rows: seq<Row>, order: seq<Text>, selected: seq<Row>, m: nat, target: nat, i: nat, j: nat)
    requires UniqueKeys(rows) && OrderOf(order, rows)
    requires PhaseOne(rows, order, selected, m, target, i, j) && |selected| < target
    requires i < |order| && j < |Ranked(rows, order[i])| && j < m
    ensures var r := Ranked(rows, order[i])[j];
            && PhaseOne(rows, order, selected + [r], m, target, i, j + 1)
            && forall x | 0 <= x < |selected| :: KeyOf(selected[x]) != KeyOf(r)
  {
    NextIsNew(rows, selected, order[i]);
    DrawNext(rows, selected, order[i]);
    DealtPush(rows, selected, m, order[i]);
    var next := selected + [Ranked(rows, order[i])[j]];
    assert forall b | 0 <= b < |order| && b != i :: order[b] != order[i];
    assert MinimumCounts(rows, order, next, m, i, j + 1);
    BehindInMinimum(rows, order, next, m, i, j + 1);
  }

  lemma EvenInRound(rows: seq<Row>, order: seq<Text>, selected: seq<Row>, m: nat, k: nat, i: nat)
    requires OrderOf(order, rows) && InRound(rows, order, selected, k, i)
    ensures Even(rows, selected, m)
  {
    forall a, b | Count(selected, a) < |Ranked(rows, a)| && Count(selected, b) > m
      ensures Count(selected, b) <= Count(selected, a) + 1
    {
      CountInRound(rows, order, selected, k, i, a);
      CountInRound(rows, order, selected, k, i, b);
    }
  }

  lemma CountInRound(rows: seq<Row>, order: seq<Text>, selected: seq<Row>, k: nat, i: nat, a: Text)
    requires OrderOf(order, rows) && Drawn(rows, selected) && RoundCounts(rows, order, selected, k, i)
    ensures Count(selected, a) <= k + 1
    ensures Count(selected, a) >= k || Count(selected, a) == |Ranked(rows, a)|
  {
    InOrderList(rows, order, a);
    assert Bucket(selected, a) <= Ranked(rows, a);
    if |Ranked(rows, a)| > 0 {
      var x :| 0 <= x < |order| && order[x] == a;
      assert Count(selected, order[x]) == Min(|Ranked(rows, order[x])|, k + if x < i then 1 else 0);
    }
  }

  lemma RoundStep(rows: seq<Row>, order: seq<Text>, selected: seq<Row>, k: nat, i: nat)
    requires UniqueKeys(rows) && OrderOf(order, rows) && InRound(rows, order, selected, k, i)
    requires i < |order| && k < |Ranked(rows, order[i])|
    ensures var r := Ranked(rows, order[i])[k];
            && InRound(rows, order, selected + [r], k, i + 1)
            && forall x | 0 <= x < |selected| :: KeyOf(selected[x]) != KeyOf(r)
  {
    NextIsNew(rows, selected, order[i]);
    DrawNext(rows, selected, order[i]);
    assert forall b | 0 <= b < |order| && b != i :: order[b] != order[i];
  }

  /** A bucket with rows is in the list of buckets. */
  lemma InOrderList(rows: seq<Row>, order: seq<Text>, a: Text)
    requires OrderOf(order, rows)
    ensures |Ranked(rows, a)| > 0 ==> exists i :: 0 <= i < |order| && order[i] == a
    ensures |Ranked(rows, a)| > 0 ==> a in order
  {
    if |Ranked(rows, a)| > 0 {
      RankedIn(rows, a, 0);
    }
  }

  lemma HeadsPush(rows: seq<Row>, order: seq<Text>, m: nat, i: nat)
    requires i < |order|
    ensures var list := Ranked(rows, order[i]);
            Heads(rows, order[..i + 1], m) == Heads(rows, order[..i], m) + list[..Min(m, |list|)]
  {
    assert order[..i + 1][..i] == order[..i] && order[..i + 1][i] == order[i];
  }

  lemma LayerPush(rows: seq<Row>, order: seq<Text>, k: nat, i: nat)
    requires i < |order|
    ensures var list := Ranked(rows, order[i]);
            Layer(rows, order[..i + 1], k) == Layer(rows, order[..i], k) + if k < |list| then [list[k]] else []
  {
    assert order[..i + 1][..i] == order[..i] && order[..i + 1][i] == order[i];
  }

  lemma {:induction false} LayerGrows(rows: seq<Row>, order: seq<Text>, k: nat, i: nat)
    requires i <= |order|
    ensures Layer(rows, order[..i], k) <= Layer(rows, order, k)
    decreases |order| - i
  {
    if i < |order| {
      LayerPush(rows, order, k, i);
      LayerGrows(rows, order, k, i + 1);
    } else {
      assert order[..i] == order;
    }
  }

  /** The sorted buckets, under their ascendancies. */
  ghost predicate Stocked(buckets: map<Text, seq<Row>>, rows: seq<Row>, order: seq<Text>) {
    && OrderOf(order, rows)
    && forall a | a in order :: a in buckets && buckets[a] == Ranked(rows, a)
  }

  /** The selected rows are distinct characters of the rows, and seen are their keys. */
  ghost predicate Held(rows: seq<Row>, selected: seq<Row>, seen: set<RowKey>) {
    UniqueKeys(selected) && SeenKeys(selected, seen) && forall r | r in selected :: r in rows
  }

  lemma HeldPush(rows: seq<Row>, selected: seq<Row>, seen: set<RowKey>, r: Row)
    requires Held(rows, selected, seen) && r in rows && KeyOf(r) !in seen
    ensures Held(rows, selected + [r], seen + {KeyOf(r)})
  {
    var next := selected + [r];
    forall k ensures k in seen + {KeyOf(r)} <==> exists i :: 0 <= i < |next| && KeyOf(next[i]) == k {
      if k in seen {
        var i :| 0 <= i < |selected| && KeyOf(selected[i]) == k;
        assert KeyOf(next[i]) == k;
      } else if k == KeyOf(r) {
        assert KeyOf(next[|selected|]) == k;
      }
    }
  }

  /** What the minimum phase has picked when it has passed i buckets and j rows of the next. */
  ghost predicate MinimumAt(rows: seq<Row>, order: seq<Text>, selected: seq<Row>, m: nat, target: nat, i: nat, j: nat)
    requires i <= |order|
  {
    UniqueKeys(rows) ==>
      && PhaseOne(rows, order, selected, m, target, i, j)
      && (i < |order| ==> j <= |Ranked(rows, order[i])|)
      && selected == Trunc(Picked(rows, order, m, i, j), target)
  }

  /** The heads of the first i buckets and j rows of the next. */
  function Picked(rows: seq<Row>, order: seq<Text>, m: nat, i: nat, j: nat): seq<Row>
    requires i <= |order|
  {
    Heads(rows, order[..i], m)
    + if i < |order| && j <= |Ranked(rows, order[i])| then Ranked(rows, order[i])[..j] else []
  }

  lemma NewIsUnseen(selected: seq<Row>, seen: set<RowKey>, r: Row)
    requires SeenKeys(selected, seen) && forall x | 0 <= x < |selected| :: KeyOf(selected[x]) != KeyOf(r)
    ensures KeyOf(r) !in seen
  {
  }

  lemma TruncPush(base: seq<Row>, list: seq<Row>, j: nat, target: nat)
    requires j < |list|
    ensures var s := Trunc(base + list[..j], target);
            Trunc(base + list[..j + 1], target) == if |s| < target then s + [list[j]] else s
  {
  }

  lemma MinimumPush(rows: seq<Row>, order: seq<Text>, selected: seq<Row>, seen: set<RowKey>, m: nat, target: nat,
                    i: nat, j: nat)
    requires UniqueKeys(rows) && OrderOf(order, rows) && Held(rows, selected, seen) && i < |order|
    requires MinimumAt(rows, order, selected, m, target, i, j) && j < |Ranked(rows, order[i])| && j < m
    ensures var r := Ranked(rows, order[i])[j];
            if |selected| >= target then MinimumAt(rows, order, selected, m, target, i, j + 1)
            else KeyOf(r) !in seen && MinimumAt(rows, order, selected + [r], m, target, i, j + 1)
  {
    var list := Ranked(rows, order[i]);
    TruncPush(Heads(rows, order[..i], m), list, j, target);
    if |selected| < target {
      MinimumStep(rows, order, selected, m, target, i, j);
      NewIsUnseen(selected, seen, list[j]);
    }
  }

  lemma MinimumNext(rows: seq<Row>, order: seq<Text>, selected: seq<Row>, m: nat, target: nat, i: nat)
    requires i < |order| && MinimumAt(rows, order, selected, m, target, i, Min(m, |Ranked(rows, order[i])|))
    ensures MinimumAt(rows, order, selected, m, target, i + 1, 0)
  {
    PickedNext(rows, order, m, i);
    if UniqueKeys(rows) {
      PhaseNext(rows, order, selected, m, target, i);
    }
  }

  lemma PickedNext(rows: seq<Row>, order: seq<Text>, m: nat, i: nat)
    requires i < |order|
    ensures Picked(rows, order, m, i, Min(m, |Ranked(rows, order[i])|)) == Picked(rows, order, m, i + 1, 0)
  {
    HeadsPush(rows, order, m, i);
    var heads := Heads(rows, order[..i + 1], m);
    assert heads + [] == heads;
    assert i + 1 < |order| ==> Ranked(rows, order[i + 1])[..0] == [];
  }

  lemma PhaseNext(rows: seq<Row>, order: seq<Text>, selected: seq<Row>, m: nat, target: nat, i: nat)
    requires i < |order| && PhaseOne(rows, order, selected, m, target, i, Min(m, |Ranked(rows, order[i])|))
    ensures PhaseOne(rows, order, selected, m, target, i + 1, 0)
  {
  }

  /** The minimum from one bucket. */
  method MinimumOf(list: seq<Row>, chosen: seq<Row>, known: set<RowKey>, ghost order: seq<Text>, target: nat, m: nat,
                   ghost rows: seq<Row>, ghost i: nat)
    returns (selected: seq<Row>, seen: set<RowKey>)
    requires OrderOf(order, rows) && i < |order| && list == Ranked(rows, order[i])
    requires |chosen| <= target && Held(rows, chosen, known) && MinimumAt(rows, order, chosen, m, target, i, 0)
    ensures |selected| <= target && Held(rows, selected, seen)
    ensures MinimumAt(rows, order, selected, m, target, i, Min(m, |list|))
  {
    selected, seen := chosen, known;
    for j := 0 to Min(m, |list|)
      invariant |selected| <= target && Held(rows, selected, seen)
      invariant MinimumAt(rows, order, selected, m, target, i, j)
    {
      RankedIn(rows, order[i], j);
      if UniqueKeys(rows) {
        MinimumPush(rows, order, selected, seen, m, target, i, j);
      }
      if KeyOf(list[j]) !in seen && |selected| < target {
        HeldPush(rows, selected, seen, list[j]);
        selected := selected + [list[j]];
        seen := seen + {KeyOf(list[j])};
      }
    }
  }

  method MinimumPhase(buckets: map<Text, seq<Row>>, order: seq<Text>, target: nat, m: nat, ghost rows: seq<Row>)
    returns (selected: seq<Row>, seen: set<RowKey>)
    requires Stocked(buckets, rows, order)
    ensures |selected| <= target && Held(rows, selected, seen)
    ensures MinimumAt(rows, order, selected, m, target, |order|, 0)
  {
    selected, seen := [], {};
    NothingDrawn(rows);
    for i := 0 to |order|
      invariant |selected| <= target && Held(rows, selected, seen)
      invariant MinimumAt(rows, order, selected, m, target, i, 0)
    {
      selected, seen := MinimumOf(buckets[order[i]], selected, seen, order, target, m, rows, i);
      MinimumNext(rows, order, selected, m, target, i);
    }
  }

  /** What round k has added when it has passed i buckets. */
  ghost predicate RoundAt(rows: seq<Row>, order: seq<Text>, chosen: seq<Row>, selected: seq<Row>, m: nat, k: nat,
                          i: nat)
    requires i <= |order|
  {
    UniqueKeys(rows) ==>
      && m <= k && Dealt(selected, m)
      && InRound(rows, order, selected, k, i)
      && selected == chosen + Layer(rows, order[..i], k)
  }

  /** What a round has dealt before and after one more bucket. */
  lemma LayerDealt(rows: seq<Row>, order: seq<Text>, chosen: seq<Row>, k: nat, i: nat)
    requires i < |order|
    ensures var list, dealt := Ranked(rows, order[i]), chosen + Layer(rows, order[..i], k);
            chosen + Layer(rows, order[..i + 1], k) == if k < |list| then dealt + [list[k]] else dealt
  {
    LayerPush(rows, order, k, i);
    var list, layer := Ranked(rows, order[i]), Layer(rows, order[..i], k);
    assert k < |list| ==> chosen + (layer + [list[k]]) == (chosen + layer) + [list[k]];
    assert chosen + (layer + []) == chosen + layer;
  }

  lemma RoundSkip(rows: seq<Row>, order: seq<Text>, selected: seq<Row>, k: nat, i: nat)
    requires i < |order| && RoundCounts(rows, order, selected, k, i) && k >= |Ranked(rows, order[i])|
    ensures RoundCounts(rows, order, selected, k, i + 1)
  {
    forall b | 0 <= b < |order|
      ensures Count(selected, order[b]) == Min(|Ranked(rows, order[b])|, k + if b < i + 1 then 1 else 0)
    {
      SkippedCount(|Ranked(rows, order[b])|, k, b, i);
    }
  }

  lemma SkippedCount(size: nat, k: nat, b: nat, i: nat)
    requires b == i ==> k >= size
    ensures Min(size, k + if b < i + 1 then 1 else 0) == Min(size, k + if b < i then 1 else 0)
  {
  }

  /** The next bucket of a round: its row is new and taken, or there is none. */
  lemma RoundNext(rows: seq<Row>, order: seq<Text>, chosen: seq<Row>, selected: seq<Row>, seen: set<RowKey>, m: nat,
                  k: nat, i: nat)
    requires OrderOf(order, rows) && Held(rows, selected, seen) && i < |order|
    requires RoundAt(rows, order, chosen, selected, m, k, i)
    ensures var list := Ranked(rows, order[i]);
            && (k < |list| && UniqueKeys(rows) ==> KeyOf(list[k]) !in seen)
            && (k < |list| ==> RoundAt(rows, order, chosen, selected + [list[k]], m, k, i + 1))
            && (k >= |list| || KeyOf(list[k]) in seen ==> RoundAt(rows, order, chosen, selected, m, k, i + 1))
  {
    if UniqueKeys(rows) {
      LayerDealt(rows, order, chosen, k, i);
      if k < |Ranked(rows, order[i])| {
        BehindInRound(rows, order, selected, m, k, i);
        DealtPush(rows, selected, m, order[i]);
        RoundStep(rows, order, selected, k, i);
        NewIsUnseen(selected, seen, Ranked(rows, order[i])[k]);
      } else {
        RoundSkip(rows, order, selected, k, i);
      }
    }
  }

  method Round(buckets: map<Text, seq<Row>>, order: seq<Text>, target: nat, k: nat, chosen: seq<Row>,
               known: set<RowKey>, ghost rows: seq<Row>, ghost m: nat)
    returns (selected: seq<Row>, seen: set<RowKey>, progressed: bool, ghost passed: nat)
    requires Stocked(buckets, rows, order)
    requires |chosen| < target && Held(rows, chosen, known)
    requires RoundAt(rows, order, chosen, chosen, m, k, 0)
    ensures |selected| <= target && Held(rows, selected, seen)
    ensures if progressed then |selected| > |chosen| else selected == chosen
    ensures passed <= |order| && RoundAt(rows, order, chosen, selected, m, k, passed)
    ensures |selected| < target ==> passed == |order|
  {
    selected, seen, progressed := chosen, known, false;
    for i := 0 to |order|
      invariant |selected| < target && Held(rows, selected, seen)
      invariant if progressed then |selected| > |chosen| else selected == chosen
      invariant RoundAt(rows, order, chosen, selected, m, k, i)
    {
      var list := buckets[order[i]];
      RoundNext(rows, order, chosen, selected, seen, m, k, i);
      if k < |list| && KeyOf(list[k]) !in seen {
        RankedIn(rows, order[i], k);
        HeldPush(rows, selected, seen, list[k]);
        selected := selected + [list[k]];
        seen := seen + {KeyOf(list[k])};
        progressed := true;
        if |selected| >= target {
          return selected, seen, progressed, i + 1;
        }
      }
    }
    passed := |order|;
  }

  /** The minimum, then round after round until the target is met or a round finds nothing. */
  method Deal(buckets: map<Text, seq<Row>>, order: seq<Text>, target: nat, minimum: nat, ghost rows: seq<Row>)
    returns (selected: seq<Row>, ghost rounds: nat)
    requires Stocked(buckets, rows, order)
    ensures |selected| <= target && UniqueKeys(selected) && forall r | r in selected :: r in rows
    ensures Dealing(rows, order, selected, minimum, target, rounds)
    ensures UniqueKeys(rows) ==> |selected| == target || |selected| == |rows|
  {
    var seen;
    selected, seen := MinimumPhase(buckets, order, target, minimum, rows);
    AfterMinimum(rows, order, selected, minimum, target);
    var k := minimum;
    rounds := k;
    while |selected| < target
      invariant k >= minimum && rounds == k
      invariant |selected| <= target && Held(rows, selected, seen)
      invariant Dealing(rows, order, selected, minimum, target, k)
      decreases target - |selected|
    {
      ghost var before, passed := selected, 0;
      var progressed;
      DealingRound(rows, order, selected, minimum, target, k);
      selected, seen, progressed, passed := Round(buckets, order, target, k, selected, seen, rows, minimum);
      AfterRound(rows, order, before, selected, minimum, target, k, passed);
      k := k + 1;
      rounds := k;
      if !progressed {
        break;
      }
    }
  }

  lemma DealingRound(rows: seq<Row>, order: seq<Text>, selected: seq<Row>, m: nat, target: nat, k: nat)
    requires Dealing(rows, order, selected, m, target, k) && |selected| < target && m <= k
    ensures RoundAt(rows, order, selected, selected, m, k, 0)
  {
  }

  /** Of two selected rows of an ascendancy the better comes first, and none left out is better. */
  ghost predicate BestFirst(rows: seq<Row>, selected: seq<Row>) {
    && (forall i, j | 0 <= i < j < |selected| && selected[i].ascendancy == selected[j].ascendancy ::
          Ahead(rows, selected[i], selected[j]))
    && forall x, y | x in selected && y in rows && y !in selected && x.ascendancy == y.ascendancy :: Ahead(rows, x, y)
  }

  lemma {:induction false} InBucketAt(s: seq<Row>, i: nat)
    requires i < |s|
    ensures Place(s, i) < Count(s, s[i].ascendancy) && Bucket(s, s[i].ascendancy)[Place(s, i)] == s[i]
  {
    var k := |s| - 1;
    if i < k {
      InBucketAt(s[..k], i);
      assert s[..k][..i] == s[..i];
    }
  }

  lemma DrawnIsBest(rows: seq<Row>, selected: seq<Row>)
    requires Drawn(rows, selected)
    ensures BestFirst(rows, selected)
  {
    forall i, j | 0 <= i < j < |selected| && selected[i].ascendancy == selected[j].ascendancy
      ensures Ahead(rows, selected[i], selected[j])
    {
      var a := selected[i].ascendancy;
      RankedAhead(rows, a);
      InBucketAt(selected, i);
      InBucketAt(selected, j);
      PlaceBelow(selected[..j], i);
      assert selected[..j][..i] == selected[..i];
    }
    forall x, y | x in selected && y in rows && y !in selected && x.ascendancy == y.ascendancy
      ensures Ahead(rows, x, y)
    {
      LeftIsBehind(rows, selected, x, y);
    }
  }

  lemma LeftIsBehind(rows: seq<Row>, selected: seq<Row>, x: Row, y: Row)
    requires Drawn(rows, selected) && x in selected && y in rows && y !in selected && x.ascendancy == y.ascendancy
    ensures Ahead(rows, x, y)
  {
    var a := x.ascendancy;
    InBucket(selected, x);
    RankedAhead(rows, a);
    RankedCounts(rows, y);
    var list, taken := Ranked(rows, a), Bucket(selected, a);
    assert forall u | 0 <= u < |taken| :: taken[u] in selected;
    var v :| 0 <= v < |taken| && taken[v] == x;
    var w :| 0 <= w < |list| && list[w] == y;
    assert list[v] == x;
  }

  /** sample_rows.  With distinct characters it returns as many rows as asked for or all of them,
      each bucket's best first, dealt out evenly after the minimum, in one fixed order. */
  method Sample(rows: seq<Row>, target: nat, minimum: nat) returns (selected: seq<Row>)
    ensures |selected| <= target && UniqueKeys(selected)
    ensures forall r | r in selected :: r in rows
    ensures UniqueKeys(rows) ==> |selected| == if target < |rows| then target else |rows|
    ensures UniqueKeys(rows) ==> BestFirst(rows, selected)
    ensures UniqueKeys(rows) ==> Dealt(selected, minimum) && Behind(rows, selected, minimum)
    ensures UniqueKeys(rows) ==> Drawn(rows, selected) && Even(rows, selected, minimum)
    ensures UniqueKeys(rows) ==> exists order :: OrderOf(order, rows) && Follows(selected, rows, order, minimum)
    ensures UniqueKeys(rows) && target >= |rows| ==> multiset(selected) == multiset(rows)
  {
    var buckets := FillBuckets(rows);
    var order := SortKeys(buckets.Keys);
    var ranked: map<Text, seq<Row>> := map a | a in buckets :: Sort(buckets[a]);
    assert Stocked(ranked, rows, order);
    ghost var rounds;
    selected, rounds := Deal(ranked, order, target, minimum, rows);
    if UniqueKeys(rows) {
      assert OrderOf(order, rows) && Follows(selected, rows, order, minimum);
      PartOfRows(rows, selected);
      DrawnIsBest(rows, selected);
      if |selected| == |rows| {
        FullSelectionIsPermutation(rows, selected);
      }
    }
  }

  /** Before round k, or when the target is reached. */
  ghost predicate Dealing(rows: seq<Row>, order: seq<Text>, selected: seq<Row>, m: nat, target: nat, k: nat) {
    UniqueKeys(rows) ==>
      && Drawn(rows, selected) && Even(rows, selected, m) && Follows(selected, rows, order, m)
      && Dealt(selected, m) && Behind(rows, selected, m)
      && (|selected| < target ==> RoundCounts(rows, order, selected, k, 0) && selected == Picks(rows, order, m, k))
  }

  lemma EvenAtMinimum(rows: seq<Row>, order: seq<Text>, selected: seq<Row>, m: nat, target: nat)
    requires PhaseOne(rows, order, selected, m, target, |order|, 0)
    ensures Even(rows, selected, m) && (|selected| < target ==> RoundCounts(rows, order, selected, m, 0))
  {
  }

  lemma AfterMinimum(rows: seq<Row>, order: seq<Text>, selected: seq<Row>, m: nat, target: nat)
    requires OrderOf(order, rows) && MinimumAt(rows, order, selected, m, target, |order|, 0)
    ensures Dealing(rows, order, selected, m, target, m)
  {
    if UniqueKeys(rows) {
      assert order[..|order|] == order;
      EvenAtMinimum(rows, order, selected, m, target);
      assert selected <= Picks(rows, order, m, m);
    }
  }

  lemma PrefixOfRound(before: seq<Row>, part: seq<Row>, layer: seq<Row>)
    requires part <= layer
    ensures before + part <= before + layer
  {
  }

  lemma AfterRound(rows: seq<Row>, order: seq<Text>, before: seq<Row>, selected: seq<Row>, m: nat, target: nat, k: nat,
                   passed: nat)
    requires OrderOf(order, rows) && k >= m && passed <= |order| && |before| < target
    requires Dealing(rows, order, before, m, target, k)
    requires RoundAt(rows, order, before, selected, m, k, passed)
    requires |selected| < target ==> passed == |order|
    ensures Dealing(rows, order, selected, m, target, k + 1)
    ensures UniqueKeys(rows) && selected == before && |selected| < target ==> |selected| == |rows|
  {
    if UniqueKeys(rows) {
      LayerGrows(rows, order, k, passed);
      EvenInRound(rows, order, selected, m, k, passed);
      BehindInRound(rows, order, selected, m, k, passed);
      assert order[..|order|] == order;
      PrefixOfRound(before, Layer(rows, order[..passed], k), Layer(rows, order, k));
      assert Picks(rows, order, m, k + 1) == Picks(rows, order, m, k) + Layer(rows, order, k);
      assert selected <= Picks(rows, order, m, k + 1);
      if selected == before && |selected| < target {
        StuckIsFull(rows, order, selected, m, target, k);
      }
    }
  }

  /** A round that finds nothing has found every row taken. */
  lemma StuckIsFull(rows: seq<Row>, order: seq<Text>, selected: seq<Row>, m: nat, target: nat, k: nat)
    requires OrderOf(order, rows) && Drawn(rows, selected)
    requires RoundCounts(rows, order, selected, k, 0) && RoundCounts(rows, order, selected, k, |order|)
    ensures |selected| == |rows|
  {
    forall a ensures Count(selected, a) >= |Ranked(rows, a)| {
      InOrderList(rows, order, a);
    }
    Exhausted(rows, selected);
  }

  lemma {:induction false} PicksGrow(rows: seq<Row>, order: seq<Text>, m: nat, j: nat, k: nat)
    requires m <= j <= k
    ensures Picks(rows, order, m, j) <= Picks(rows, order, m, k)
    decreases k
  {
    if j < k {
      PicksGrow(rows, order, m, j, k - 1);
    }
  }

  /** The order and the size leave one possible selection. */
  lemma OneSelection(rows: seq<Row>, order: seq<Text>, m: nat, a: seq<Row>, b: seq<Row>)
    requires Follows(a, rows, order, m) && Follows(b, rows, order, m) && |a| == |b|
    ensures a == b
  {
    var j :| j >= m && a <= Picks(rows, order, m, j);
    var k :| k >= m && b <= Picks(rows, order, m, k);
    if j <= k {
      PicksGrow(rows, order, m, j, k);
    } else {
      PicksGrow(rows, order, m, k, j);
    }
  }
}
