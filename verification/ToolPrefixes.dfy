/**
 Rewriting bare tool names to their prefixed names (scripts/adapt_skills_for_dsh.py): one
 word-bounded substitution per tool, against one simultaneous map of the words of the text.
 */
module ToolPrefixes {

  datatype Option<+T> = None | Some(value: T)

  predicate WordChar(c: char) {
    'A' <= c <= 'Z' || 'a' <= c <= 'z' || '0' <= c <= '9' || c == '_'
  }

  predicate Word(s: string) {
    s != [] && forall c | c in s :: WordChar(c)
  }

  /** The length of the word a text starts with, 0 when it starts with none. */
  function WordLength(s: string): (n: nat)
    ensures n <= |s| && (forall i | 0 <= i < n :: WordChar(s[i])) && (n < |s| ==> !WordChar(s[n]))
  {
    if s == [] || !WordChar(s[0]) then 0 else 1 + WordLength(s[1..])
  }

  /** The maximal words of a text, in order. */
  function Words(s: string): seq<string>
    decreases |s|
  {
    if s == [] then []
    else if !WordChar(s[0]) then Words(s[1..])
    else
      WordFirst(s);
      [s[..WordLength(s)]] + Words(s[WordLength(s)..])
  }

  /** Every maximal word replaced at once, everything else kept. */
  function MapWords(s: string, f: string -> string): string
    decreases |s|
  {
    if s == [] then []
    else if !WordChar(s[0]) then [s[0]] + MapWords(s[1..], f)
    else
      WordFirst(s);
      f(s[..WordLength(s)]) + MapWords(s[WordLength(s)..], f)
  }

  lemma WordFirst(s: string)
    requires s != [] && WordChar(s[0])
    ensures WordLength(s) > 0
  {
  }

  /** The pattern of one tool matches here: the name, with no word character on either side. */
  predicate MatchesAt(prev: bool, s: string, name: string) {
    !prev && name <= s && (|name| == |s| || !WordChar(s[|name|]))
  }

  /** One pass of the substitution; prev says that a word character comes just before. */
  function Substitute(prev: bool, s: string, name: string, full: string): string
    requires name != []
    decreases |s|
  {
    if s == [] then []
    else if MatchesAt(prev, s, name) then full + Substitute(true, s[|name|..], name, full)
    else [s[0]] + Substitute(WordChar(s[0]), s[1..], name, full)
  }

  /** The pattern is found somewhere in the text. */
  predicate Found(prev: bool, s: string, name: string)
    decreases |s|
  {
    MatchesAt(prev, s, name) || (s != [] && Found(WordChar(s[0]), s[1..], name))
  }

  // ----- one substitution is a map of words

  function Replace(name: string, full: string): string -> string {
    t => if t == name then full else t
  }

  lemma WordLengthTail(s: string)
    requires s != [] && WordChar(s[0])
    ensures WordLength(s) == 1 + WordLength(s[1..])
  {
  }

  lemma Glue(s: string, n: nat, rest: string)
    requires 0 < n <= |s|
    ensures [s[0]] + (s[1..][..n - 1] + rest) == s[..n] + rest && s[1..][n - 1..] == s[n..]
  {
  }

  lemma NoMatchStep(prev: bool, s: string, name: string, full: string)
    requires name != [] && s != [] && !MatchesAt(prev, s, name)
    ensures Substitute(prev, s, name, full) == [s[0]] + Substitute(WordChar(s[0]), s[1..], name, full)
    ensures Found(prev, s, name) <==> Found(WordChar(s[0]), s[1..], name)
  {
  }

  lemma OutsideWord(s: string, name: string)
    requires Word(name) && s != [] && !WordChar(s[0])
    ensures !MatchesAt(false, s, name) && !MatchesAt(true, s, name)
  {
  }

  /** Inside a word nothing matches up to its end. */
  lemma {:induction false} InsideWord(s: string, name: string, full: string)
    requires Word(name)
    ensures Substitute(true, s, name, full)
            == s[..WordLength(s)] + Substitute(false, s[WordLength(s)..], name, full)
    ensures Found(true, s, name) <==> Found(false, s[WordLength(s)..], name)
    decreases |s|
  {
    var n := WordLength(s);
    if s == [] {
    } else if WordChar(s[0]) {
      WordLengthTail(s);
      InsideWord(s[1..], name, full);
      NoMatchStep(true, s, name, full);
      Glue(s, n, Substitute(false, s[n..], name, full));
    } else {
      OutsideWord(s, name);
      NoMatchStep(true, s, name, full);
      NoMatchStep(false, s, name, full);
      assert s[0..] == s;
    }
  }

  lemma {:induction false} WordLengthOf(w: string, rest: string)
    requires (forall c | c in w :: WordChar(c)) && (rest == [] || !WordChar(rest[0]))
    ensures WordLength(w + rest) == |w|
  {
    if w == [] {
      assert w + rest == rest;
    } else {
      assert (w + rest)[1..] == w[1..] + rest;
      WordLengthOf(w[1..], rest);
    }
  }

  /** At the start of a word the pattern matches exactly when the whole word is the name. */
  lemma MatchIsWord(s: string, name: string)
    requires Word(name) && s != [] && WordChar(s[0])
    ensures MatchesAt(false, s, name) <==> s[..WordLength(s)] == name
  {
  }

  lemma SubstituteMatch(s: string, name: string, full: string)
    requires Word(name) && s != [] && WordChar(s[0]) && MatchesAt(false, s, name)
    ensures var n := WordLength(s);
            n > 0 && s[..n] == name
            && Substitute(false, s, name, full) == full + Substitute(false, s[n..], name, full)
  {
  }

  lemma SubstituteMiss(s: string, name: string, full: string)
    requires Word(name) && s != [] && WordChar(s[0]) && !MatchesAt(false, s, name)
    ensures var n := WordLength(s);
            n > 0 && s[..n] != name
            && Substitute(false, s, name, full) == s[..n] + Substitute(false, s[n..], name, full)
  {
    var n := WordLength(s);
    MatchIsWord(s, name);
    WordLengthTail(s);
    NoMatchStep(false, s, name, full);
    InsideWord(s[1..], name, full);
    Glue(s, n, Substitute(false, s[n..], name, full));
  }

  lemma {:induction false} SubstituteMaps(s: string, name: string, full: string)
    requires Word(name)
    ensures Substitute(false, s, name, full) == MapWords(s, Replace(name, full))
    decreases |s|
  {
    if s == [] {
    } else if !WordChar(s[0]) {
      assert name[0] in name;
      SubstituteMaps(s[1..], name, full);
    } else {
      if MatchesAt(false, s, name) {
        SubstituteMatch(s, name, full);
      } else {
        SubstituteMiss(s, name, full);
      }
      SubstituteMaps(s[WordLength(s)..], name, full);
    }
  }

  lemma {:induction false} FoundIsWord(s: string, name: string)
    requires Word(name)
    ensures Found(false, s, name) <==> name in Words(s)
    decreases |s|
  {
    if s == [] {
    } else if !WordChar(s[0]) {
      assert name[0] in name;
      FoundIsWord(s[1..], name);
    } else {
      var n := WordLength(s);
      WordFirst(s);
      MatchIsWord(s, name);
      FoundIsWord(s[n..], name);
      WordLengthTail(s);
      InsideWord(s[1..], name, name);
      assert s[1..][n - 1..] == s[n..];
    }
  }

  // ----- maps of words compose

  ghost predicate WordsToWords(f: string -> string) {
    forall t | Word(t) :: Word(f(t))
  }

  lemma MapStartsAlike(s: string, f: string -> string)
    requires s == [] || !WordChar(s[0])
    ensures MapWords(s, f) == [] || !WordChar(MapWords(s, f)[0])
  {
  }

  /** The mapped text is cut into words where the text was. */
  lemma MapHead(s: string, f: string -> string)
    requires WordsToWords(f) && s != [] && WordChar(s[0])
    ensures var n := WordLength(s); var w, rest := f(s[..n]), MapWords(s[n..], f);
            && n > 0 && MapWords(s, f) == w + rest && Word(w)
            && WordLength(w + rest) == |w| && (w + rest)[..|w|] == w && (w + rest)[|w|..] == rest
            && WordChar((w + rest)[0])
  {
    WordFirst(s);
    var n := WordLength(s);
    var w, rest := f(s[..n]), MapWords(s[n..], f);
    assert Word(s[..n]);
    MapStartsAlike(s[n..], f);
    WordLengthOf(w, rest);
    assert w[0] in w;
  }

  lemma {:induction false} MapsCompose(s: string, f: string -> string, g: string -> string)
    requires WordsToWords(f)
    ensures MapWords(MapWords(s, f), g) == MapWords(s, t => g(f(t)))
    decreases |s|
  {
    if s == [] {
    } else if !WordChar(s[0]) {
      MapsCompose(s[1..], f, g);
      assert MapWords(s, f)[1..] == MapWords(s[1..], f);
    } else {
      MapHead(s, f);
      MapsCompose(s[WordLength(s)..], f, g);
    }
  }

  function Each(f: string -> string, ws: seq<string>): seq<string> {
    if ws == [] then [] else [f(ws[0])] + Each(f, ws[1..])
  }

  /** The words of the mapped text are the mapped words. */
  lemma {:induction false} WordsOfMap(s: string, f: string -> string)
    requires WordsToWords(f)
    ensures Words(MapWords(s, f)) == Each(f, Words(s))
    decreases |s|
  {
    if s == [] {
    } else if !WordChar(s[0]) {
      WordsOfMap(s[1..], f);
      assert MapWords(s, f)[1..] == MapWords(s[1..], f);
    } else {
      var n := WordLength(s);
      MapHead(s, f);
      WordsOfMap(s[n..], f);
      assert Words(s) == [s[..n]] + Words(s[n..]);
      assert Words(s)[1..] == Words(s[n..]);
    }
  }

  lemma {:induction false} SameOnWords(s: string, f: string -> string, g: string -> string)
    requires forall t | t in Words(s) :: f(t) == g(t)
    ensures MapWords(s, f) == MapWords(s, g)
    decreases |s|
  {
    if s == [] {
    } else if !WordChar(s[0]) {
      SameOnWords(s[1..], f, g);
    } else {
      var n := WordLength(s);
      WordFirst(s);
      assert Words(s) == [s[..n]] + Words(s[n..]);
      SameOnWords(s[n..], f, g);
    }
  }

  lemma {:induction false} OneWord(t: string, f: string -> string)
    requires Word(t)
    ensures Words(t) == [t] && MapWords(t, f) == f(t)
  {
    WordLengthOf(t, []);
    assert t + [] == t;
    assert t[0] in t;
    assert t[..|t|] == t && t[|t|..] == [];
  }

  // ----- one substitution per tool

  /** Tools are words, and a prefixed name is a longer word. */
  ghost predicate Table(table: map<string, string>) {
    forall t | t in table :: Word(t) && Word(table[t]) && |table[t]| > |t|
  }

  /** Each tool once, in some order. */
  ghost predicate Arranges(order: seq<string>, table: map<string, string>) {
    && (forall t :: t in order <==> t in table)
    && forall i, j | 0 <= i < j < |order| :: order[i] != order[j]
  }

  ghost predicate LongestFirst(order: seq<string>) {
    forall i, j | 0 <= i < j < |order| :: |order[i]| >= |order[j]|
  }

  /** No prefixed name is itself a tool name. */
  ghost predicate NoneIsTool(table: map<string, string>) {
    forall t | t in table :: table[t] !in table
  }

  /** No prefixed name is a tool whose own turn comes later. */
  ghost predicate NoLaterTurn(order: seq<string>, table: map<string, string>) {
    forall i, j | 0 <= i < j < |order| && order[i] in table :: table[order[i]] != order[j]
  }

  function All(table: map<string, string>): string -> string {
    t => if t in table then table[t] else t
  }

  /** What the substitutions make of one word, one after the other. */
  function Chain(order: seq<string>, table: map<string, string>, t: string): string {
    if order == [] then t
    else
      var u, tool := Chain(order[..|order| - 1], table, t), order[|order| - 1];
      if u == tool && tool in table then table[tool] else u
  }

  function Rewritten(text: string, order: seq<string>, table: map<string, string>): string
    requires forall t | t in order :: t in table && t != []
  {
    if order == [] then text
    else
      Substitute(false, Rewritten(text, order[..|order| - 1], table), order[|order| - 1], table[order[|order| - 1]])
  }

  lemma {:induction false} ChainIsWord(order: seq<string>, table: map<string, string>, t: string)
    requires Table(table) && Word(t)
    ensures Word(Chain(order, table, t)) && |Chain(order, table, t)| >= |t|
  {
    if order != [] {
      ChainIsWord(order[..|order| - 1], table, t);
    }
  }

  lemma {:induction false} RewrittenMaps(text: string, order: seq<string>, table: map<string, string>)
    requires Table(table) && forall t | t in order :: t in table && t != []
    ensures Rewritten(text, order, table) == MapWords(text, t => Chain(order, table, t))
  {
    if order == [] {
      Unmapped(text, t => Chain(order, table, t));
    } else {
      var k := |order| - 1;
      var tool := order[k];
      var before := (t: string) => Chain(order[..k], table, t);
      RewrittenMaps(text, order[..k], table);
      forall t | Word(t) ensures Word(before(t)) {
        ChainIsWord(order[..k], table, t);
      }
      SubstituteMaps(Rewritten(text, order[..k], table), tool, table[tool]);
      MapsCompose(text, before, Replace(tool, table[tool]));
      SameOnWords(text, t => Replace(tool, table[tool])(before(t)), t => Chain(order, table, t));
    }
  }

  lemma {:induction false} Unmapped(s: string, f: string -> string)
    requires forall t :: f(t) == t
    ensures MapWords(s, f) == s
    decreases |s|
  {
    if s == [] {
    } else if !WordChar(s[0]) {
      Unmapped(s[1..], f);
    } else {
      WordFirst(s);
      Unmapped(s[WordLength(s)..], f);
    }
  }

  /** No step meets the outcome of an earlier one. */
  lemma {:induction false} ChainOnce(order: seq<string>, table: map<string, string>, t: string)
    requires (forall x | x in order :: x in table) && NoLaterTurn(order, table)
    requires forall i, j | 0 <= i < j < |order| :: order[i] != order[j]
    ensures Chain(order, table, t) == if t in order then table[t] else t
  {
    if order != [] {
      var k := |order| - 1;
      assert order == order[..k] + [order[k]];
      ChainOnce(order[..k], table, t);
      assert order[k] !in order[..k];
      if t in order[..k] {
        var i :| 0 <= i < k && order[i] == t;
        assert table[order[i]] != order[k];
      }
    }
  }

  lemma RewrittenAtOnce(text: string, order: seq<string>, table: map<string, string>)
    requires Table(table) && Arranges(order, table) && NoLaterTurn(order, table)
    ensures Rewritten(text, order, table) == MapWords(text, All(table))
  {
    RewrittenMaps(text, order, table);
    forall t | t in Words(text) ensures Chain(order, table, t) == All(table)(t) {
      ChainOnce(order, table, t);
    }
    SameOnWords(text, t => Chain(order, table, t), All(table));
  }

  /** Longest name first, the substitutions are one simultaneous pass, whatever the tools are; in
      any other order they are one when no prefixed name is a tool. */
  lemma SequentialIsSimultaneous(text: string, order: seq<string>, table: map<string, string>)
    requires Table(table) && Arranges(order, table) && (LongestFirst(order) || NoneIsTool(table))
    ensures Rewritten(text, order, table) == MapWords(text, All(table))
  {
    forall i, j | 0 <= i < j < |order| && order[i] in table ensures table[order[i]] != order[j] {
      assert order[j] in table;
      assert LongestFirst(order) ==> |order[i]| >= |order[j]|;
    }
    RewrittenAtOnce(text, order, table);
  }

  lemma {:induction false} ChainSplit(order: seq<string>, table: map<string, string>, t: string, i: nat)
    requires i <= |order|
    ensures Chain(order, table, t) == Chain(order[i..], table, Chain(order[..i], table, t))
    decreases |order|
  {
    if i < |order| {
      var k := |order| - 1;
      ChainSplit(order[..k], table, t, i);
      assert order[..k][i..] == order[i..][..k - i] && order[..k][..i] == order[..i];
    } else {
      assert order[..i] == order && order[i..] == [];
    }
  }

  lemma ChainTurn(order: seq<string>, table: map<string, string>, t: string, k: nat)
    requires k < |order| && order[k] in table
    ensures Chain(order[..k + 1], table, t)
            == if Chain(order[..k], table, t) == order[k] then table[order[k]] else Chain(order[..k], table, t)
  {
    assert order[..k + 1][..k] == order[..k] && order[..k + 1][k] == order[k];
  }

  lemma {:induction false} ChainHolds(order: seq<string>, table: map<string, string>, t: string, i: nat, j: nat)
    requires i <= j <= |order| && (forall x | x in order :: x in table)
    requires forall k | i <= k < j :: order[k] != Chain(order[..i], table, t)
    ensures Chain(order[..j], table, t) == Chain(order[..i], table, t)
    decreases j
  {
    if i < j {
      ChainHolds(order, table, t, i, j - 1);
      ChainTurn(order, table, t, j - 1);
    }
  }

  lemma ChainTwice(order: seq<string>, table: map<string, string>, i: nat, j: nat)
    requires Arranges(order, table) && i < j < |order| && table[order[i]] == order[j]
    ensures Chain(order[..j + 1], table, order[i]) == table[order[j]]
  {
    var t := order[i];
    assert order[..0] == [];
    ChainHolds(order, table, t, 0, i);
    ChainTurn(order, table, t, i);
    ChainHolds(order, table, t, i + 1, j);
    ChainTurn(order, table, t, j);
  }

  lemma ChainLonger(order: seq<string>, table: map<string, string>, i: nat, j: nat)
    requires Table(table) && Arranges(order, table) && i < j < |order| && table[order[i]] == order[j]
    ensures |Chain(order, table, order[i])| > |table[order[i]]|
  {
    ChainTwice(order, table, i, j);
    ChainSplit(order, table, order[i], j + 1);
    ChainIsWord(order[j + 1..], table, table[order[j]]);
  }

  /** When a prefixed name is a tool and its own turn comes later, the order shows. */
  lemma WrongOrderDiffers(order: seq<string>, table: map<string, string>, i: nat, j: nat)
    requires Table(table) && Arranges(order, table) && i < j < |order| && table[order[i]] == order[j]
    ensures Rewritten(order[i], order, table) != MapWords(order[i], All(table))
  {
    ChainLonger(order, table, i, j);
    RewrittenMaps(order[i], order, table);
    OneWord(order[i], x => Chain(order, table, x));
    OneWord(order[i], All(table));
  }

  /** In a given order the substitutions are one simultaneous pass on every text if and only if no
      prefixed name is a tool whose own turn comes later. */
  lemma SimultaneousIff(order: seq<string>, table: map<string, string>)
    requires Table(table) && Arranges(order, table)
    ensures (forall text :: Rewritten(text, order, table) == MapWords(text, All(table))) <==> NoLaterTurn(order, table)
  {
    if NoLaterTurn(order, table) {
      forall text ensures Rewritten(text, order, table) == MapWords(text, All(table)) {
        RewrittenAtOnce(text, order, table);
      }
    } else {
      var i, j :| 0 <= i < j < |order| && order[i] in table && table[order[i]] == order[j];
      WrongOrderDiffers(order, table, i, j);
    }
  }

  // ----- what the simultaneous pass guarantees

  lemma {:induction false} EachAt(f: string -> string, ws: seq<string>)
    ensures |Each(f, ws)| == |ws| && forall i | 0 <= i < |ws| :: Each(f, ws)[i] == f(ws[i])
  {
    if ws != [] {
      EachAt(f, ws[1..]);
    }
  }

  lemma AllIsWords(table: map<string, string>)
    requires Table(table)
    ensures WordsToWords(All(table))
  {
  }

  /** The words stay in number and place, and a word that is no tool is not touched, however it
      overlaps with one. */
  lemma OtherWordsKept(text: string, table: map<string, string>)
    requires Table(table)
    ensures var before, after := Words(text), Words(MapWords(text, All(table)));
            |after| == |before|
            && forall i | 0 <= i < |before| :: after[i] == if before[i] in table then table[before[i]] else before[i]
  {
    AllIsWords(table);
    WordsOfMap(text, All(table));
    EachAt(All(table), Words(text));
  }

  /** No word of the text is a tool whose prefixed name is a tool. */
  ghost predicate Settles(text: string, table: map<string, string>) {
    forall t | t in Words(text) && t in table :: table[t] !in table
  }

  /** The rewritten text contains no bare tool name exactly when no tool in it is prefixed to another
      tool's name. */
  lemma CleanIff(text: string, table: map<string, string>)
    requires Table(table)
    ensures (forall tool | tool in table :: !Found(false, MapWords(text, All(table)), tool)) <==> Settles(text, table)
  {
    var after := MapWords(text, All(table));
    OtherWordsKept(text, table);
    var ws := Words(text);
    forall tool | tool in table
      ensures Found(false, after, tool) <==> tool in Words(after)
    {
      FoundIsWord(after, tool);
    }
    if !Settles(text, table) {
      var t :| t in ws && t in table && table[t] in table;
      var i :| 0 <= i < |ws| && ws[i] == t;
      assert Words(after)[i] == table[t];
    }
  }

  /** A second pass changes nothing under exactly the same condition. */
  lemma IdempotentIff(text: string, table: map<string, string>)
    requires Table(table)
    ensures MapWords(MapWords(text, All(table)), All(table)) == MapWords(text, All(table)) <==> Settles(text, table)
  {
    var once := MapWords(text, All(table));
    if Settles(text, table) {
      AllIsWords(table);
      MapsCompose(text, All(table), All(table));
      SameOnWords(text, t => All(table)(All(table)(t)), All(table));
    } else {
      var t :| t in Words(text) && t in table && table[t] in table;
      var i :| 0 <= i < |Words(text)| && Words(text)[i] == t;
      OtherWordsKept(text, table);
      OtherWordsKept(once, table);
      assert Words(once)[i] == table[t];
      assert Words(MapWords(once, All(table)))[i] == table[table[t]];
      assert |table[table[t]]| > |table[t]|;
    }
  }

  // ----- the rewriting, written out

  /** A digit, a letter or the underscore, by code point. */
  predicate WordCode(c: char) {
    48 <= c as int <= 57 || 65 <= c as int <= 90 || c as int == 95 || 97 <= c as int <= 122
  }

  ghost predicate AllWord(s: string) {
    forall i | 0 <= i < |s| :: WordCode(s[i])
  }

  ghost predicate NoWord(s: string) {
    forall i | 0 <= i < |s| :: !WordCode(s[i])
  }

  /** A text cut into words and the gaps around them: between two words there is always a gap. */
  ghost predicate Cut(gaps: seq<string>, ws: seq<string>) {
    && |gaps| == |ws| + 1
    && (forall i | 0 <= i < |ws| :: ws[i] != [] && AllWord(ws[i]))
    && (forall i | 0 <= i < |gaps| :: NoWord(gaps[i]))
    && forall i | 0 < i < |ws| :: gaps[i] != []
  }

  function Woven(gaps: seq<string>, ws: seq<string>): string
    requires |gaps| == |ws| + 1
  {
    if ws == [] then gaps[0] else gaps[0] + (ws[0] + Woven(gaps[1..], ws[1..]))
  }

  function Images(ws: seq<string>, table: map<string, string>): seq<string> {
    seq(|ws|, i requires 0 <= i < |ws| => if ws[i] in table then table[ws[i]] else ws[i])
  }

  /** However the text is cut, the gaps stay and each word that is a tool becomes its full name. */
  ghost predicate RewrittenAs(text: string, out: string, table: map<string, string>) {
    forall gaps, ws | Cut(gaps, ws) :: Woven(gaps, ws) == text ==> out == Woven(gaps, Images(ws, table))
  }

  lemma CutTail(gaps: seq<string>, ws: seq<string>)
    requires Cut(gaps, ws) && ws != []
    ensures Cut(gaps[1..], ws[1..])
  {
  }

  lemma WordCodes(c: char)
    ensures WordCode(c) <==> WordChar(c)
  {
  }

  lemma {:induction false} GapFirst(gap: string, rest: string, f: string -> string)
    requires NoWord(gap)
    ensures MapWords(gap + rest, f) == gap + MapWords(rest, f) && Words(gap + rest) == Words(rest)
  {
    if gap == [] {
      assert gap + rest == rest;
    } else {
      WordCodes(gap[0]);
      GapFirst(gap[1..], rest, f);
      assert (gap + rest)[1..] == gap[1..] + rest;
      assert gap + MapWords(rest, f) == [gap[0]] + (gap[1..] + MapWords(rest, f));
    }
  }

  lemma WordAtHead(w: string, rest: string, f: string -> string)
    requires w != [] && AllWord(w) && (rest == [] || !WordCode(rest[0]))
    ensures MapWords(w + rest, f) == f(w) + MapWords(rest, f) && Words(w + rest) == [w] + Words(rest)
  {
    forall c | c in w ensures WordChar(c) {
      WordCodes(c);
    }
    if rest != [] {
      WordCodes(rest[0]);
    }
    WordLengthOf(w, rest);
    assert (w + rest)[..|w|] == w && (w + rest)[|w|..] == rest;
    assert (w + rest)[0] == w[0] && w[0] in w;
  }

  lemma WovenStarts(gaps: seq<string>, ws: seq<string>)
    requires Cut(gaps, ws) && (ws != [] ==> gaps[0] != [])
    ensures Woven(gaps, ws) == [] || !WordCode(Woven(gaps, ws)[0])
  {
  }

  lemma {:induction false} WovenMaps(gaps: seq<string>, ws: seq<string>, table: map<string, string>)
    requires Cut(gaps, ws)
    ensures MapWords(Woven(gaps, ws), All(table)) == Woven(gaps, Images(ws, table))
    ensures Words(Woven(gaps, ws)) == ws
    decreases |ws|
  {
    if ws == [] {
      GapFirst(gaps[0], [], All(table));
      assert gaps[0] + [] == gaps[0];
    } else {
      var rest := Woven(gaps[1..], ws[1..]);
      CutTail(gaps, ws);
      WovenMaps(gaps[1..], ws[1..], table);
      GapFirst(gaps[0], ws[0] + rest, All(table));
      assert |ws| > 1 ==> gaps[1..][0] != [];
      WovenStarts(gaps[1..], ws[1..]);
      WordAtHead(ws[0], rest, All(table));
      assert Images(ws, table)[1..] == Images(ws[1..], table);
      assert ws == [ws[0]] + ws[1..];
    }
  }

  lemma CutWord(w: string, after: seq<string>, more: seq<string>)
    requires Cut(after, more) && w != [] && AllWord(w) && (more != [] ==> after[0] != [])
    ensures Cut([[]] + after, [w] + more) && Woven([[]] + after, [w] + more) == w + Woven(after, more)
  {
    var gaps, ws := [[]] + after, [w] + more;
    assert gaps[1..] == after && ws[1..] == more;
  }

  lemma CutGap(c: char, after: seq<string>, more: seq<string>)
    requires Cut(after, more) && !WordCode(c)
    ensures var gaps := [[c] + after[0]] + after[1..];
            Cut(gaps, more) && Woven(gaps, more) == [c] + Woven(after, more)
  {
    var gaps := [[c] + after[0]] + after[1..];
    assert gaps[1..] == after[1..];
    if more != [] {
      assert [c] + after[0] + (more[0] + Woven(after[1..], more[1..]))
          == [c] + (after[0] + (more[0] + Woven(after[1..], more[1..])));
    }
  }

  lemma FirstIsWord(text: string)
    ensures AllWord(text[..WordLength(text)])
    ensures var rest := text[WordLength(text)..]; rest == [] || !WordChar(rest[0])
  {
    forall i | 0 <= i < WordLength(text) ensures WordCode(text[i]) {
      WordCodes(text[i]);
    }
  }

  /** Every text can be cut, so what a rewriting makes of it is determined. */
  lemma {:induction false} CutExists(text: string) returns (gaps: seq<string>, ws: seq<string>)
    ensures Cut(gaps, ws) && Woven(gaps, ws) == text
    ensures ws != [] && (text == [] || !WordChar(text[0])) ==> gaps[0] != []
    decreases |text|
  {
    if text == [] {
      gaps, ws := [[]], [];
    } else if WordChar(text[0]) {
      WordFirst(text);
      var n := WordLength(text);
      var after, more := CutExists(text[n..]);
      FirstIsWord(text);
      CutWord(text[..n], after, more);
      gaps, ws := [[]] + after, [text[..n]] + more;
      assert text == text[..n] + text[n..];
    } else {
      WordCodes(text[0]);
      var after, more := CutExists(text[1..]);
      CutGap(text[0], after, more);
      gaps, ws := [[text[0]] + after[0]] + after[1..], more;
      assert text == [text[0]] + text[1..];
    }
  }

  lemma RewriteIsWritten(text: string, table: map<string, string>)
    ensures RewrittenAs(text, MapWords(text, All(table)), table)
  {
    forall gaps, ws | Cut(gaps, ws)
      ensures Woven(gaps, ws) == text ==> MapWords(text, All(table)) == Woven(gaps, Images(ws, table))
    {
      WovenMaps(gaps, ws, table);
    }
  }

  // ----- the program

  datatype Server = Server(name: string, tools: seq<string>)

  function Full(server: string, tool: string): string {
    "mcp__" + server + "__" + tool
  }

  lemma FullTellsServer(a: string, b: string, tool: string)
    requires Full(a, tool) == Full(b, tool)
    ensures a == b
  {
    assert |a| == |b|;
    assert Full(a, tool)[5..5 + |a|] == a && Full(b, tool)[5..5 + |b|] == b;
  }

  /** Server s registers the tool among the first i servers and the first j tools of the next. */
  ghost predicate Before(servers: seq<Server>, i: nat, j: nat, s: string, tool: string) {
    exists a, b :: 0 <= a < |servers| && 0 <= b < |servers[a].tools| && (a < i || (a == i && b < j))
                   && servers[a].name == s && servers[a].tools[b] == tool
  }

  ghost predicate Registered(servers: seq<Server>, s: string, tool: string) {
    Before(servers, |servers|, 0, s, tool)
  }

  /** No tool is registered by two servers. */
  ghost predicate Unambiguous(servers: seq<Server>) {
    forall a, b, tool :: Registered(servers, a, tool) && Registered(servers, b, tool) ==> a == b
  }

  ghost predicate HasServer(servers: seq<Server>, i: nat, j: nat, tool: string) {
    exists s :: Before(servers, i, j, s, tool)
  }

  /** The table of what comes before this point. */
  ghost predicate TableOf(table: map<string, string>, servers: seq<Server>, i: nat, j: nat) {
    && (forall s, tool | Before(servers, i, j, s, tool) :: tool in table && table[tool] == Full(s, tool))
    && (forall tool | tool in table :: HasServer(servers, i, j, tool))
  }

  lemma BeforeStep(servers: seq<Server>, i: nat, j: nat, s: string, tool: string)
    requires i < |servers| && j < |servers[i].tools|
    ensures Before(servers, i, j + 1, s, tool)
            <==> Before(servers, i, j, s, tool) || (s == servers[i].name && tool == servers[i].tools[j])
  {
  }

  lemma BeforeNext(servers: seq<Server>, i: nat, s: string, tool: string)
    requires i < |servers|
    ensures Before(servers, i, |servers[i].tools|, s, tool) <==> Before(servers, i + 1, 0, s, tool)
  {
  }

  lemma BeforeIsRegistered(servers: seq<Server>, i: nat, j: nat, s: string, tool: string)
    requires Before(servers, i, j, s, tool)
    ensures Registered(servers, s, tool)
  {
  }

  lemma TableStep(table: map<string, string>, servers: seq<Server>, i: nat, j: nat, k: nat)
    requires i < |servers| && j < |servers[i].tools| && k == j + 1 && TableOf(table, servers, i, j)
    requires var tool := servers[i].tools[j]; tool in table ==> table[tool] == Full(servers[i].name, tool)
    ensures var tool := servers[i].tools[j];
            TableOf(table[tool := Full(servers[i].name, tool)], servers, i, k)
  {
    var tool := servers[i].tools[j];
    var next := table[tool := Full(servers[i].name, tool)];
    forall s, t | Before(servers, i, k, s, t) ensures t in next && next[t] == Full(s, t) {
      BeforeStep(servers, i, j, s, t);
    }
    forall t | t in next ensures HasServer(servers, i, k, t) {
      if t == tool {
        BeforeStep(servers, i, j, servers[i].name, t);
      } else {
        assert HasServer(servers, i, j, t);
        var s :| Before(servers, i, j, s, t);
        BeforeStep(servers, i, j, s, t);
      }
    }
  }

  lemma TableNext(table: map<string, string>, servers: seq<Server>, i: nat, k: nat)
    requires i < |servers| && k == i + 1 && TableOf(table, servers, i, |servers[i].tools|)
    ensures TableOf(table, servers, k, 0)
  {
    forall s, t | Before(servers, k, 0, s, t) ensures t in table && table[t] == Full(s, t) {
      BeforeNext(servers, i, s, t);
    }
    forall t | t in table ensures HasServer(servers, k, 0, t) {
      assert HasServer(servers, i, |servers[i].tools|, t);
      var s :| Before(servers, i, |servers[i].tools|, s, t);
      BeforeNext(servers, i, s, t);
    }
  }

  /** A name that is in the table with another prefix belongs to two servers. */
  lemma Clash(table: map<string, string>, servers: seq<Server>, i: nat, j: nat)
    requires i < |servers| && j < |servers[i].tools| && TableOf(table, servers, i, j)
    requires var tool := servers[i].tools[j]; tool in table && table[tool] != Full(servers[i].name, tool)
    ensures !Unambiguous(servers)
  {
    var tool := servers[i].tools[j];
    assert HasServer(servers, i, j, tool);
    var other :| Before(servers, i, j, other, tool);
    BeforeStep(servers, i, j, servers[i].name, tool);
    BeforeIsRegistered(servers, i, j, other, tool);
    BeforeIsRegistered(servers, i, j + 1, servers[i].name, tool);
  }

  predicate HasTool(servers: seq<Server>, a: nat, tool: string) {
    a < |servers| && tool in servers[a].tools
  }

  /** Two servers of different names register a tool of the same name. */
  ghost predicate TwoServers(servers: seq<Server>) {
    exists a: nat, b: nat, tool ::
      HasTool(servers, a, tool) && HasTool(servers, b, tool) && servers[a].name != servers[b].name
  }

  /** Every tool of every server under its full name, and nothing else. */
  ghost predicate PrefixesOf(table: map<string, string>, servers: seq<Server>) {
    && (forall a: nat, tool | HasTool(servers, a, tool) ::
          tool in table && table[tool] == "mcp__" + servers[a].name + "__" + tool)
    && forall tool | tool in table :: exists a: nat :: HasTool(servers, a, tool)
  }

  lemma HasToolIsRegistered(servers: seq<Server>, a: nat, tool: string)
    requires HasTool(servers, a, tool)
    ensures Registered(servers, servers[a].name, tool)
  {
    var b :| 0 <= b < |servers[a].tools| && servers[a].tools[b] == tool;
    assert servers[a].tools[b] == tool && servers[a].name == servers[a].name;
  }

  lemma AmbiguousIff(servers: seq<Server>)
    ensures Unambiguous(servers) <==> !TwoServers(servers)
  {
    forall a: nat, tool | HasTool(servers, a, tool) ensures Registered(servers, servers[a].name, tool) {
      HasToolIsRegistered(servers, a, tool);
    }
    if !Unambiguous(servers) {
      var x, y, tool :| Registered(servers, x, tool) && Registered(servers, y, tool) && x != y;
      var a, i :| 0 <= a < |servers| && 0 <= i < |servers[a].tools| && (a < |servers| || (a == |servers| && i < 0))
                  && servers[a].name == x && servers[a].tools[i] == tool;
      var b, j :| 0 <= b < |servers| && 0 <= j < |servers[b].tools| && (b < |servers| || (b == |servers| && j < 0))
                  && servers[b].name == y && servers[b].tools[j] == tool;
      assert HasTool(servers, a, tool) && HasTool(servers, b, tool);
    }
  }

  lemma TableIsWritten(table: map<string, string>, servers: seq<Server>)
    requires TableOf(table, servers, |servers|, 0)
    ensures PrefixesOf(table, servers)
  {
    forall a: nat, tool | HasTool(servers, a, tool)
      ensures tool in table && table[tool] == "mcp__" + servers[a].name + "__" + tool
    {
      HasToolIsRegistered(servers, a, tool);
    }
    forall tool | tool in table ensures exists a: nat :: HasTool(servers, a, tool) {
      assert HasServer(servers, |servers|, 0, tool);
      var s :| Before(servers, |servers|, 0, s, tool);
      var a, b :| 0 <= a < |servers| && 0 <= b < |servers[a].tools| && (a < |servers| || (a == |servers| && b < 0))
                  && servers[a].name == s && servers[a].tools[b] == tool;
      assert HasTool(servers, a, tool);
    }
  }

  /** tool_to_prefixed: the table, or a refusal when a tool name belongs to two servers. */
  method ToolToPrefixed(servers: seq<Server>) returns (result: Option<map<string, string>>)
    ensures result.Some? <==> Unambiguous(servers)
    ensures result.Some? ==> TableOf(result.value, servers, |servers|, 0)
    ensures result == None <==> TwoServers(servers)
    ensures result.Some? ==> PrefixesOf(result.value, servers)
  {
    AmbiguousIff(servers);
    var table: map<string, string> := map[];
    for i := 0 to |servers|
      invariant TableOf(table, servers, i, 0)
    {
      for j := 0 to |servers[i].tools|
        invariant TableOf(table, servers, i, j)
      {
        var tool := servers[i].tools[j];
        var full := Full(servers[i].name, tool);
        if tool in table && table[tool] != full {
          Clash(table, servers, i, j);
          return None;
        }
        TableStep(table, servers, i, j, j + 1);
        table := table[tool := full];
      }
      TableNext(table, servers, i, i + 1);
    }
    forall a, b, tool | Registered(servers, a, tool) && Registered(servers, b, tool) ensures a == b {
      FullTellsServer(a, b, tool);
    }
    TableIsWritten(table, servers);
    return Some(table);
  }

  /** Servers and tools have identifiers for names. */
  ghost predicate Identifiers(servers: seq<Server>) {
    forall a | 0 <= a < |servers| ::
      Word(servers[a].name) && forall b | 0 <= b < |servers[a].tools| :: Word(servers[a].tools[b])
  }

  lemma TableIsTable(table: map<string, string>, servers: seq<Server>)
    requires Identifiers(servers) && TableOf(table, servers, |servers|, 0)
    ensures Table(table)
  {
  }

  ghost predicate Distinct(order: seq<string>) {
    forall i, j | 0 <= i < j < |order| :: order[i] != order[j]
  }

  function Placed(order: seq<string>, t: string, k: nat): seq<string>
    requires k <= |order|
  {
    order[..k] + [t] + order[k..]
  }

  lemma PlacedHas(order: seq<string>, t: string, k: nat)
    requires k <= |order|
    ensures forall x :: x in Placed(order, t, k) <==> x in order || x == t
  {
  }

  lemma PlaceTool(order: seq<string>, t: string, k: nat)
    requires LongestFirst(order) && Distinct(order) && t !in order && k <= |order|
    requires forall i | 0 <= i < k :: |order[i]| >= |t|
    requires k < |order| ==> |order[k]| < |t|
    ensures LongestFirst(Placed(order, t, k)) && Distinct(Placed(order, t, k))
  {
  }

  /** The tools by falling length. */
  method SortByLength(tools: set<string>) returns (order: seq<string>)
    ensures LongestFirst(order) && Distinct(order) && forall t :: t in order <==> t in tools
  {
    order := [];
    var todo := tools;
    while todo != {}
      invariant LongestFirst(order) && Distinct(order) && todo <= tools
      invariant forall t :: t in order <==> t in tools - todo
      decreases |todo|
    {
      var t :| t in todo;
      var k := 0;
      while k < |order| && |order[k]| >= |t|
        invariant k <= |order|
        invariant forall i | 0 <= i < k :: |order[i]| >= |t|
      {
        k := k + 1;
      }
      PlaceTool(order, t, k);
      PlacedHas(order, t, k);
      order := Placed(order, t, k);
      todo := todo - {t};
    }
  }

  /** The tool step of mechanical_rewrite: one substitution per tool, longest name first. */
  method RewriteTools(text: string, table: map<string, string>) returns (out: string)
    requires Table(table)
    ensures out == MapWords(text, All(table)) && RewrittenAs(text, out, table)
  {
    RewriteIsWritten(text, table);
    var order := SortByLength(table.Keys);
    out := text;
    for i := 0 to |order|
      invariant forall t | t in order :: t in table && t != []
      invariant out == Rewritten(text, order[..i], table)
    {
      assert order[..i + 1][..i] == order[..i];
      out := Substitute(false, out, order[i], table[order[i]]);
    }
    assert order[..|order|] == order;
    SequentialIsSimultaneous(text, order, table);
  }

  /** The bare-name check: the tools still found in a text. */
  method BareNames(text: string, table: map<string, string>) returns (leftovers: set<string>)
    requires Table(table)
    ensures leftovers == set t | t in table && t in Words(text)
    ensures forall gaps, ws | Cut(gaps, ws) :: Woven(gaps, ws) == text ==> leftovers == set t | t in table && t in ws
  {
    forall gaps, ws | Cut(gaps, ws) ensures Woven(gaps, ws) == text ==> Words(text) == ws {
      WovenMaps(gaps, ws, table);
    }
    leftovers := {};
    var todo := table.Keys;
    while todo != {}
      invariant todo <= table.Keys
      invariant leftovers == set t | t in table && t !in todo && t in Words(text)
      decreases |todo|
    {
      var t :| t in todo;
      FoundIsWord(text, t);
      if Found(false, text, t) {
        leftovers := leftovers + {t};
      }
      todo := todo - {t};
    }
  }
}
