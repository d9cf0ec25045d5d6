/**
 What the trimmer of wiki extracts returns (_trim_extract in pipeline/wiki.py), written out for the
 rows of a text: which of them stay, and in which form.
 */
module TrimResult {
  import opened TrimExtract

  /** White space by code point. */
  predicate SpaceCode(c: char) {
    var n := c as int;
    || 9 <= n <= 13 || 28 <= n <= 32 || n == 133 || n == 160 || n == 5760 || 8192 <= n <= 8202
    || n == 8232 || n == 8233 || n == 8239 || n == 8287 || n == 12288
  }

  /** The line without the white space around it. */
  ghost predicate BareOf(line: string, bare: string) {
    exists n :: 0 <= n <= n + |bare| <= |line| && BareAt(line, bare, n)
  }

  ghost predicate BareAt(line: string, bare: string, n: nat)
    requires n + |bare| <= |line|
  {
    && line[n..n + |bare|] == bare
    && (forall i | 0 <= i < n :: SpaceCode(line[i]))
    && (forall i | n + |bare| <= i < |line| :: SpaceCode(line[i]))
    && (bare != [] ==> !SpaceCode(bare[0]) && !SpaceCode(bare[|bare| - 1]))
  }

  ghost predicate BlankLine(line: string) {
    forall i | 0 <= i < |line| :: SpaceCode(line[i])
  }

  /** One of ! ) , . : ? by code point. */
  predicate EndCode(c: char) {
    var n := c as int;
    n == 33 || n == 41 || n == 44 || n == 46 || n == 58 || n == 63
  }

  ghost predicate HeadingLine(line: string) {
    exists bare :: BareOf(line, bare) && 1 <= |bare| <= 60 && !EndCode(bare[|bare| - 1])
  }

  /** How the rows of a text are told apart, and what a row is without its white space. */
  datatype View = View(blank: string -> bool, heading: string -> bool, bare: (string, string) -> bool)

  ghost function Written(): View {
    View(l => BlankLine(l), l => HeadingLine(l), (l, t) => BareOf(l, t))
  }

  ghost predicate BodyFollows(v: View, raw: seq<string>, i: nat, j: nat) {
    i < j < |raw| && !v.blank(raw[j]) && !v.heading(raw[j]) && forall k | i < k < j :: !v.heading(raw[k])
  }

  /** A line of text, or a heading with a line of text before the next heading. */
  ghost predicate Stays(v: View, raw: seq<string>, i: nat)
    requires i < |raw|
  {
    !v.blank(raw[i]) && (v.heading(raw[i]) ==> exists j :: BodyFollows(v, raw, i, j))
  }

  function Rows(ls: seq<string>): string {
    if ls == [] then "" else if |ls| == 1 then ls[0] else ls[0] + "\n" + Rows(ls[1..])
  }

  /** The lines are the bare forms of exactly the staying rows, in their order. */
  ghost predicate Selects(v: View, raw: seq<string>, from: seq<nat>, ls: seq<string>, start: nat) {
    && |from| == |ls|
    && (forall k | 0 <= k < |from| :: start <= from[k] && RowOf(v, raw, from[k], ls[k]))
    && (forall k, l | 0 <= k < l < |from| :: from[k] < from[l])
    && forall i | start <= i < |raw| && Stays(v, raw, i) :: Chosen(from, i)
  }

  ghost predicate RowOf(v: View, raw: seq<string>, i: nat, line: string) {
    i < |raw| && Stays(v, raw, i) && v.bare(raw[i], line)
  }

  ghost predicate Chosen(from: seq<nat>, i: nat) {
    exists k :: 0 <= k < |from| && from[k] == i
  }

  ghost predicate Selected(raw: seq<string>, ls: seq<string>) {
    exists from :: Selects(Written(), raw, from, ls, 0)
  }

  ghost predicate TrimmedTo(raw: seq<string>, out: string) {
    exists ls :: Selected(raw, ls) && out == Rows(ls)
  }

  ghost predicate CutInto(text: string, raw: seq<string>) {
    raw != [] && Rows(raw) == text && forall l | l in raw :: '\n' !in l
  }

  lemma {:induction false} LStripSkips(line: string, n: nat)
    requires n <= |line| && (forall i | 0 <= i < n :: Space(line[i])) && (n < |line| ==> !Space(line[n]))
    ensures LStrip(line) == line[n..]
  {
    if n > 0 {
      LStripSkips(line[1..], n - 1);
      assert line[1..][n - 1..] == line[n..];
    }
  }

  lemma {:induction false} RStripSkips(line: string, m: nat)
    requires m <= |line| && (forall i | m <= i < |line| :: Space(line[i])) && (m > 0 ==> !Space(line[m - 1]))
    ensures RStrip(line) == line[..m]
    decreases |line|
  {
    if m < |line| {
      RStripSkips(line[..|line| - 1], m);
      assert line[..|line| - 1][..m] == line[..m];
    } else {
      assert line[..m] == line;
    }
  }

  lemma SpaceCodes(c: char)
    ensures SpaceCode(c) <==> Space(c)
  {
  }

  lemma AllSpaceCodes()
    ensures forall c :: SpaceCode(c) <==> Space(c)
  {
    forall c ensures SpaceCode(c) <==> Space(c) {
      SpaceCodes(c);
    }
  }

  lemma BareIsStrip(line: string, bare: string)
    requires BareOf(line, bare)
    ensures bare == Strip(line)
  {
    AllSpaceCodes();
    var n :| 0 <= n <= n + |bare| <= |line| && BareAt(line, bare, n);
    if bare == [] {
      LStripSkips(line, |line|);
    } else {
      assert line[n] == bare[0] && line[n + |bare| - 1] == bare[|bare| - 1];
      LStripSkips(line, n);
      RStripSkips(line[n..], |bare|);
      assert line[n..][..|bare|] == line[n..n + |bare|];
    }
  }

  lemma {:induction false} LStripCount(line: string) returns (n: nat)
    ensures n <= |line| && LStrip(line) == line[n..] && forall i | 0 <= i < n :: Space(line[i])
  {
    n := 0;
    if line != [] && Space(line[0]) {
      n := LStripCount(line[1..]);
      n := n + 1;
      assert line[1..][n - 1..] == line[n..];
    }
  }

  lemma {:induction false} RStripDrops(line: string)
    ensures forall i | |RStrip(line)| <= i < |line| :: Space(line[i])
  {
    if line != [] && Space(line[|line| - 1]) {
      RStripDrops(line[..|line| - 1]);
    }
  }

  lemma LStripEmptyTail(line: string)
    ensures LStrip(line) != [] ==> Strip(line) != [] && Strip(line)[0] == LStrip(line)[0]
  {
    var t := LStrip(line);
    RStripDrops(t);
    assert t != [] ==> !Space(t[0]);
  }

  lemma StripIsBare(line: string)
    ensures BareOf(line, Strip(line))
  {
    AllSpaceCodes();
    var n := LStripCount(line);
    var bare := Strip(line);
    RStripDrops(line[n..]);
    LStripEmptyTail(line);
    forall i | n + |bare| <= i < |line| ensures SpaceCode(line[i]) {
      assert line[n..][i - n] == line[i];
    }
    assert line[n..][..|bare|] == line[n..n + |bare|];
    assert BareAt(line, bare, n);
  }

  lemma EndCodes(c: char)
    ensures EndCode(c) <==> EndMark(c)
  {
  }

  lemma HeadingIff(line: string)
    ensures HeadingLine(line) <==> IsHeading(Strip(line))
  {
    StripIsBare(line);
    StripTwice(line);
    if Strip(line) != [] {
      EndCodes(Strip(line)[|Strip(line)| - 1]);
    }
    forall bare | BareOf(line, bare) ensures bare == Strip(line) {
      BareIsStrip(line, bare);
    }
  }

  lemma BlankIff(line: string)
    ensures BlankLine(line) <==> Strip(line) == []
  {
    AllSpaceCodes();
    if BlankLine(line) {
      LStripSkips(line, |line|);
    }
    StripIsBare(line);
  }

  // ----- the rows that stay

  /** The view of the trimmer itself. */
  ghost predicate Fits(v: View, strip: string -> string, heading: string -> bool) {
    !heading([]) && forall l :: FitsAt(v, strip, heading, l)
  }

  ghost predicate FitsAt(v: View, strip: string -> string, heading: string -> bool, l: string) {
    && (v.blank(l) <==> strip(l) == []) && (v.heading(l) <==> heading(strip(l))) && v.bare(l, strip(l))
  }

  lemma WrittenFits()
    ensures Fits(Written(), Strip, IsHeading)
  {
    forall l ensures FitsAt(Written(), Strip, IsHeading, l) {
      BlankIff(l);
      HeadingIff(l);
      StripIsBare(l);
    }
  }

  /** tail gives the solid lines from each row on. */
  ghost predicate Tails(raw: seq<string>, tail: nat -> seq<string>, strip: string -> string) {
    tail(|raw|) == [] && forall k | 0 <= k < |raw| :: TailAt(raw, tail, strip, k)
  }

  ghost predicate TailAt(raw: seq<string>, tail: nat -> seq<string>, strip: string -> string, k: nat)
    requires k < |raw|
  {
    if strip(raw[k]) == [] then tail(k) == tail(k + 1) else tail(k) != [] && tail(k)[0] == strip(raw[k])
  }

  ghost function SolidFrom(raw: seq<string>, strip: string -> string): nat -> seq<string> {
    (k: nat) => if k < |raw| then Solid(raw[k..], strip) else []
  }

  lemma SolidTails(raw: seq<string>, strip: string -> string)
    ensures Tails(raw, SolidFrom(raw, strip), strip)
  {
    forall k | 0 <= k < |raw| ensures TailAt(raw, SolidFrom(raw, strip), strip, k) {
      SolidSplit(raw, k, strip);
      assert One(raw[k], strip) == [] ==> [] + Solid(raw[k + 1..], strip) == Solid(raw[k + 1..], strip);
    }
  }

  predicate TextFirst(lines: seq<string>, heading: string -> bool) {
    lines != [] && !heading(lines[0])
  }

  lemma StaysIff(v: View, strip: string -> string, heading: string -> bool, raw: seq<string>,
                 tail: nat -> seq<string>, i: nat)
    requires Fits(v, strip, heading) && Tails(raw, tail, strip) && i < |raw|
    ensures Stays(v, raw, i) <==> strip(raw[i]) != [] && (!heading(strip(raw[i])) || TextFirst(tail(i + 1), heading))
  {
    assert FitsAt(v, strip, heading, raw[i]);
    if j :| BodyFollows(v, raw, i, j) {
      FirstSolid(v, strip, heading, raw, tail, i + 1, i, j);
    }
    if TextFirst(tail(i + 1), heading) {
      var j := SolidAt(v, strip, heading, raw, tail, i + 1);
      assert BodyFollows(v, raw, i, j);
    }
  }

  /** Rows without a heading before a row of text: the first solid line is no heading. */
  lemma {:induction false} FirstSolid(v: View, strip: string -> string, heading: string -> bool, raw: seq<string>,
                                      tail: nat -> seq<string>, start: nat, i: nat, j: nat)
    requires Fits(v, strip, heading) && Tails(raw, tail, strip) && i < start <= j && BodyFollows(v, raw, i, j)
    ensures TextFirst(tail(start), heading)
    decreases j - start
  {
    assert TailAt(raw, tail, strip, start);
    assert FitsAt(v, strip, heading, raw[start]);
    if strip(raw[start]) == [] {
      FirstSolid(v, strip, heading, raw, tail, start + 1, i, j);
    }
  }

  /** The row of the first solid line, after blank ones only. */
  lemma {:induction false} SolidAt(v: View, strip: string -> string, heading: string -> bool, raw: seq<string>,
                                   tail: nat -> seq<string>, start: nat)
    returns (j: nat)
    requires Fits(v, strip, heading) && Tails(raw, tail, strip) && start <= |raw| && tail(start) != []
    ensures start <= j < |raw| && !v.blank(raw[j]) && tail(start)[0] == strip(raw[j])
    ensures v.heading(raw[j]) <==> heading(strip(raw[j]))
    ensures forall k | start <= k < j :: !v.heading(raw[k])
    decreases |raw| - start
  {
    assert TailAt(raw, tail, strip, start);
    assert FitsAt(v, strip, heading, raw[start]);
    if strip(raw[start]) != [] {
      j := start;
    } else {
      j := SolidAt(v, strip, heading, raw, tail, start + 1);
    }
  }

  /** The kept lines are the bare forms of the staying rows. */
  lemma {:induction false} KeptSelects(v: View, strip: string -> string, heading: string -> bool, raw: seq<string>,
                                       start: nat) returns (from: seq<nat>)
    requires Fits(v, strip, heading) && start <= |raw|
    ensures Selects(v, raw, from, Kept(Solid(raw[start..], strip), heading), start)
    decreases |raw| - start
  {
    from := [];
    if start < |raw| {
      var next := start + 1;
      var rest := Solid(raw[next..], strip);
      from := KeptSelects(v, strip, heading, raw, next);
      SolidSplit(raw, start, strip);
      SolidTails(raw, strip);
      StaysIff(v, strip, heading, raw, SolidFrom(raw, strip), start);
      assert FitsAt(v, strip, heading, raw[start]);
      KeptCons(strip(raw[start]), rest, heading);
      assert next == |raw| ==> rest == [];
      if Stays(v, raw, start) {
        SelectsPush(v, raw, from, Kept(rest, heading), start, strip(raw[start]));
        from := [start] + from;
      } else {
        SelectsSkip(v, raw, from, Kept(rest, heading), start);
        assert strip(raw[start]) == [] ==> One(raw[start], strip) + rest == rest;
      }
    }
  }

  lemma KeptCons(line: string, rest: seq<string>, heading: string -> bool)
    ensures Kept([line] + rest, heading)
            == if heading(line) && (rest == [] || heading(rest[0])) then Kept(rest, heading)
               else [line] + Kept(rest, heading)
  {
    assert ([line] + rest)[1..] == rest;
  }

  lemma SelectsSkip(v: View, raw: seq<string>, from: seq<nat>, ls: seq<string>, start: nat)
    requires start < |raw| && !Stays(v, raw, start) && Selects(v, raw, from, ls, start + 1)
    ensures Selects(v, raw, from, ls, start)
  {
  }

  lemma SelectsPush(v: View, raw: seq<string>, from: seq<nat>, ls: seq<string>, start: nat, line: string)
    requires start < |raw| && Stays(v, raw, start) && Selects(v, raw, from, ls, start + 1)
    requires v.bare(raw[start], line)
    ensures Selects(v, raw, [start] + from, [line] + ls, start)
  {
    var more, lines := [start] + from, [line] + ls;
    forall k | 0 <= k < |more| ensures start <= more[k] && RowOf(v, raw, more[k], lines[k]) {
      if k > 0 {
        assert RowOf(v, raw, from[k - 1], ls[k - 1]);
      }
    }
    forall k, l | 0 <= k < l < |more| ensures more[k] < more[l] {
      if k > 0 {
        assert from[k - 1] < from[l - 1];
      }
    }
    forall i | start <= i < |raw| && Stays(v, raw, i) ensures Chosen(more, i) {
      if i > start {
        assert Chosen(from, i);
      }
      ChosenPush(from, start, i);
    }
  }

  lemma ChosenPush(from: seq<nat>, start: nat, i: nat)
    requires i == start || Chosen(from, i)
    ensures Chosen([start] + from, i)
  {
    var more := [start] + from;
    if i == start {
      assert more[0] == i;
    } else {
      var k :| 0 <= k < |from| && from[k] == i;
      assert more[k + 1] == i;
    }
  }

  // ----- the text

  lemma {:induction false} RowsAreJoined(ls: seq<string>)
    ensures Rows(ls) == Join(ls)
  {
    if |ls| > 1 {
      RowsAreJoined(ls[1..]);
    }
  }

  lemma {:induction false} LinesOfRows(raw: seq<string>)
    requires raw != [] && forall l | l in raw :: '\n' !in l
    ensures Lines(Rows(raw)) == raw
  {
    var l := raw[0];
    assert l in raw;
    if |raw| == 1 {
      NoBreak(l);
    } else {
      LinesOfRows(raw[1..]);
      LineEndOf(l, "\n" + Rows(raw[1..]));
      assert l + "\n" + Rows(raw[1..]) == l + ("\n" + Rows(raw[1..]));
      LinesStep(Rows(raw));
      assert Rows(raw)[..|l|] == l && Rows(raw)[|l| + 1..] == Rows(raw[1..]);
      assert raw == [l] + raw[1..];
    }
  }

  /** Every text is cut into its rows. */
  lemma {:induction false} RowsOfText(text: string)
    ensures CutInto(text, Lines(text))
    decreases |text|
  {
    var n := LineEnd(text);
    LineEndIs(text);
    LinesStep(text);
    if n < |text| {
      RowsOfText(text[n + 1..]);
      var ls := Lines(text);
      assert ls[1..] == Lines(text[n + 1..]);
      assert text == text[..n] + "\n" + text[n + 1..];
    } else {
      assert text[..n] == text;
    }
  }

  lemma TrimIsWritten(text: string, raw: seq<string>)
    requires CutInto(text, raw)
    ensures TrimmedTo(raw, Trim(text))
  {
    StripDropsEnds();
    PreparationKeepsLines(text, Strip);
    LinesOfRows(raw);
    SolidOfLines(text, Strip);
    assert raw[0..] == raw;
    var ls := Kept(Solid(raw, Strip), IsHeading);
    WrittenFits();
    var from := KeptSelects(Written(), Strip, IsHeading, raw, 0);
    assert Selected(raw, ls);
    RowsAreJoined(ls);
  }

  /** _trim_extract: of the rows of the text exactly the staying ones, bare, one after the other. */
  method TrimText(text: string) returns (out: string)
    ensures out == Trim(text)
    ensures forall raw | CutInto(text, raw) :: TrimmedTo(raw, out)
    ensures CutInto(text, Lines(text))
  {
    RowsOfText(text);
    var lines := TrimLines(Lines(Collapse(Strip(text))), Strip, IsHeading);
    SolidOfLines(Collapse(Strip(text)), Strip);
    out := Join(lines);
    forall raw | CutInto(text, raw) ensures TrimmedTo(raw, Trim(text)) {
      TrimIsWritten(text, raw);
    }
  }
}
