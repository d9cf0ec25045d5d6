/**
 Trimming wiki extracts (_trim_extract and _is_heading in pipeline/wiki.py): blank lines and
 headings without a body are dropped.  The trim runs when a page is fetched and again when the
 cached page, cut to a maximal length, is loaded.
 */
module TrimExtract {

  const NEWLINE: char := '\n'

  /** What strip removes: the whitespace of str.isspace. */
  predicate Space(c: char) {
    || '\t' <= c <= '\r' || '\U{001c}' <= c <= ' ' || c == '\U{0085}' || c == '\U{00a0}'
    || c == '\U{1680}' || '\U{2000}' <= c <= '\U{200a}' || c == '\U{2028}' || c == '\U{2029}'
    || c == '\U{202f}' || c == '\U{205f}' || c == '\U{3000}'
  }

  function LStrip(s: string): (t: string)
    ensures |t| <= |s| && (t != [] ==> !Space(t[0]))
  {
    if s != [] && Space(s[0]) then LStrip(s[1..]) else s
  }

  function RStrip(s: string): (t: string)
    ensures |t| <= |s| && t == s[..|t|] && (t != [] ==> !Space(t[|t| - 1]))
  {
    if s != [] && Space(s[|s| - 1]) then RStrip(s[..|s| - 1]) else s
  }

  function Strip(s: string): string {
    RStrip(LStrip(s))
  }

  predicate EndMark(c: char) {
    c == '.' || c == ':' || c == '!' || c == '?' || c == ',' || c == ')'
  }

  /** A short line that does not end like a sentence. */
  predicate IsHeading(line: string) {
    var l := Strip(line);
    0 < |l| <= 60 && !EndMark(l[|l| - 1])
  }

  // ----- lines

  /** Where the first line ends. */
  function LineEnd(s: string): (n: nat)
    ensures n <= |s|
  {
    if s == [] || s[0] == NEWLINE then 0 else 1 + LineEnd(s[1..])
  }

  /** No break before the end of the line, and a break there unless the text ends. */
  lemma {:induction false} LineEndIs(s: string)
    ensures NEWLINE !in s[..LineEnd(s)] && (LineEnd(s) < |s| ==> s[LineEnd(s)] == NEWLINE)
  {
    if s != [] && s[0] != NEWLINE {
      LineEndIs(s[1..]);
      assert s[..LineEnd(s)] == [s[0]] + s[1..][..LineEnd(s[1..])];
    }
  }

  function Lines(s: string): seq<string>
    decreases |s|, 1
  {
    LinesFrom(s, LineEnd(s))
  }

  /** The lines of a text whose first line ends at n. */
  function LinesFrom(s: string, n: nat): seq<string>
    requires n <= |s|
    decreases |s|, 0
  {
    if n == |s| then [s] else [s[..n]] + Lines(s[n + 1..])
  }

  function Join(lines: seq<string>): string {
    if lines == [] then []
    else if |lines| == 1 then lines[0]
    else lines[0] + [NEWLINE] + Join(lines[1..])
  }

  function One(line: string, strip: string -> string): seq<string> {
    if strip(line) == [] then [] else [strip(line)]
  }

  /** The lines that are not blank, stripped. */
  function Solid(lines: seq<string>, strip: string -> string): seq<string> {
    if lines == [] then [] else One(lines[0], strip) + Solid(lines[1..], strip)
  }

  /** The lines that stay: all but a heading whose next line is a heading or missing. */
  function Kept<T>(ls: seq<T>, heading: T -> bool): seq<T> {
    if ls == [] then []
    else if heading(ls[0]) && (|ls| == 1 || heading(ls[1])) then Kept(ls[1..], heading)
    else [ls[0]] + Kept(ls[1..], heading)
  }

  // ----- an independent description of what stays

  /** A body line comes before the next heading. */
  ghost predicate HasBody<T>(ls: seq<T>, heading: T -> bool, i: nat) {
    exists j :: i < j < |ls| && NoHeading(ls, heading, i, j)
  }

  ghost predicate NoHeading<T>(ls: seq<T>, heading: T -> bool, i: nat, j: nat)
    requires j < |ls|
  {
    forall k | i < k <= j :: !heading(ls[k])
  }

  ghost predicate Keeps<T>(ls: seq<T>, heading: T -> bool, i: nat)
    requires i < |ls|
  {
    !heading(ls[i]) || HasBody(ls, heading, i)
  }

  ghost function Picked<T>(ls: seq<T>, heading: T -> bool, i: nat): seq<T>
    requires i <= |ls|
    decreases |ls| - i
  {
    if i == |ls| then [] else (if Keeps(ls, heading, i) then [ls[i]] else []) + Picked(ls, heading, i + 1)
  }

  lemma HasBodyIsNext<T>(ls: seq<T>, heading: T -> bool, i: nat)
    requires i < |ls|
    ensures HasBody(ls, heading, i) <==> i + 1 < |ls| && !heading(ls[i + 1])
  {
    if i + 1 < |ls| && !heading(ls[i + 1]) {
      assert NoHeading(ls, heading, i, i + 1);
    }
  }

  /** Exactly these lines are kept, in order: every line that is no heading, and every heading with
      a body line before the next heading. */
  lemma {:induction false} KeptIsPicked<T>(ls: seq<T>, heading: T -> bool, i: nat)
    requires i <= |ls|
    ensures Kept(ls[i..], heading) == Picked(ls, heading, i)
    decreases |ls| - i
  {
    if i < |ls| {
      HasBodyIsNext(ls, heading, i);
      KeptIsPicked(ls, heading, i + 1);
      assert ls[i..][1..] == ls[i + 1..];
      assert |ls[i..]| > 1 ==> ls[i..][1] == ls[i + 1];
    }
  }

  lemma KeptStarts<T>(ls: seq<T>, heading: T -> bool)
    requires ls != [] && !heading(ls[0])
    ensures Kept(ls, heading) != [] && Kept(ls, heading)[0] == ls[0]
  {
  }

  /** A heading that is kept is still followed by its body. */
  lemma {:induction false} KeptTwice<T>(ls: seq<T>, heading: T -> bool)
    ensures Kept(Kept(ls, heading), heading) == Kept(ls, heading)
  {
    if ls != [] {
      KeptTwice(ls[1..], heading);
      var rest := Kept(ls[1..], heading);
      assert ([ls[0]] + rest)[1..] == rest;
      if heading(ls[0]) && |ls| > 1 && !heading(ls[1]) {
        KeptStarts(ls[1..], heading);
        assert ([ls[0]] + rest)[1] == ls[1];
      }
    }
  }

  function Bodies<T>(ls: seq<T>, heading: T -> bool): seq<T> {
    if ls == [] then [] else (if heading(ls[0]) then [] else [ls[0]]) + Bodies(ls[1..], heading)
  }

  /** No line of text is lost or moved. */
  lemma {:induction false} BodiesKept<T>(ls: seq<T>, heading: T -> bool)
    ensures Bodies(Kept(ls, heading), heading) == Bodies(ls, heading)
  {
    if ls != [] {
      BodiesKept(ls[1..], heading);
      assert ([ls[0]] + Kept(ls[1..], heading))[1..] == Kept(ls[1..], heading);
    }
  }

  lemma {:induction false} KeptFrom<T>(ls: seq<T>, heading: T -> bool)
    ensures forall l | l in Kept(ls, heading) :: l in ls
  {
    if ls != [] {
      KeptFrom(ls[1..], heading);
    }
  }

  // ----- the trimmer on lines

  lemma Reassociate<T>(a: seq<T>, b: seq<T>, c: seq<T>)
    ensures a + (b + c) == a + b + c
  {
  }

  lemma {:induction false} KeptBodies<T>(body: seq<T>, rest: seq<T>, heading: T -> bool)
    requires forall l | l in body :: !heading(l)
    ensures Kept(body + rest, heading) == body + Kept(rest, heading)
  {
    if body == [] {
      assert body + rest == rest;
    } else {
      assert body[0] in body;
      assert (body + rest)[1..] == body[1..] + rest;
      KeptBodies(body[1..], rest, heading);
    }
  }

  lemma KeptHead<T>(cur: T, tail: seq<T>, heading: T -> bool)
    requires heading(cur)
    ensures Kept([cur] + tail, heading)
            == if tail == [] || heading(tail[0]) then Kept(tail, heading) else [cur] + Kept(tail, heading)
  {
  }

  /** A heading, its body lines, and what follows. */
  lemma KeptSection<T>(cur: T, body: seq<T>, rest: seq<T>, heading: T -> bool)
    requires heading(cur) && (forall l | l in body :: !heading(l))
    requires rest == [] || heading(rest[0])
    ensures Kept([cur] + (body + rest), heading)
            == if body == [] then Kept(rest, heading) else [cur] + (body + Kept(rest, heading))
  {
    KeptHead(cur, body + rest, heading);
    if body == [] {
      assert body + rest == rest;
    } else {
      assert (body + rest)[0] == body[0] && body[0] in body;
      KeptBodies(body, rest, heading);
    }
  }

  lemma AppendSection<T>(out: seq<T>, cur: T, body: seq<T>, rest: seq<T>, heading: T -> bool)
    requires heading(cur) && (forall l | l in body :: !heading(l))
    requires rest == [] || heading(rest[0])
    ensures out + Kept([cur] + (body + rest), heading)
            == (if body != [] then out + [cur] + body else out) + Kept(rest, heading)
  {
    KeptSection(cur, body, rest, heading);
    Reassociate(out, [cur], body + Kept(rest, heading));
    Reassociate(out + [cur], body, Kept(rest, heading));
  }

  lemma SolidSplit(lines: seq<string>, i: nat, strip: string -> string)
    requires i < |lines|
    ensures Solid(lines[i..], strip) == One(lines[i], strip) + Solid(lines[i + 1..], strip)
  {
  }

  /** What is out so far and what the remaining lines will give make up the result. */
  ghost predicate Trimmed(lines: seq<string>, i: nat, out: seq<string>, strip: string -> string,
                          heading: string -> bool)
    requires i <= |lines|
  {
    out + Kept(Solid(lines[i..], strip), heading) == Kept(Solid(lines, strip), heading)
  }

  lemma SkipBlank(lines: seq<string>, i: nat, out: seq<string>, strip: string -> string, heading: string -> bool)
    requires i < |lines| && Trimmed(lines, i, out, strip, heading) && strip(lines[i]) == []
    ensures Trimmed(lines, i + 1, out, strip, heading)
  {
    SolidSplit(lines, i, strip);
    assert One(lines[i], strip) + Solid(lines[i + 1..], strip) == Solid(lines[i + 1..], strip);
  }

  lemma TakeBody(lines: seq<string>, i: nat, out: seq<string>, strip: string -> string, heading: string -> bool)
    requires i < |lines| && Trimmed(lines, i, out, strip, heading)
    requires strip(lines[i]) != [] && !heading(strip(lines[i]))
    ensures Trimmed(lines, i + 1, out + [strip(lines[i])], strip, heading)
  {
    var cur, rest := strip(lines[i]), Solid(lines[i + 1..], strip);
    SolidSplit(lines, i, strip);
    assert Kept([cur] + rest, heading) == [cur] + Kept(rest, heading) by {
      assert ([cur] + rest)[1..] == rest;
    }
    Reassociate(out, [cur], Kept(rest, heading));
  }

  lemma TakeSection(lines: seq<string>, i: nat, out: seq<string>, body: seq<string>, j: nat,
                    strip: string -> string, heading: string -> bool)
    requires i < j <= |lines| && Trimmed(lines, i, out, strip, heading)
    requires strip(lines[i]) != [] && heading(strip(lines[i]))
    requires BodyTo(lines, i + 1, body, j, strip, heading)
    requires Solid(lines[j..], strip) == [] || heading(Solid(lines[j..], strip)[0])
    ensures Trimmed(lines, j, if body != [] then out + [strip(lines[i])] + body else out, strip, heading)
  {
    var cur, rest := strip(lines[i]), Solid(lines[j..], strip);
    SolidSplit(lines, i, strip);
    AppendSection(out, cur, body, rest, heading);
  }

  /** The solid lines from start to j are these, and none is a heading. */
  ghost predicate BodyTo(lines: seq<string>, start: nat, body: seq<string>, j: nat, strip: string -> string,
                         heading: string -> bool)
    requires start <= |lines| && j <= |lines|
  {
    Solid(lines[start..], strip) == body + Solid(lines[j..], strip) && forall l | l in body :: !heading(l)
  }

  lemma ExtendBody(lines: seq<string>, start: nat, body: seq<string>, j: nat, strip: string -> string,
                   heading: string -> bool)
    requires start <= j < |lines| && BodyTo(lines, start, body, j, strip, heading)
    requires strip(lines[j]) == [] || !heading(strip(lines[j]))
    ensures BodyTo(lines, start, body + One(lines[j], strip), j + 1, strip, heading)
  {
  }

  /** The lines up to the next heading. */
  method CollectBody(lines: seq<string>, start: nat, strip: string -> string, heading: string -> bool)
    returns (body: seq<string>, j: nat)
    requires start <= |lines|
    ensures start <= j <= |lines| && BodyTo(lines, start, body, j, strip, heading)
    ensures Solid(lines[j..], strip) == [] || heading(Solid(lines[j..], strip)[0])
  {
    body, j := [], start;
    while j < |lines| && !(strip(lines[j]) != [] && heading(strip(lines[j])))
      invariant start <= j <= |lines| && BodyTo(lines, start, body, j, strip, heading)
      decreases |lines| - j
    {
      ExtendBody(lines, start, body, j, strip, heading);
      body := body + One(lines[j], strip);
      j := j + 1;
    }
    if j < |lines| {
      SolidSplit(lines, j, strip);
    }
  }

  /** The loop of the trimmer. */
  method TrimLines(lines: seq<string>, strip: string -> string, heading: string -> bool) returns (out: seq<string>)
    ensures out == Kept(Solid(lines, strip), heading)
  {
    out := [];
    var i, n := 0, |lines|;
    assert lines[0..] == lines;
    while i < n
      invariant i <= n && Trimmed(lines, i, out, strip, heading)
      decreases n - i
    {
      var cur := strip(lines[i]);
      if cur == [] {
        SkipBlank(lines, i, out, strip, heading);
        i := i + 1;
        continue;
      }
      if heading(cur) {
        var body, j := CollectBody(lines, i + 1, strip, heading);
        TakeSection(lines, i, out, body, j, strip, heading);
        if body != [] {
          out := out + [cur] + body;
        }
        i := j;
      } else {
        TakeBody(lines, i, out, strip, heading);
        out := out + [cur];
        i := i + 1;
      }
    }
    assert Solid(lines[n..], strip) == [];
  }

  // ----- stripping

  lemma StripTwice(s: string)
    ensures Strip(Strip(s)) == Strip(s)
  {
  }

  lemma {:induction false} LStripFrom(s: string)
    ensures forall c | c in LStrip(s) :: c in s
  {
    if s != [] && Space(s[0]) {
      LStripFrom(s[1..]);
    }
  }

  lemma StripFrom(s: string)
    ensures forall c | c in Strip(s) :: c in s
  {
    LStripFrom(s);
  }

  /** A space at the end of a line makes no difference. */
  lemma {:induction false} StripTrailing(s: string)
    requires s != [] && Space(s[|s| - 1])
    ensures Strip(s) == Strip(s[..|s| - 1])
  {
    if Space(s[0]) && |s| > 1 {
      StripTrailing(s[1..]);
      assert s[1..][..|s| - 2] == s[..|s| - 1][1..];
    }
  }

  // ----- the whole text

  /** The solid lines of a text, read off line by line. */
  function SolidLines(s: string, strip: string -> string): seq<string>
    decreases |s|
  {
    var n := LineEnd(s);
    One(s[..n], strip) + if n == |s| then [] else SolidLines(s[n + 1..], strip)
  }

  lemma LinesStep(s: string)
    ensures LineEnd(s) == |s| ==> Lines(s) == [s]
    ensures LineEnd(s) < |s| ==> Lines(s) == [s[..LineEnd(s)]] + Lines(s[LineEnd(s) + 1..])
  {
    LinesFromIs(s, LineEnd(s));
  }

  lemma LinesFromIs(s: string, n: nat)
    requires n <= |s|
    ensures LinesFrom(s, n) == if n == |s| then [s] else [s[..n]] + Lines(s[n + 1..])
  {
  }

  lemma SolidCons(line: string, lines: seq<string>, strip: string -> string)
    ensures Solid([line] + lines, strip) == One(line, strip) + Solid(lines, strip)
  {
  }

  lemma {:induction false} SolidOfLines(s: string, strip: string -> string)
    ensures Solid(Lines(s), strip) == SolidLines(s, strip)
    decreases |s|
  {
    var n := LineEnd(s);
    LinesStep(s);
    if n == |s| {
      SolidCons(s, [], strip);
      assert [s] + [] == [s] && s[..n] == s;
    } else {
      SolidOfLines(s[n + 1..], strip);
      SolidCons(s[..n], Lines(s[n + 1..]), strip);
    }
  }

  /** Spaces at the ends of a line make no difference to this strip. */
  ghost predicate DropsEnds(strip: string -> string) {
    strip([]) == [] && forall l :: DropsAt(strip, l)
  }

  ghost predicate DropsAt(strip: string -> string, l: string) {
    && (l != [] && Space(l[0]) ==> strip(l) == strip(l[1..]))
    && (l != [] && Space(l[|l| - 1]) ==> strip(l) == strip(l[..|l| - 1]))
  }

  lemma StripDropsEnds()
    ensures DropsEnds(Strip)
  {
    forall l: string ensures DropsAt(Strip, l) {
      if l != [] && Space(l[|l| - 1]) {
        StripTrailing(l);
      }
    }
  }

  /** How many line breaks a text starts with. */
  function Run(s: string): (r: nat)
    ensures r <= |s|
  {
    if s == [] || s[0] != NEWLINE then 0 else 1 + Run(s[1..])
  }

  lemma {:induction false} RunIs(s: string)
    ensures forall i | 0 <= i < Run(s) :: s[i] == NEWLINE
  {
    if s != [] && s[0] == NEWLINE {
      RunIs(s[1..]);
    }
  }

  /** Three line breaks or more become two. */
  function Collapse(s: string): string
    decreases |s|
  {
    if s == [] then []
    else if s[0] != NEWLINE then [s[0]] + Collapse(s[1..])
    else
      var r := Run(s);
      s[..if r >= 3 then 2 else r] + Collapse(s[r..])
  }

  function Trim(text: string): string {
    Join(Kept(SolidLines(Collapse(Strip(text)), Strip), IsHeading))
  }

  lemma LeadingInLast(s: string, strip: string -> string)
    requires s != [] && Space(s[0]) && DropsEnds(strip) && LineEnd(s) == |s|
    ensures SolidLines(s[1..], strip) == SolidLines(s, strip)
  {
    LineEndIs(s);
    assert s[..|s|] == s;
    NoBreak(s[1..]);
    OneLine(s, strip);
    OneLine(s[1..], strip);
    assert DropsAt(strip, s);
  }

  lemma LeadingBreak(rest: string, strip: string -> string)
    requires DropsEnds(strip)
    ensures SolidLines([NEWLINE] + rest, strip) == SolidLines(rest, strip)
  {
  }

  lemma LeadingInLine(line: string, rest: string, strip: string -> string)
    requires line != [] && Space(line[0]) && NEWLINE !in line && DropsEnds(strip)
    ensures SolidLines(line[1..] + [NEWLINE] + rest, strip) == SolidLines(line + [NEWLINE] + rest, strip)
  {
    FirstLine(line, rest, strip);
    FirstLine(line[1..], rest, strip);
    assert DropsAt(strip, line);
  }

  lemma LeadingSpace(s: string, strip: string -> string)
    requires s != [] && Space(s[0]) && DropsEnds(strip)
    ensures SolidLines(s[1..], strip) == SolidLines(s, strip)
  {
    var n := LineEnd(s);
    LineEndIs(s);
    if n == |s| {
      LeadingInLast(s, strip);
    } else if n == 0 {
      FromBreak(s);
      LeadingBreak(s[1..], strip);
    } else {
      Assemble(s, n);
      AssembleTail(s, n);
      LeadingInLine(s[..n], s[n + 1..], strip);
    }
  }

  lemma AssembleTail(s: string, n: nat)
    requires 0 < n < |s|
    ensures s[1..] == s[..n][1..] + [s[n]] + s[n + 1..]
  {
  }

  lemma {:induction false} LStripLines(s: string, strip: string -> string)
    requires DropsEnds(strip)
    ensures SolidLines(LStrip(s), strip) == SolidLines(s, strip)
  {
    if s != [] && Space(s[0]) {
      LeadingSpace(s, strip);
      LStripLines(s[1..], strip);
    }
  }

  lemma OneLine(s: string, strip: string -> string)
    requires LineEnd(s) == |s|
    ensures SolidLines(s, strip) == One(s, strip)
  {
    assert s[..|s|] == s;
  }

  lemma TrailingInLine(s: string, strip: string -> string)
    requires s != [] && Space(s[|s| - 1]) && DropsEnds(strip) && LineEnd(s) == |s|
    ensures SolidLines(s[..|s| - 1], strip) == SolidLines(s, strip)
  {
    LineEndIs(s);
    assert DropsAt(strip, s);
    assert s[..|s|] == s;
    NoBreak(s[..|s| - 1]);
    OneLine(s, strip);
    OneLine(s[..|s| - 1], strip);
  }

  lemma TrailingBreak(s: string, strip: string -> string)
    requires s != [] && DropsEnds(strip) && LineEnd(s) == |s| - 1
    ensures SolidLines(s[..|s| - 1], strip) == SolidLines(s, strip)
  {
    LineEndIs(s);
    NoBreak(s[..|s| - 1]);
    OneLine(s[..|s| - 1], strip);
    OneLine([], strip);
    assert s[|s|..] == [];
  }

  lemma TrailingLater(line: string, rest: string, strip: string -> string)
    requires NEWLINE !in line && rest != []
    requires SolidLines(rest[..|rest| - 1], strip) == SolidLines(rest, strip)
    ensures SolidLines(line + [NEWLINE] + rest[..|rest| - 1], strip) == SolidLines(line + [NEWLINE] + rest, strip)
  {
    FirstLine(line, rest, strip);
    FirstLine(line, rest[..|rest| - 1], strip);
  }

  lemma Assemble(s: string, n: nat)
    requires n < |s|
    ensures s == s[..n] + [s[n]] + s[n + 1..]
    ensures n < |s| - 1 ==> var rest := s[n + 1..]; s[..|s| - 1] == s[..n] + [s[n]] + rest[..|rest| - 1]
  {
  }

  lemma {:induction false} TrailingSpace(s: string, strip: string -> string)
    requires s != [] && Space(s[|s| - 1]) && DropsEnds(strip)
    ensures SolidLines(s[..|s| - 1], strip) == SolidLines(s, strip)
    decreases |s|
  {
    var n := LineEnd(s);
    if n == |s| {
      TrailingInLine(s, strip);
    } else if n == |s| - 1 {
      TrailingBreak(s, strip);
    } else {
      var line, rest := s[..n], s[n + 1..];
      LineEndIs(s);
      Assemble(s, n);
      TrailingSpace(rest, strip);
      TrailingLater(line, rest, strip);
    }
  }

  lemma {:induction false} NoBreak(s: string)
    requires NEWLINE !in s
    ensures LineEnd(s) == |s|
  {
    if s != [] {
      NoBreak(s[1..]);
    }
  }

  lemma {:induction false} RStripLines(s: string, strip: string -> string)
    requires DropsEnds(strip)
    ensures SolidLines(RStrip(s), strip) == SolidLines(s, strip)
  {
    if s != [] && Space(s[|s| - 1]) {
      TrailingSpace(s, strip);
      RStripLines(s[..|s| - 1], strip);
    }
  }

  lemma {:induction false} SkipBreaks(s: string, r: nat, strip: string -> string)
    requires r <= Run(s) && DropsEnds(strip)
    ensures SolidLines(s[r..], strip) == SolidLines(s, strip)
    decreases r
  {
    if r == 0 {
      assert s[0..] == s;
    } else {
      LeadingSpace(s, strip);
      SkipBreaks(s[1..], r - 1, strip);
      assert s[1..][r - 1..] == s[r..];
    }
  }

  lemma CollapseStep(s: string)
    requires s != [] && s[0] != NEWLINE
    ensures Collapse(s) == [s[0]] + Collapse(s[1..]) && LineEnd(s) == 1 + LineEnd(s[1..])
  {
  }

  lemma CollapseBreaks(s: string)
    requires s != [] && s[0] == NEWLINE
    ensures Collapse(s) != [] && Collapse(s)[0] == NEWLINE && LineEnd(Collapse(s)) == 0 == LineEnd(s)
  {
  }

  /** The first line is the same, and the rest of the collapsed text is the collapsed rest. */
  lemma {:induction false} CollapseLine(s: string)
    ensures var n, c := LineEnd(s), Collapse(s);
            n <= |c| && LineEnd(c) == n && c == s[..n] + Collapse(s[n..])
    decreases |s|
  {
    if s == [] {
    } else if s[0] != NEWLINE {
      var n, rest := LineEnd(s), Collapse(s[LineEnd(s)..]);
      CollapseStep(s);
      CollapseLine(s[1..]);
      assert Collapse(s[1..]) == s[1..][..n - 1] + Collapse(s[1..][n - 1..]);
      Glue(s, n, rest);
      LineEndStep(s[0], Collapse(s[1..]));
    } else {
      CollapseBreaks(s);
      assert s[0..] == s && s[..0] + Collapse(s) == Collapse(s);
    }
  }

  lemma Glue(s: string, n: nat, rest: string)
    requires 0 < n <= |s|
    ensures [s[0]] + (s[1..][..n - 1] + rest) == s[..n] + rest && s[1..][n - 1..] == s[n..]
  {
  }

  lemma LineEndStep(c: char, s: string)
    requires c != NEWLINE
    ensures LineEnd([c] + s) == 1 + LineEnd(s)
  {
  }

  lemma CollapseLater(line: string, x: string, y: string, strip: string -> string)
    requires NEWLINE !in line && DropsEnds(strip)
    requires SolidLines([NEWLINE] + x, strip) == SolidLines([NEWLINE] + y, strip)
    ensures SolidLines(line + [NEWLINE] + x, strip) == SolidLines(line + [NEWLINE] + y, strip)
  {
    LeadingBreak(x, strip);
    LeadingBreak(y, strip);
    FirstLine(line, x, strip);
    FirstLine(line, y, strip);
  }

  lemma FromBreak(s: string)
    requires s != [] && s[0] == NEWLINE
    ensures s == [NEWLINE] + s[1..]
  {
  }

  lemma {:induction false} CollapseLines(s: string, strip: string -> string)
    requires DropsEnds(strip)
    ensures SolidLines(Collapse(s), strip) == SolidLines(s, strip)
    decreases |s|, 1
  {
    var n := LineEnd(s);
    var line, rest := s[..n], s[n..];
    CollapseLine(s);
    assert s == line + rest;
    if n == |s| {
      assert Collapse(rest) == [] && Collapse(s) == s;
    } else {
      LineEndIs(s);
      CollapseRest(rest, strip);
      CollapseBreaks(rest);
      FromBreak(rest);
      FromBreak(Collapse(rest));
      CollapseLater(line, Collapse(rest)[1..], rest[1..], strip);
      Reassociate(line, [NEWLINE], Collapse(rest)[1..]);
      Reassociate(line, [NEWLINE], rest[1..]);
    }
  }

  lemma {:induction false} CollapseRest(rest: string, strip: string -> string)
    requires rest != [] && rest[0] == NEWLINE && DropsEnds(strip)
    ensures SolidLines(Collapse(rest), strip) == SolidLines(rest, strip)
    decreases |rest|, 0
  {
    var r := Run(rest);
    var kept := if r >= 3 then 2 else r;
    RunIs(rest);
    CollapseLines(rest[r..], strip);
    BreaksBefore(Collapse(rest[r..]), kept, rest[..kept], strip);
    SkipBreaks(rest, r, strip);
  }

  lemma {:induction false} BreaksBefore(t: string, r: nat, breaks: string, strip: string -> string)
    requires |breaks| == r && (forall i | 0 <= i < r :: breaks[i] == NEWLINE) && DropsEnds(strip)
    ensures SolidLines(breaks + t, strip) == SolidLines(t, strip)
    decreases r
  {
    if r == 0 {
      assert breaks + t == t;
    } else {
      assert breaks + t == [NEWLINE] + (breaks[1..] + t);
      LeadingBreak(breaks[1..] + t, strip);
      BreaksBefore(t, r - 1, breaks[1..], strip);
    }
  }

  /** The strip and the collapse at the start of the trimmer change no solid line. */
  lemma PreparationKeepsLines(text: string, strip: string -> string)
    requires DropsEnds(strip)
    ensures SolidLines(Collapse(Strip(text)), strip) == SolidLines(text, strip)
  {
    LStripLines(text, strip);
    RStripLines(LStrip(text), strip);
    CollapseLines(Strip(text), strip);
  }

  /** A line as the trimmer leaves it. */
  predicate Tidy(l: string, strip: string -> string) {
    l != [] && strip(l) == l && NEWLINE !in l
  }

  ghost predicate AllTidy(ls: seq<string>, strip: string -> string) {
    forall l | l in ls :: Tidy(l, strip)
  }

  lemma OneIsTidy(line: string)
    requires NEWLINE !in line
    ensures AllTidy(One(line, Strip), Strip)
  {
    StripFrom(line);
    StripTwice(line);
  }

  lemma TidyTogether(a: seq<string>, b: seq<string>, strip: string -> string)
    requires AllTidy(a, strip) && AllTidy(b, strip)
    ensures AllTidy(a + b, strip)
  {
  }

  lemma {:induction false} SolidIsTidy(s: string)
    ensures AllTidy(SolidLines(s, Strip), Strip)
    decreases |s|
  {
    var n := LineEnd(s);
    LineEndIs(s);
    OneIsTidy(s[..n]);
    if n < |s| {
      SolidIsTidy(s[n + 1..]);
      TidyTogether(One(s[..n], Strip), SolidLines(s[n + 1..], Strip), Strip);
    } else {
      assert One(s[..n], Strip) + [] == One(s[..n], Strip);
    }
  }

  lemma {:induction false} LineEndOf(l: string, rest: string)
    requires NEWLINE !in l && (rest == [] || rest[0] == NEWLINE)
    ensures LineEnd(l + rest) == |l|
  {
    if l == [] {
      assert l + rest == rest;
    } else {
      assert (l + rest)[1..] == l[1..] + rest;
      LineEndOf(l[1..], rest);
    }
  }

  lemma FirstLine(l: string, rest: string, strip: string -> string)
    requires NEWLINE !in l
    ensures SolidLines(l, strip) == One(l, strip)
    ensures SolidLines(l + [NEWLINE] + rest, strip) == One(l, strip) + SolidLines(rest, strip)
  {
    NoBreak(l);
    assert l[..|l|] == l;
    var s := l + [NEWLINE] + rest;
    assert s == l + ([NEWLINE] + rest);
    LineEndOf(l, [NEWLINE] + rest);
    assert s[..|l|] == l && s[|l| + 1..] == rest;
  }

  lemma {:induction false} JoinedLines(ls: seq<string>, strip: string -> string)
    requires AllTidy(ls, strip) && strip([]) == []
    ensures SolidLines(Join(ls), strip) == ls
  {
    if ls != [] {
      assert Tidy(ls[0], strip);
      JoinStep(ls);
      if |ls| == 1 {
        FirstLine(ls[0], [], strip);
      } else {
        FirstLine(ls[0], Join(ls[1..]), strip);
        JoinedLines(ls[1..], strip);
      }
    }
  }

  lemma JoinStep(ls: seq<string>)
    requires ls != []
    ensures |ls| == 1 ==> Join(ls) == ls[0] && [ls[0]] == ls
    ensures |ls| > 1 ==> Join(ls) == ls[0] + [NEWLINE] + Join(ls[1..])
    ensures [ls[0]] + ls[1..] == ls
  {
  }

  /** Trimming again changes nothing: it runs at fetch and once more at load. */
  lemma TrimTwice(text: string)
    ensures Trim(Trim(text)) == Trim(text)
  {
    var ls := SolidLines(Collapse(Strip(text)), Strip);
    StripDropsEnds();
    SolidIsTidy(Collapse(Strip(text)));
    KeptFrom(ls, IsHeading);
    JoinedLines(Kept(ls, IsHeading), Strip);
    PreparationKeepsLines(Trim(text), Strip);
    KeptTwice(ls, IsHeading);
  }

  // ----- fetch, cut, load

  lemma {:induction false} KeptIsShorter<T>(ls: seq<T>, heading: T -> bool)
    ensures |Kept(ls, heading)| <= |ls|
  {
    if ls != [] {
      KeptIsShorter(ls[1..], heading);
    }
  }

  /** Cutting trimmed lines after k of them, with anything behind, can only cost the last of the k. */
  lemma {:induction false} KeptBeforeCut<T>(ls: seq<T>, k: nat, tail: seq<T>, heading: T -> bool)
    requires Kept(ls, heading) == ls && 0 < k <= |ls|
    ensures Kept(ls[..k] + tail, heading) == ls[..k - 1] + Kept([ls[k - 1]] + tail, heading)
  {
    KeptIsShorter(ls[1..], heading);
    assert Kept(ls[1..], heading) == ls[1..] by {
      assert ([ls[0]] + Kept(ls[1..], heading))[1..] == Kept(ls[1..], heading);
    }
    if k == 1 {
      assert ls[..1] == [ls[0]] && ls[..0] + Kept([ls[0]] + tail, heading) == Kept([ls[0]] + tail, heading);
    } else {
      var whole := ls[..k] + tail;
      KeptBeforeCut(ls[1..], k - 1, tail, heading);
      assert whole[0] == ls[0] && whole[1] == ls[1] && whole[1..] == ls[1..][..k - 1] + tail;
      Reassociate([ls[0]], ls[1..][..k - 2], Kept([ls[k - 1]] + tail, heading));
      assert [ls[0]] + ls[1..][..k - 2] == ls[..k - 1];
    }
  }

  /** How many lines are whole within the first m characters of the joined lines, and what the cut
      leaves of the next one. */
  function Whole(ls: seq<string>, m: nat): (k: nat)
    ensures k <= |ls|
  {
    if ls == [] || m <= |ls[0]| then 0 else 1 + Whole(ls[1..], m - |ls[0]| - 1)
  }

  function Torn(ls: seq<string>, m: nat): string {
    if ls == [] then [] else if m <= |ls[0]| then ls[0][..m] else Torn(ls[1..], m - |ls[0]| - 1)
  }

  lemma TakeJoin(l: string, rest: string, m: nat)
    requires |l| < m <= |l| + 1 + |rest|
    ensures (l + [NEWLINE] + rest)[..m] == l + [NEWLINE] + rest[..m - |l| - 1]
  {
  }

  lemma TornFirst(l: string, rest: string, m: nat, strip: string -> string)
    requires NEWLINE !in l && m <= |l| <= |rest| && rest[..|l|] == l
    ensures SolidLines(rest[..m], strip) == One(l[..m], strip)
  {
    assert rest[..m] == l[..m];
    FirstLine(l[..m], [], strip);
  }

  lemma {:induction false} CutLines(ls: seq<string>, m: nat, strip: string -> string)
    requires AllTidy(ls, strip) && strip([]) == [] && m <= |Join(ls)|
    ensures SolidLines(Join(ls)[..m], strip) == ls[..Whole(ls, m)] + One(Torn(ls, m), strip)
  {
    if ls == [] {
      OneLine([], strip);
      assert Join(ls)[..m] == [] && ls[..Whole(ls, m)] == [];
    } else {
      var l := ls[0];
      assert Tidy(l, strip);
      JoinStep(ls);
      if m <= |l| {
        TornFirst(l, Join(ls), m, strip);
        assert Whole(ls, m) == 0 && Torn(ls, m) == l[..m];
        assert ls[..0] + One(l[..m], strip) == One(l[..m], strip);
      } else {
        CutLines(ls[1..], m - |l| - 1, strip);
        CutDeeper(ls, m, strip);
      }
    }
  }

  lemma CutDeeper(ls: seq<string>, m: nat, strip: string -> string)
    requires ls != [] && Tidy(ls[0], strip) && |ls[0]| < m <= |Join(ls)|
    requires m - |ls[0]| - 1 <= |Join(ls[1..])|
    requires SolidLines(Join(ls[1..])[..m - |ls[0]| - 1], strip)
             == ls[1..][..Whole(ls[1..], m - |ls[0]| - 1)] + One(Torn(ls[1..], m - |ls[0]| - 1), strip)
    ensures SolidLines(Join(ls)[..m], strip) == ls[..Whole(ls, m)] + One(Torn(ls, m), strip)
  {
    var l, n, rest := ls[0], m - |ls[0]| - 1, Join(ls[1..]);
    var k, tail := Whole(ls[1..], n), One(Torn(ls[1..], n), strip);
    JoinStep(ls);
    assert Join(ls)[..m] == l + [NEWLINE] + rest[..n] by {
      TakeJoin(l, rest, m);
    }
    FirstLine(l, rest[..n], strip);
    assert One(l, strip) == [l];
    Prepend(ls, k, tail);
    WholeStep(ls, m);
  }

  lemma WholeStep(ls: seq<string>, m: nat)
    requires ls != [] && |ls[0]| < m
    ensures Whole(ls, m) == 1 + Whole(ls[1..], m - |ls[0]| - 1) && Torn(ls, m) == Torn(ls[1..], m - |ls[0]| - 1)
  {
  }

  lemma Prepend<T>(ls: seq<T>, k: nat, tail: seq<T>)
    requires ls != [] && k < |ls|
    ensures [ls[0]] + (ls[1..][..k] + tail) == ls[..k + 1] + tail
  {
  }

  /** The lines of a trimmed text. */
  function TrimmedLines(text: string): seq<string> {
    Kept(SolidLines(Collapse(Strip(text)), Strip), IsHeading)
  }

  lemma TrimmedIsTidy(text: string)
    ensures AllTidy(TrimmedLines(text), Strip) && Kept(TrimmedLines(text), IsHeading) == TrimmedLines(text)
    ensures Trim(text) == Join(TrimmedLines(text))
  {
    var ls := SolidLines(Collapse(Strip(text)), Strip);
    SolidIsTidy(Collapse(Strip(text)));
    KeptFrom(ls, IsHeading);
    KeptTwice(ls, IsHeading);
  }

  function Cut(text: string, max: nat): string {
    if |text| <= max then text else text[..max]
  }

  /** Loading a page that was not cut gives what was fetched.  Loading one that was cut keeps every
      whole line but perhaps the last, and that too when it is no heading. */
  lemma LoadAfterFetch(raw: string, max: nat)
    ensures |Trim(raw)| <= max ==> Trim(Cut(Trim(raw), max)) == Trim(raw)
    ensures |Trim(raw)| > max ==>
              var ls := TrimmedLines(raw);
              var k, loaded := Whole(ls, max), TrimmedLines(Cut(Trim(raw), max));
              && (k > 0 ==> ls[..k - 1] <= loaded)
              && Bodies(loaded, IsHeading) == Bodies(ls[..k] + One(Torn(ls, max), Strip), IsHeading)
  {
    TrimTwice(raw);
    if |Trim(raw)| > max {
      var ls := TrimmedLines(raw);
      var k, tail, cut := Whole(ls, max), One(Torn(ls, max), Strip), Cut(Trim(raw), max);
      TrimmedIsTidy(raw);
      StripDropsEnds();
      PreparationKeepsLines(cut, Strip);
      CutLines(ls, max, Strip);
      BodiesKept(ls[..k] + tail, IsHeading);
      if k > 0 {
        KeptBeforeCut(ls, k, tail, IsHeading);
      }
    }
  }
}
