/**
 The paginated collector (_cases_from_ninja and _payload_cases_from_rows in
 scripts/run_phase45_researcher_batch.py): list pages are fetched with retries, filtered, sampled,
 and turned into numbered cases until the limit is reached.
 */
module Collector {
  import opened SampleRows

  datatype Option<+T> = None | Some(value: T)

  datatype Ref = Ref(text: string)
  datatype Hash = Hash(text: string)

  /** What a detail page yields: the hash of the code, and that of its XML when it decodes. */
  datatype Payload = Payload(code: Hash, xml: Option<Hash>)

  datatype Case = Case(number: nat, key: RowKey, character: Ref, source: Hash, identity: Hash)

  const MAX_PAGES: nat := 15
  const MAX_RETRIES: nat := 2

  /** A string's place is 0 when it is empty. */
  predicate Named(r: Row) {
    r.account.rank != 0 && r.name.rank != 0
  }

  function IdentityOf(p: Payload): Hash {
    if p.xml.Some? then p.xml.value else p.code
  }

  /** What the caller asks for; normal is the normalised, case-folded form of an ascendancy. */
  datatype Filter = Filter(
    levelMin: int, levelMax: int, ascendancies: set<Text>, classes: set<Text>, normal: Text -> Text)

  predicate Passes(f: Filter, r: Row) {
    && f.levelMin <= r.level <= f.levelMax
    && (f.ascendancies != {} ==> f.normal(r.ascendancy) in f.ascendancies)
    && (f.classes != {} ==> f.normal(r.ascendancy) in f.classes)
  }

  predicate Wanted(f: Filter, r: Row) {
    Passes(f, r) && Named(r)
  }

  /** Targets replace the ledger and the studied sources as the criterion. */
  predicate Admissible(targets: Option<set<Ref>>, ledger: set<Ref>, ref: Ref) {
    if targets.Some? then ref in targets.value else ref !in ledger
  }

  function CaseOf(r: Row, p: Payload, number: nat, refOf: RowKey -> Ref): Case {
    Case(number, KeyOf(r), refOf(KeyOf(r)), p.code, IdentityOf(p))
  }

  function Identities(cases: seq<Case>): set<Hash> {
    set c | c in cases :: c.identity
  }

  /** One more row: it becomes a case unless the target is reached or there is nothing new in it. */
  function Step(before: seq<Case>, r: Row, detail: Row -> Option<Payload>, refOf: RowKey -> Ref, target: Option<nat>,
                start: nat, known: set<Hash>, studied: set<Hash>): seq<Case>
  {
    if target.Some? && |before| >= target.value then before
    else if detail(r).None? || detail(r).value.code in studied then before
    else if IdentityOf(detail(r).value) in known + Identities(before) then before
    else before + [CaseOf(r, detail(r).value, start + |before|, refOf)]
  }

  /** The cases taken from these rows, in order, up to the target. */
  function Taken(rows: seq<Row>, detail: Row -> Option<Payload>, refOf: RowKey -> Ref, target: Option<nat>,
                 start: nat, known: set<Hash>, studied: set<Hash>): seq<Case>
  {
    if rows == [] then []
    else
      Step(Taken(rows[..|rows| - 1], detail, refOf, target, start, known, studied), rows[|rows| - 1],
           detail, refOf, target, start, known, studied)
  }

  lemma IdentitiesPush(cases: seq<Case>, c: Case)
    ensures Identities(cases + [c]) == Identities(cases) + {c.identity}
  {
  }

  lemma TakenPush(rows: seq<Row>, i: nat, detail: Row -> Option<Payload>, refOf: RowKey -> Ref, target: Option<nat>,
                  start: nat, known: set<Hash>, studied: set<Hash>)
    requires i < |rows|
    ensures Taken(rows[..i + 1], detail, refOf, target, start, known, studied)
            == Step(Taken(rows[..i], detail, refOf, target, start, known, studied), rows[i],
                    detail, refOf, target, start, known, studied)
  {
    assert rows[..i + 1][..i] == rows[..i];
  }

  lemma {:induction false} TakenFull(rows: seq<Row>, i: nat, detail: Row -> Option<Payload>, refOf: RowKey -> Ref,
                                     target: Option<nat>, start: nat, known: set<Hash>, studied: set<Hash>)
    requires i <= |rows| && target.Some?
    requires |Taken(rows[..i], detail, refOf, target, start, known, studied)| >= target.value
    ensures Taken(rows, detail, refOf, target, start, known, studied)
            == Taken(rows[..i], detail, refOf, target, start, known, studied)
    decreases |rows| - i
  {
    if i < |rows| {
      TakenPush(rows, i, detail, refOf, target, start, known, studied);
      TakenFull(rows, i + 1, detail, refOf, target, start, known, studied);
    } else {
      assert rows[..i] == rows;
    }
  }

  lemma TakenNone(rows: seq<Row>, detail: Row -> Option<Payload>, refOf: RowKey -> Ref, start: nat, known: set<Hash>,
                  studied: set<Hash>)
    ensures Taken(rows, detail, refOf, Some(0), start, known, studied) == []
  {
  }

  /** Each case is the case of a row, and the rows come in order. */
  ghost predicate FromRows(cases: seq<Case>, rows: seq<Row>, detail: Row -> Option<Payload>, refOf: RowKey -> Ref,
                           start: nat, studied: set<Hash>)
  {
    forall i | 0 <= i < |cases| :: MadeFrom(cases[i], rows, detail, refOf, start + i, studied)
  }

  ghost predicate MadeFrom(c: Case, rows: seq<Row>, detail: Row -> Option<Payload>, refOf: RowKey -> Ref, number: nat,
                           studied: set<Hash>)
  {
    exists r :: r in rows && detail(r).Some? && detail(r).value.code !in studied
                && c == CaseOf(r, detail(r).value, number, refOf)
  }

  ghost predicate DistinctIdentities(cases: seq<Case>) {
    forall i, j | 0 <= i < j < |cases| :: cases[i].identity != cases[j].identity
  }

  ghost predicate DistinctKeys(cases: seq<Case>) {
    forall i, j | 0 <= i < j < |cases| :: cases[i].key != cases[j].key
  }

  lemma {:induction false} TakenFacts(rows: seq<Row>, detail: Row -> Option<Payload>, refOf: RowKey -> Ref,
                                      target: Option<nat>, start: nat, known: set<Hash>, studied: set<Hash>)
    ensures var cases := Taken(rows, detail, refOf, target, start, known, studied);
            && FromRows(cases, rows, detail, refOf, start, studied)
            && DistinctIdentities(cases) && Identities(cases) !! known
            && (UniqueKeys(rows) ==> DistinctKeys(cases))
            && (target.Some? ==> |cases| <= target.value)
  {
    if rows != [] {
      var n := |rows| - 1;
      TakenFacts(rows[..n], detail, refOf, target, start, known, studied);
      StepFacts(Taken(rows[..n], detail, refOf, target, start, known, studied), rows, n, detail, refOf, target, start,
                known, studied);
    }
  }

  lemma StepFacts(before: seq<Case>, rows: seq<Row>, n: nat, detail: Row -> Option<Payload>, refOf: RowKey -> Ref,
                  target: Option<nat>, start: nat, known: set<Hash>, studied: set<Hash>)
    requires n < |rows| && FromRows(before, rows[..n], detail, refOf, start, studied)
    requires DistinctIdentities(before) && Identities(before) !! known
    requires UniqueKeys(rows[..n]) ==> DistinctKeys(before)
    requires target.Some? ==> |before| <= target.value
    ensures var cases := Step(before, rows[n], detail, refOf, target, start, known, studied);
            && FromRows(cases, rows, detail, refOf, start, studied)
            && DistinctIdentities(cases) && Identities(cases) !! known
            && (UniqueKeys(rows) ==> DistinctKeys(cases))
            && (target.Some? ==> |cases| <= target.value)
  {
    var cases := Step(before, rows[n], detail, refOf, target, start, known, studied);
    FromRowsGrow(before, cases, rows, n, detail, refOf, start, studied);
    if UniqueKeys(rows) {
      KeysApartFrom(before, rows, n, detail, refOf, start, studied);
    }
    if cases != before {
      IdentitiesPush(before, cases[|before|]);
    }
  }

  lemma FromRowsGrow(before: seq<Case>, cases: seq<Case>, rows: seq<Row>, n: nat, detail: Row -> Option<Payload>,
                     refOf: RowKey -> Ref, start: nat, studied: set<Hash>)
    requires n < |rows| && FromRows(before, rows[..n], detail, refOf, start, studied)
    requires || cases == before
             || (detail(rows[n]).Some? && detail(rows[n]).value.code !in studied
                 && cases == before + [CaseOf(rows[n], detail(rows[n]).value, start + |before|, refOf)])
    ensures FromRows(cases, rows, detail, refOf, start, studied)
  {
    forall i | 0 <= i < |cases| ensures MadeFrom(cases[i], rows, detail, refOf, start + i, studied) {
      if i < |before| {
        assert MadeFrom(before[i], rows[..n], detail, refOf, start + i, studied);
      } else {
        assert rows[n] in rows;
      }
    }
  }

  lemma KeysApartFrom(before: seq<Case>, rows: seq<Row>, n: nat, detail: Row -> Option<Payload>, refOf: RowKey -> Ref,
                      start: nat, studied: set<Hash>)
    requires n < |rows| && UniqueKeys(rows) && FromRows(before, rows[..n], detail, refOf, start, studied)
    ensures UniqueKeys(rows[..n]) && forall i | 0 <= i < |before| :: before[i].key != KeyOf(rows[n])
  {
  }

  /** Below the target, no row with a payload is passed over unless its content is known. */
  lemma {:induction false} NothingMissed(rows: seq<Row>, detail: Row -> Option<Payload>, refOf: RowKey -> Ref,
                                         target: Option<nat>, start: nat, known: set<Hash>, studied: set<Hash>, r: Row)
    requires r in rows && detail(r).Some? && detail(r).value.code !in studied
    requires var cases := Taken(rows, detail, refOf, target, start, known, studied);
             target.Some? ==> |cases| < target.value
    ensures IdentityOf(detail(r).value)
            in known + Identities(Taken(rows, detail, refOf, target, start, known, studied))
  {
    var n := |rows| - 1;
    var before := Taken(rows[..n], detail, refOf, target, start, known, studied);
    var cases := Taken(rows, detail, refOf, target, start, known, studied);
    assert rows == rows[..n] + [rows[n]];
    assert before <= cases;
    if r == rows[n] {
      if |cases| > |before| {
        assert cases[|before|] in cases;
      }
    } else {
      NothingMissed(rows[..n], detail, refOf, target, start, known, studied, r);
      assert Identities(before) <= Identities(cases);
    }
  }

  // ----- one page

  function WantedKeys(f: Filter, rows: seq<Row>): set<RowKey> {
    set r | r in rows && Wanted(f, r) :: KeyOf(r)
  }

  /** The new characters of a page, each once, that may be collected. */
  ghost predicate Screened(f: Filter, targets: Option<set<Ref>>, ledger: set<Ref>, refOf: RowKey -> Ref,
                           rows: seq<Row>, seen: set<RowKey>, fit: seq<Row>)
  {
    && UniqueKeys(fit)
    && (forall r | r in fit :: r in rows && New(f, targets, ledger, refOf, seen, r))
    && (forall r | r in rows && New(f, targets, ledger, refOf, seen, r) :: HasKey(fit, KeyOf(r)))
  }

  ghost predicate New(f: Filter, targets: Option<set<Ref>>, ledger: set<Ref>, refOf: RowKey -> Ref, seen: set<RowKey>,
                      r: Row)
  {
    Wanted(f, r) && KeyOf(r) !in seen && Admissible(targets, ledger, refOf(KeyOf(r)))
  }

  ghost predicate HasKey(rows: seq<Row>, k: RowKey) {
    exists x :: x in rows && KeyOf(x) == k
  }

  method Screen(f: Filter, targets: Option<set<Ref>>, ledger: set<Ref>, refOf: RowKey -> Ref, rows: seq<Row>,
                known: set<RowKey>)
    returns (fit: seq<Row>, seen: set<RowKey>, passed: nat, repeats: nat, skipped: nat)
    ensures Screened(f, targets, ledger, refOf, rows, known, fit)
    ensures seen == known + WantedKeys(f, rows)
    ensures passed > 0 && repeats == passed ==> fit == [] && WantedKeys(f, rows) <= known
  {
    fit, seen, passed, repeats, skipped := [], known, 0, 0, 0;
    for i := 0 to |rows|
      invariant Screened(f, targets, ledger, refOf, rows[..i], known, fit)
      invariant seen == known + WantedKeys(f, rows[..i])
      invariant repeats <= passed
      invariant repeats == passed ==> fit == [] && WantedKeys(f, rows[..i]) <= known
    {
      var r := rows[i];
      assert rows[..i + 1] == rows[..i] + [r];
      KeysPush(f, rows[..i], r);
      ScreenPush(f, targets, ledger, refOf, rows[..i], known, fit, r);
      if Passes(f, r) {
        passed := passed + 1;
        if !Named(r) || KeyOf(r) in seen {
          if Named(r) {
            repeats := repeats + 1;
          }
        } else {
          seen := seen + {KeyOf(r)};
          var ref := refOf(KeyOf(r));
          if targets.Some? && ref !in targets.value {
          } else if targets.None? && ref in ledger {
            skipped := skipped + 1;
          } else {
            fit := fit + [r];
          }
        }
      }
    }
    assert rows[..|rows|] == rows;
  }

  lemma KeysPush(f: Filter, rows: seq<Row>, r: Row)
    ensures WantedKeys(f, rows + [r]) == WantedKeys(f, rows) + if Wanted(f, r) then {KeyOf(r)} else {}
  {
  }

  lemma ScreenPush(f: Filter, targets: Option<set<Ref>>, ledger: set<Ref>, refOf: RowKey -> Ref, rows: seq<Row>,
                   known: set<RowKey>, fit: seq<Row>, r: Row)
    requires Screened(f, targets, ledger, refOf, rows, known, fit)
    ensures var add := New(f, targets, ledger, refOf, known + WantedKeys(f, rows), r);
            Screened(f, targets, ledger, refOf, rows + [r], known, if add then fit + [r] else fit)
  {
  }

  /** The rows of a page: those of the first of three attempts that found any. */
  function PageRows(list: (nat, nat) -> seq<Row>, page: nat): seq<Row> {
    if list(page, 0) != [] then list(page, 0)
    else if list(page, 1) != [] then list(page, 1)
    else list(page, 2)
  }

  // ----- the collection

  /** What holds of the collected cases all along. */
  ghost predicate Collected(cases: seq<Case>, limit: Option<nat>, f: Filter, targets: Option<set<Ref>>,
                            ledger: set<Ref>, studied: set<Hash>, refOf: RowKey -> Ref, seen: set<RowKey>)
  {
    && (limit.Some? ==> |cases| <= limit.value)
    && (forall i | 0 <= i < |cases| :: cases[i].number == i + 1)
    && DistinctKeys(cases) && DistinctIdentities(cases)
    && (forall c | c in cases ::
          && c.character == refOf(c.key) && c.key in seen
          && Admissible(targets, ledger, c.character)
          && (targets.None? ==> c.source !in studied))
  }

  /** The cases of one more page keep everything. */
  lemma PageKeeps(cases: seq<Case>, limit: Option<nat>, f: Filter, targets: Option<set<Ref>>, ledger: set<Ref>,
                  studied: set<Hash>, refOf: RowKey -> Ref, seen: set<RowKey>, rows: seq<Row>, fit: seq<Row>,
                  sampled: seq<Row>, detail: Row -> Option<Payload>)
    requires Collected(cases, limit, f, targets, ledger, studied, refOf, seen)
    requires Screened(f, targets, ledger, refOf, rows, seen, fit)
    requires UniqueKeys(sampled) && forall r | r in sampled :: r in fit
    ensures var left := if limit.None? then None else Some(limit.value - |cases|);
            var more := Taken(sampled, detail, refOf, left, |cases| + 1, Identities(cases),
                              if targets.None? then studied else {});
            && Collected(cases + more, limit, f, targets, ledger, studied, refOf, seen + WantedKeys(f, rows))
            && Identities(cases + more) == Identities(cases) + Identities(more)
  {
    var left: Option<nat> := if limit.None? then None else Some(limit.value - |cases|);
    var use := if targets.None? then studied else {};
    var more := Taken(sampled, detail, refOf, left, |cases| + 1, Identities(cases), use);
    TakenFacts(sampled, detail, refOf, left, |cases| + 1, Identities(cases), use);
    MoreIsFresh(more, |cases| + 1, targets, ledger, studied, refOf, seen, f, rows, sampled, detail);
    JoinCases(cases, more, limit, f, targets, ledger, studied, refOf, seen, WantedKeys(f, rows));
  }

  lemma MoreIsFresh(more: seq<Case>, start: nat, targets: Option<set<Ref>>, ledger: set<Ref>, studied: set<Hash>,
                    refOf: RowKey -> Ref, seen: set<RowKey>, f: Filter, rows: seq<Row>, sampled: seq<Row>,
                    detail: Row -> Option<Payload>)
    requires FromRows(more, sampled, detail, refOf, start, if targets.None? then studied else {})
    requires forall r | r in sampled :: r in rows && New(f, targets, ledger, refOf, seen, r)
    ensures forall i | 0 <= i < |more| ::
              more[i].number == start + i && Fresh(more[i], targets, ledger, studied, refOf, seen, WantedKeys(f, rows))
  {
  }

  /** A case of a character that was not seen before. */
  ghost predicate Fresh(c: Case, targets: Option<set<Ref>>, ledger: set<Ref>, studied: set<Hash>, refOf: RowKey -> Ref,
                        seen: set<RowKey>, listed: set<RowKey>)
  {
    && c.character == refOf(c.key) && c.key in listed && c.key !in seen
    && Admissible(targets, ledger, c.character) && (targets.None? ==> c.source !in studied)
  }

  lemma JoinCases(cases: seq<Case>, more: seq<Case>, limit: Option<nat>, f: Filter, targets: Option<set<Ref>>,
                  ledger: set<Ref>, studied: set<Hash>, refOf: RowKey -> Ref, seen: set<RowKey>, listed: set<RowKey>)
    requires Collected(cases, limit, f, targets, ledger, studied, refOf, seen)
    requires forall i | 0 <= i < |more| :: Fresh(more[i], targets, ledger, studied, refOf, seen, listed)
    requires forall i | 0 <= i < |more| :: more[i].number == |cases| + 1 + i
    requires DistinctKeys(more) && DistinctIdentities(more) && Identities(more) !! Identities(cases)
    requires limit.Some? ==> |cases| + |more| <= limit.value
    ensures Collected(cases + more, limit, f, targets, ledger, studied, refOf, seen + listed)
    ensures Identities(cases + more) == Identities(cases) + Identities(more)
  {
    assert forall c | c in more :: c.identity in Identities(more);
    JoinDistinct(cases, more, seen);
  }

  lemma JoinDistinct(cases: seq<Case>, more: seq<Case>, seen: set<RowKey>)
    requires DistinctKeys(cases) && DistinctIdentities(cases) && DistinctKeys(more) && DistinctIdentities(more)
    requires forall c | c in cases :: c.key in seen
    requires forall c | c in more :: c.key !in seen && c.identity !in Identities(cases)
    ensures DistinctKeys(cases + more) && DistinctIdentities(cases + more)
    ensures Identities(cases + more) == Identities(cases) + Identities(more)
  {
  }

  /** A row of this character was tried: it had no payload, or its content is studied or collected. */
  ghost predicate Tried(rows: seq<Row>, f: Filter, studied: set<Hash>, detail: Row -> Option<Payload>, k: RowKey,
                        identities: set<Hash>)
  {
    exists r :: r in rows && Wanted(f, r) && KeyOf(r) == k
                && (detail(r).None? || detail(r).value.code in studied || IdentityOf(detail(r).value) in identities)
  }

  ghost predicate TriedBy(list: (nat, nat) -> seq<Row>, pages: nat, f: Filter, studied: set<Hash>,
                          detail: Row -> Option<Payload>, k: RowKey, identities: set<Hash>)
  {
    exists p :: 1 <= p <= pages && Tried(PageRows(list, p), f, studied, detail, k, identities)
  }

  lemma TriedGrows(list: (nat, nat) -> seq<Row>, pages: nat, f: Filter, studied: set<Hash>,
                   detail: Row -> Option<Payload>, k: RowKey, identities: set<Hash>, more: set<Hash>)
    requires TriedBy(list, pages, f, studied, detail, k, identities)
    ensures TriedBy(list, pages + 1, f, studied, detail, k, identities + more)
  {
  }

  /** All keys listed so far, and each admissible one was tried unless the limit was reached. */
  ghost predicate Covered(list: (nat, nat) -> seq<Row>, pages: nat, f: Filter, targets: Option<set<Ref>>,
                          ledger: set<Ref>, studied: set<Hash>, refOf: RowKey -> Ref,
                          detail: Row -> Option<Payload>, seen: set<RowKey>, identities: set<Hash>)
  {
    forall k | k in seen && Admissible(targets, ledger, refOf(k)) ::
      TriedBy(list, pages, f, if targets.None? then studied else {}, detail, k, identities)
  }

  /** The keys of all wanted rows on the first pages. */
  function ListedKeys(list: (nat, nat) -> seq<Row>, pages: nat, f: Filter): set<RowKey> {
    if pages == 0 then {} else ListedKeys(list, pages - 1, f) + WantedKeys(f, PageRows(list, pages))
  }

  /** A page whose new rows have all been offered keeps the coverage. */
  lemma CoveredNext(list: (nat, nat) -> seq<Row>, pages: nat, f: Filter, targets: Option<set<Ref>>, ledger: set<Ref>,
                    studied: set<Hash>, refOf: RowKey -> Ref, detail: Row -> Option<Payload>, seen: set<RowKey>,
                    identities: set<Hash>, fit: seq<Row>, sampled: seq<Row>, left: Option<nat>, start: nat)
    requires Covered(list, pages, f, targets, ledger, studied, refOf, detail, seen, identities)
    requires Screened(f, targets, ledger, refOf, PageRows(list, pages + 1), seen, fit)
    requires forall r | r in fit :: r in sampled
    requires var more := Taken(sampled, detail, refOf, left, start, identities, if targets.None? then studied else {});
             left.Some? ==> |more| < left.value
    ensures var more := Taken(sampled, detail, refOf, left, start, identities, if targets.None? then studied else {});
            Covered(list, pages + 1, f, targets, ledger, studied, refOf, detail,
                    seen + WantedKeys(f, PageRows(list, pages + 1)), identities + Identities(more))
  {
    var use := if targets.None? then studied else {};
    var more := Taken(sampled, detail, refOf, left, start, identities, use);
    var next := pages + 1;
    var rows := PageRows(list, next);
    forall k | k in seen + WantedKeys(f, rows) && Admissible(targets, ledger, refOf(k))
      ensures TriedBy(list, next, f, use, detail, k, identities + Identities(more))
    {
      if k in seen {
        TriedGrows(list, pages, f, use, detail, k, identities, Identities(more));
      } else {
        var r :| r in rows && Wanted(f, r) && KeyOf(r) == k;
        assert New(f, targets, ledger, refOf, seen, r);
        var x :| x in fit && KeyOf(x) == k;
        if detail(x).Some? && detail(x).value.code !in use {
          NothingMissed(sampled, detail, refOf, left, start, identities, use, x);
        }
        assert Tried(rows, f, use, detail, k, identities + Identities(more));
      }
    }
  }

  /** The number of cases asked for: never negative, and no more than there are targets. */
  function LimitOf(limit: Option<int>, targets: Option<set<Ref>>): Option<nat> {
    var asked: Option<nat> := if limit.None? then None else Some(if limit.value > 0 then limit.value else 0);
    if targets.None? then asked
    else if asked.None? || |targets.value| < asked.value then Some(|targets.value|)
    else asked
  }

  predicate Below(cases: seq<Case>, limit: Option<nat>) {
    limit.Some? ==> |cases| < limit.value
  }

  function Matched(cases: seq<Case>, targets: set<Ref>): set<Ref> {
    set c | c in cases && c.character in targets :: c.character
  }

  // ----- where a case comes from, written out

  /** The rows of a list page: those of the first of its three attempts that found any. */
  ghost predicate OnPage(list: (nat, nat) -> seq<Row>, page: nat, r: Row) {
    || r in list(page, 0)
    || (list(page, 0) == [] && r in list(page, 1))
    || (list(page, 0) == [] && list(page, 1) == [] && r in list(page, 2))
  }

  /** A named character within the level bounds and, where any are asked for, of one of the asked
      ascendancies and of one of the asked classes. */
  ghost predicate Asked(f: Filter, r: Row) {
    && r.account.rank > 0 && r.name.rank > 0
    && r.level >= f.levelMin && r.level <= f.levelMax
    && (f.ascendancies == {} || f.normal(r.ascendancy) in f.ascendancies)
    && (f.classes == {} || f.normal(r.ascendancy) in f.classes)
  }

  /** The case is about the row's character and its payload: its identity is the hash of the XML, or
      that of the code when the code does not decode. */
  ghost predicate CaseWritten(c: Case, r: Row, detail: Row -> Option<Payload>, refOf: RowKey -> Ref) {
    && c.key.account == r.account && c.key.name == r.name && c.character == refOf(RowKey(r.account, r.name))
    && detail(r).Some? && c.source == detail(r).value.code
    && (detail(r).value.xml.Some? ==> c.identity == detail(r).value.xml.value)
    && (detail(r).value.xml.None? ==> c.identity == c.source)
  }

  /** The list page and the row a case was made from. */
  datatype Origin = Origin(page: nat, row: Row)

  ghost predicate MadeOf(c: Case, o: Origin, list: (nat, nat) -> seq<Row>, f: Filter, detail: Row -> Option<Payload>,
                         refOf: RowKey -> Ref)
  {
    OnPage(list, o.page, o.row) && Asked(f, o.row) && CaseWritten(c, o.row, detail, refOf)
  }

  /** Page after page, and on a page the higher levels of an ascendancy first, then by name. */
  predicate InTurn(a: Origin, b: Origin) {
    || a.page < b.page
    || (a.page == b.page
        && (a.row.ascendancy == b.row.ascendancy ==>
              a.row.level > b.row.level || (a.row.level == b.row.level && a.row.name.rank <= b.row.name.rank)))
  }

  ghost predicate OriginsOf(cases: seq<Case>, origins: seq<Origin>, list: (nat, nat) -> seq<Row>, first: nat, last: nat,
                            f: Filter, detail: Row -> Option<Payload>, refOf: RowKey -> Ref)
  {
    && |origins| == |cases|
    && (forall i | 0 <= i < |cases| :: MadeOf(cases[i], origins[i], list, f, detail, refOf))
    && (forall o | o in origins :: first <= o.page <= last)
    && forall i, j | 0 <= i < j < |origins| :: InTurn(origins[i], origins[j])
  }

  ghost predicate AllListed(cases: seq<Case>, list: (nat, nat) -> seq<Row>, first: nat, last: nat, f: Filter,
                            detail: Row -> Option<Payload>, refOf: RowKey -> Ref)
  {
    exists origins :: OriginsOf(cases, origins, list, first, last, f, detail, refOf)
  }

  /** The rows of the cases, in their order. */
  ghost predicate RowsOf(cases: seq<Case>, from: seq<Row>, rows: seq<Row>, detail: Row -> Option<Payload>,
                         refOf: RowKey -> Ref)
  {
    && |from| == |cases|
    && (forall i | 0 <= i < |from| :: from[i] in rows && CaseWritten(cases[i], from[i], detail, refOf))
    && forall i, j | 0 <= i < j < |from| :: Precedes(rows, from[i], from[j])
  }

  lemma PrecedesGrows(rows: seq<Row>, r: Row, x: Row, y: Row)
    requires Precedes(rows, x, y) || (x in rows && y == r)
    ensures Precedes(rows + [r], x, y)
  {
    var next := rows + [r];
    if Precedes(rows, x, y) {
      var i, j :| 0 <= i < j < |rows| && rows[i] == x && rows[j] == y;
      assert next[i] == x && next[j] == y;
    } else {
      var i :| 0 <= i < |rows| && rows[i] == x;
      assert next[i] == x && next[|rows|] == y;
    }
  }

  lemma RowsPush(cases: seq<Case>, from: seq<Row>, rows: seq<Row>, r: Row, detail: Row -> Option<Payload>,
                 refOf: RowKey -> Ref)
    requires RowsOf(cases, from, rows, detail, refOf)
    ensures RowsOf(cases, from, rows + [r], detail, refOf)
    ensures forall c: Case :: CaseWritten(c, r, detail, refOf) ==>
              RowsOf(cases + [c], from + [r], rows + [r], detail, refOf)
  {
    forall i, j | 0 <= i < j < |from| ensures Precedes(rows + [r], from[i], from[j]) {
      PrecedesGrows(rows, r, from[i], from[j]);
    }
    forall i | 0 <= i < |from| ensures Precedes(rows + [r], from[i], r) {
      PrecedesGrows(rows, r, from[i], r);
    }
  }

  lemma {:induction false} TakenRows(rows: seq<Row>, detail: Row -> Option<Payload>, refOf: RowKey -> Ref,
                                     target: Option<nat>, start: nat, known: set<Hash>, studied: set<Hash>)
    returns (from: seq<Row>)
    ensures RowsOf(Taken(rows, detail, refOf, target, start, known, studied), from, rows, detail, refOf)
  {
    from := [];
    if rows != [] {
      var n := |rows| - 1;
      from := TakenRows(rows[..n], detail, refOf, target, start, known, studied);
      var before := Taken(rows[..n], detail, refOf, target, start, known, studied);
      var cases := Taken(rows, detail, refOf, target, start, known, studied);
      RowsPush(before, from, rows[..n], rows[n], detail, refOf);
      assert rows == rows[..n] + [rows[n]];
      if cases != before {
        from := from + [rows[n]];
      }
    }
  }

  lemma MoreListed(more: seq<Case>, from: seq<Row>, list: (nat, nat) -> seq<Row>, page: nat, f: Filter,
                   targets: Option<set<Ref>>, ledger: set<Ref>, seen: set<RowKey>, detail: Row -> Option<Payload>,
                   refOf: RowKey -> Ref, fit: seq<Row>, sampled: seq<Row>)
    requires RowsOf(more, from, sampled, detail, refOf) && BestFirst(fit, sampled)
    requires Screened(f, targets, ledger, refOf, PageRows(list, page), seen, fit)
    requires forall r | r in sampled :: r in fit
    ensures AllListed(more, list, page, page, f, detail, refOf)
  {
    var origins := seq(|from|, i requires 0 <= i < |from| => Origin(page, from[i]));
    forall i | 0 <= i < |more| ensures MadeOf(more[i], origins[i], list, f, detail, refOf) {
      assert New(f, targets, ledger, refOf, seen, from[i]);
    }
    forall i, j | 0 <= i < j < |origins| ensures InTurn(origins[i], origins[j]) {
      var v, w :| 0 <= v < w < |sampled| && sampled[v] == from[i] && sampled[w] == from[j];
      if from[i].ascendancy == from[j].ascendancy {
        assert Ahead(fit, sampled[v], sampled[w]);
      }
    }
    assert OriginsOf(more, origins, list, page, page, f, detail, refOf);
  }

  lemma JoinListed(cases: seq<Case>, more: seq<Case>, list: (nat, nat) -> seq<Row>, pages: nat, f: Filter,
                   detail: Row -> Option<Payload>, refOf: RowKey -> Ref)
    requires AllListed(cases, list, 1, pages, f, detail, refOf)
    requires AllListed(more, list, pages + 1, pages + 1, f, detail, refOf)
    ensures AllListed(cases + more, list, 1, pages + 1, f, detail, refOf)
  {
    var before :| OriginsOf(cases, before, list, 1, pages, f, detail, refOf);
    var next := pages + 1;
    var after :| OriginsOf(more, after, list, next, next, f, detail, refOf);
    JoinOrigins(cases, before, more, after, list, pages, f, detail, refOf);
  }

  lemma JoinOrigins(cases: seq<Case>, before: seq<Origin>, more: seq<Case>, after: seq<Origin>,
                    list: (nat, nat) -> seq<Row>, pages: nat, f: Filter, detail: Row -> Option<Payload>,
                    refOf: RowKey -> Ref)
    requires OriginsOf(cases, before, list, 1, pages, f, detail, refOf)
    requires OriginsOf(more, after, list, pages + 1, pages + 1, f, detail, refOf)
    ensures OriginsOf(cases + more, before + after, list, 1, pages + 1, f, detail, refOf)
  {
    var all, origins := cases + more, before + after;
    forall i | 0 <= i < |all| ensures MadeOf(all[i], origins[i], list, f, detail, refOf) {
      if i < |cases| {
        assert MadeOf(cases[i], before[i], list, f, detail, refOf);
      } else {
        assert MadeOf(more[i - |cases|], after[i - |cases|], list, f, detail, refOf);
      }
    }
    forall i, j | 0 <= i < j < |origins| ensures InTurn(origins[i], origins[j]) {
      if j < |before| {
        assert InTurn(before[i], before[j]);
      } else if i < |before| {
        assert before[i] in before && after[j - |before|] in after;
      } else {
        assert InTurn(after[i - |before|], after[j - |before|]);
      }
    }
  }

  lemma StillListed(cases: seq<Case>, pages: nat, seen: set<RowKey>, f: Filter, targets: Option<set<Ref>>,
                    ledger: set<Ref>, use: set<Hash>, list: (nat, nat) -> seq<Row>, detail: Row -> Option<Payload>,
                    refOf: RowKey -> Ref, fit: seq<Row>, sampled: seq<Row>, left: Option<nat>)
    requires AllListed(cases, list, 1, pages, f, detail, refOf)
    requires Screened(f, targets, ledger, refOf, PageRows(list, pages + 1), seen, fit)
    requires BestFirst(fit, sampled) && forall r | r in sampled :: r in fit
    ensures AllListed(cases + Taken(sampled, detail, refOf, left, |cases| + 1, Identities(cases), use), list, 1,
                      pages + 1, f, detail, refOf)
  {
    var more := Taken(sampled, detail, refOf, left, |cases| + 1, Identities(cases), use);
    var from := TakenRows(sampled, detail, refOf, left, |cases| + 1, Identities(cases), use);
    MoreListed(more, from, list, pages + 1, f, targets, ledger, seen, detail, refOf, fit, sampled);
    JoinListed(cases, more, list, pages, f, detail, refOf);
  }

  /** Where the collection stands after some pages. */
  ghost predicate Standing(cases: seq<Case>, pages: nat, seen: set<RowKey>, limit: Option<nat>, f: Filter,
                           targets: Option<set<Ref>>, ledger: set<Ref>, studied: set<Hash>,
                           list: (nat, nat) -> seq<Row>, detail: Row -> Option<Payload>, refOf: RowKey -> Ref)
  {
    && Collected(cases, limit, f, targets, ledger, studied, refOf, seen)
    && seen == ListedKeys(list, pages, f)
    && AllListed(cases, list, 1, pages, f, detail, refOf)
    && (Below(cases, limit) ==>
          Covered(list, pages, f, targets, ledger, studied, refOf, detail, seen, Identities(cases)))
  }

  lemma StandingStart(limit: Option<nat>, f: Filter, targets: Option<set<Ref>>, ledger: set<Ref>, studied: set<Hash>,
                      list: (nat, nat) -> seq<Row>, detail: Row -> Option<Payload>, refOf: RowKey -> Ref)
    ensures Standing([], 0, {}, limit, f, targets, ledger, studied, list, detail, refOf)
    ensures Identities([]) == {}
  {
    assert OriginsOf([], [], list, 1, 0, f, detail, refOf);
  }

  lemma StillCovered(cases: seq<Case>, pages: nat, seen: set<RowKey>, limit: Option<nat>, f: Filter,
                     targets: Option<set<Ref>>, ledger: set<Ref>, studied: set<Hash>,
                     list: (nat, nat) -> seq<Row>, detail: Row -> Option<Payload>, refOf: RowKey -> Ref,
                     fit: seq<Row>, sampled: seq<Row>)
    requires Covered(list, pages, f, targets, ledger, studied, refOf, detail, seen, Identities(cases))
    requires Screened(f, targets, ledger, refOf, PageRows(list, pages + 1), seen, fit)
    requires Below(cases, limit) && forall r | r in fit :: r in sampled
    ensures var left := if limit.None? then None else Some(limit.value - |cases|);
            var more := Taken(sampled, detail, refOf, left, |cases| + 1, Identities(cases),
                              if targets.None? then studied else {});
            Below(cases + more, limit) ==>
              Covered(list, pages + 1, f, targets, ledger, studied, refOf, detail,
                      seen + WantedKeys(f, PageRows(list, pages + 1)), Identities(cases) + Identities(more))
  {
    var left: Option<nat> := if limit.None? then None else Some(limit.value - |cases|);
    var hashes := if targets.None? then studied else {};
    var more := Taken(sampled, detail, refOf, left, |cases| + 1, Identities(cases), hashes);
    if Below(cases + more, limit) {
      CoveredNext(list, pages, f, targets, ledger, studied, refOf, detail, seen, Identities(cases), fit, sampled, left,
                  |cases| + 1);
    }
  }

  lemma StandingNext(cases: seq<Case>, pages: nat, seen: set<RowKey>, limit: Option<nat>, f: Filter,
                     targets: Option<set<Ref>>, ledger: set<Ref>, studied: set<Hash>,
                     list: (nat, nat) -> seq<Row>, detail: Row -> Option<Payload>, refOf: RowKey -> Ref,
                     fit: seq<Row>, sampled: seq<Row>)
    requires Standing(cases, pages, seen, limit, f, targets, ledger, studied, list, detail, refOf)
    requires Screened(f, targets, ledger, refOf, PageRows(list, pages + 1), seen, fit)
    requires UniqueKeys(sampled) && BestFirst(fit, sampled) && forall r :: r in sampled <==> r in fit
    requires Below(cases, limit)
    ensures var left := if limit.None? then None else Some(limit.value - |cases|);
            var more := Taken(sampled, detail, refOf, left, |cases| + 1, Identities(cases),
                              if targets.None? then studied else {});
            && Standing(cases + more, pages + 1, seen + WantedKeys(f, PageRows(list, pages + 1)), limit, f, targets,
                        ledger, studied, list, detail, refOf)
            && Identities(cases + more) == Identities(cases) + Identities(more)
  {
    PageKeeps(cases, limit, f, targets, ledger, studied, refOf, seen, PageRows(list, pages + 1), fit, sampled, detail);
    StillCovered(cases, pages, seen, limit, f, targets, ledger, studied, list, detail, refOf, fit, sampled);
    StillListed(cases, pages, seen, f, targets, ledger, if targets.None? then studied else {}, list, detail, refOf, fit,
                sampled, if limit.None? then None else Some(limit.value - |cases|));
  }

  /** Why a collection may end below its limit: all pages were read, or the last one was empty or
      had nothing that was not listed before. */
  ghost predicate Ended(list: (nat, nat) -> seq<Row>, pages: nat, f: Filter) {
    || pages == MAX_PAGES
    || (1 <= pages && PageRows(list, pages) == [])
    || (1 <= pages && WantedKeys(f, PageRows(list, pages)) <= ListedKeys(list, pages - 1, f))
  }

  /** An empty page or one that repeats adds nothing. */
  lemma LastPage(cases: seq<Case>, pages: nat, seen: set<RowKey>, limit: Option<nat>, f: Filter,
                 targets: Option<set<Ref>>, ledger: set<Ref>, studied: set<Hash>,
                 list: (nat, nat) -> seq<Row>, detail: Row -> Option<Payload>, refOf: RowKey -> Ref)
    requires Standing(cases, pages, seen, limit, f, targets, ledger, studied, list, detail, refOf)
    requires PageRows(list, pages + 1) == [] || WantedKeys(f, PageRows(list, pages + 1)) <= seen
    ensures Standing(cases, pages + 1, seen, limit, f, targets, ledger, studied, list, detail, refOf)
    ensures Ended(list, pages + 1, f)
  {
    assert OriginsOf([], [], list, pages + 1, pages + 1, f, detail, refOf);
    JoinListed(cases, [], list, pages, f, detail, refOf);
    assert cases + [] == cases;
  }

  lemma SameRows(a: seq<Row>, b: seq<Row>)
    requires multiset(a) == multiset(b)
    ensures forall r :: r in a <==> r in b
  {
    forall r ensures r in a <==> r in b {
      assert r in multiset(a) <==> r in multiset(b);
    }
  }

  /** Sampling as many as there are keeps every row. */
  method SampleAll(rows: seq<Row>) returns (sampled: seq<Row>)
    requires UniqueKeys(rows)
    ensures UniqueKeys(sampled) && forall r :: r in sampled <==> r in rows
    ensures BestFirst(rows, sampled) && Dealt(sampled, 1)
  {
    sampled := Sample(rows, |rows|, 1);
    SameRows(sampled, rows);
  }

  lemma SplitTargets(targets: set<Ref>, matched: set<Ref>)
    requires matched <= targets
    ensures |matched| + |targets - matched| == |targets|
  {
  }

  // ----- what a collection returns, written out

  ghost predicate MayCollect(targets: Option<set<Ref>>, ledger: set<Ref>, ref: Ref) {
    if targets == None then ref !in ledger else ref in targets.value
  }

  ghost predicate Within(n: nat, limit: Option<int>, targets: Option<set<Ref>>) {
    && (limit.Some? && limit.value >= 0 ==> n <= limit.value) && (limit.Some? && limit.value < 0 ==> n == 0)
    && (targets.Some? ==> n <= |targets.value|)
  }

  /** More cases may be taken. */
  ghost predicate Room(n: nat, limit: Option<int>, targets: Option<set<Ref>>) {
    (limit.Some? ==> n < limit.value) && (targets.Some? ==> n < |targets.value|)
  }

  /** No more than asked for, numbered from 1, all of different characters and content, each from a
      row that was asked for; without targets none that research knows, with targets only these. */
  ghost predicate CasesWritten(cases: seq<Case>, pages: nat, limit: Option<int>, f: Filter, targets: Option<set<Ref>>,
                               ledger: set<Ref>, studied: set<Hash>, list: (nat, nat) -> seq<Row>,
                               detail: Row -> Option<Payload>, refOf: RowKey -> Ref)
  {
    && Within(|cases|, limit, targets)
    && (forall i | 0 <= i < |cases| :: cases[i].number == i + 1)
    && (forall i, j | 0 <= i < j < |cases| :: cases[i].key != cases[j].key && cases[i].identity != cases[j].identity)
    && AllListed(cases, list, 1, pages, f, detail, refOf)
    && forall c | c in cases ::
         MayCollect(targets, ledger, c.character) && (targets == None ==> c.source !in studied)
  }

  /** A row of this character was tried: it had no payload, research knows its code, or its content is
      among the cases. */
  ghost predicate RowTried(k: RowKey, list: (nat, nat) -> seq<Row>, page: nat, f: Filter, use: set<Hash>,
                           detail: Row -> Option<Payload>, cases: seq<Case>)
  {
    exists r ::
      && OnPage(list, page, r) && Asked(f, r) && r.account == k.account && r.name == k.name
      && (detail(r) == None || detail(r).value.code in use || ContentTaken(detail(r).value, cases))
  }

  ghost predicate ContentTaken(p: Payload, cases: seq<Case>) {
    exists c :: c in cases && (if p.xml.Some? then c.identity == p.xml.value else c.identity == p.code)
  }

  ghost predicate CharacterTried(k: RowKey, list: (nat, nat) -> seq<Row>, pages: nat, f: Filter, use: set<Hash>,
                                 detail: Row -> Option<Payload>, cases: seq<Case>)
  {
    exists q :: 1 <= q <= pages && RowTried(k, list, q, f, use, detail, cases)
  }

  /** While there is room, no listed character that may be collected is passed over. */
  ghost predicate NoneMissed(cases: seq<Case>, pages: nat, f: Filter, targets: Option<set<Ref>>, ledger: set<Ref>,
                             studied: set<Hash>, list: (nat, nat) -> seq<Row>, detail: Row -> Option<Payload>,
                             refOf: RowKey -> Ref)
  {
    forall p, r | 1 <= p <= pages && OnPage(list, p, r) ::
      Asked(f, r) && MayCollect(targets, ledger, refOf(RowKey(r.account, r.name))) ==>
        CharacterTried(RowKey(r.account, r.name), list, pages, f, if targets == None then studied else {}, detail,
                       cases)
  }

  ghost predicate ListedBefore(r: Row, list: (nat, nat) -> seq<Row>, page: nat, f: Filter) {
    exists q :: 1 <= q < page && SameCharacterOn(r, list, q, f)
  }

  ghost predicate SameCharacterOn(r: Row, list: (nat, nat) -> seq<Row>, page: nat, f: Filter) {
    exists x :: OnPage(list, page, x) && Asked(f, x) && x.account == r.account && x.name == r.name
  }

  /** Fifteen pages were read, or the last was empty three times, or all it had was listed before. */
  ghost predicate EndWritten(list: (nat, nat) -> seq<Row>, pages: nat, f: Filter) {
    || pages == 15
    || (1 <= pages && list(pages, 0) == [] && list(pages, 1) == [] && list(pages, 2) == [])
    || (1 <= pages && forall r | OnPage(list, pages, r) && Asked(f, r) :: ListedBefore(r, list, pages, f))
  }

  lemma CasesAreWritten(cases: seq<Case>, pages: nat, seen: set<RowKey>, limit: Option<int>, f: Filter,
                        targets: Option<set<Ref>>, ledger: set<Ref>, studied: set<Hash>,
                        list: (nat, nat) -> seq<Row>, detail: Row -> Option<Payload>, refOf: RowKey -> Ref)
    requires Standing(cases, pages, seen, LimitOf(limit, targets), f, targets, ledger, studied, list, detail, refOf)
    ensures CasesWritten(cases, pages, limit, f, targets, ledger, studied, list, detail, refOf)
    ensures Room(|cases|, limit, targets) <==> Below(cases, LimitOf(limit, targets))
  {
  }

  lemma {:induction false} ListedKeysAre(list: (nat, nat) -> seq<Row>, pages: nat, f: Filter, p: nat, r: Row)
    requires 1 <= p <= pages && OnPage(list, p, r) && Asked(f, r)
    ensures RowKey(r.account, r.name) in ListedKeys(list, pages, f)
  {
    if p < pages {
      ListedKeysAre(list, pages - 1, f, p, r);
    } else {
      assert r in PageRows(list, pages) && Wanted(f, r) && KeyOf(r) == RowKey(r.account, r.name);
    }
  }

  lemma {:induction false} KeyWasListed(list: (nat, nat) -> seq<Row>, pages: nat, f: Filter, r: Row)
    requires KeyOf(r) in ListedKeys(list, pages, f)
    ensures ListedBefore(r, list, pages + 1, f)
  {
    if KeyOf(r) in ListedKeys(list, pages - 1, f) {
      KeyWasListed(list, pages - 1, f, r);
      var q :| 1 <= q < pages && SameCharacterOn(r, list, q, f);
    } else {
      var x :| x in PageRows(list, pages) && Wanted(f, x) && KeyOf(x) == KeyOf(r);
      assert OnPage(list, pages, x) && Asked(f, x);
      assert SameCharacterOn(r, list, pages, f);
    }
  }

  lemma TriedIsWritten(k: RowKey, list: (nat, nat) -> seq<Row>, pages: nat, f: Filter, use: set<Hash>,
                       detail: Row -> Option<Payload>, cases: seq<Case>)
    requires TriedBy(list, pages, f, use, detail, k, Identities(cases))
    ensures CharacterTried(k, list, pages, f, use, detail, cases)
  {
    var q :| 1 <= q <= pages && Tried(PageRows(list, q), f, use, detail, k, Identities(cases));
    var r :| r in PageRows(list, q) && Wanted(f, r) && KeyOf(r) == k
             && (detail(r).None? || detail(r).value.code in use || IdentityOf(detail(r).value) in Identities(cases));
    assert OnPage(list, q, r) && Asked(f, r);
    if detail(r).Some? && detail(r).value.code !in use {
      var c :| c in cases && c.identity == IdentityOf(detail(r).value);
      assert ContentTaken(detail(r).value, cases);
    }
    assert RowTried(k, list, q, f, use, detail, cases);
  }

  lemma NothingIsMissed(cases: seq<Case>, pages: nat, seen: set<RowKey>, limit: Option<nat>, f: Filter,
                        targets: Option<set<Ref>>, ledger: set<Ref>, studied: set<Hash>,
                        list: (nat, nat) -> seq<Row>, detail: Row -> Option<Payload>, refOf: RowKey -> Ref)
    requires Standing(cases, pages, seen, limit, f, targets, ledger, studied, list, detail, refOf)
    requires Below(cases, limit)
    ensures NoneMissed(cases, pages, f, targets, ledger, studied, list, detail, refOf)
  {
    var use := if targets == None then studied else {};
    forall p, r | 1 <= p <= pages && OnPage(list, p, r)
      ensures Asked(f, r) && MayCollect(targets, ledger, refOf(RowKey(r.account, r.name))) ==>
                CharacterTried(RowKey(r.account, r.name), list, pages, f, use, detail, cases)
    {
      if Asked(f, r) && MayCollect(targets, ledger, refOf(RowKey(r.account, r.name))) {
        ListedKeysAre(list, pages, f, p, r);
        TriedIsWritten(RowKey(r.account, r.name), list, pages, f, use, detail, cases);
      }
    }
  }

  lemma EndIsWritten(list: (nat, nat) -> seq<Row>, pages: nat, f: Filter)
    requires Ended(list, pages, f)
    ensures EndWritten(list, pages, f)
  {
    if 1 <= pages && PageRows(list, pages) != [] && pages != MAX_PAGES {
      forall r | OnPage(list, pages, r) && Asked(f, r) ensures ListedBefore(r, list, pages, f) {
        assert r in PageRows(list, pages) && Wanted(f, r);
        KeyWasListed(list, pages - 1, f, r);
      }
    }
  }

  lemma MatchedAll(cases: seq<Case>, targets: set<Ref>)
    requires forall c | c in cases :: c.character in targets
    ensures Matched(cases, targets) == set c | c in cases :: c.character
  {
  }

  class Ninja {
    var identities: set<Hash>
    var pagesFetched: nat
    var fetches: nat
    var alreadyResearched: nat
    var alreadyStudied: nat
    var matched: nat
    var missing: nat

    /** Up to three attempts at one list page. */
    method FetchPage(list: (nat, nat) -> seq<Row>, page: nat) returns (rows: seq<Row>)
      modifies this`fetches
      ensures rows == PageRows(list, page)
      ensures old(fetches) < fetches <= old(fetches) + MAX_RETRIES + 1
    {
      rows := [];
      for attempt := 0 to MAX_RETRIES + 1
        invariant fetches == old(fetches) + attempt
        invariant rows == [] && forall a | 0 <= a < attempt :: list(page, a) == []
      {
        rows := list(page, attempt);
        fetches := fetches + 1;
        if rows != [] {
          return;
        }
      }
    }

    /** One detail page. */
    method TryRow(r: Row, detail: Row -> Option<Payload>, refOf: RowKey -> Ref, number: nat, studied: set<Hash>)
      returns (found: Option<Case>)
      modifies this`identities, this`alreadyStudied
      ensures found == if detail(r).None? || detail(r).value.code in studied
                          || IdentityOf(detail(r).value) in old(identities)
                       then None else Some(CaseOf(r, detail(r).value, number, refOf))
      ensures identities == old(identities) + if found.Some? then {found.value.identity} else {}
    {
      var payload := detail(r);
      if payload.None? {
        return None;
      }
      if payload.value.code in studied {
        alreadyStudied := alreadyStudied + 1;
        return None;
      }
      var made := CaseOf(r, payload.value, number, refOf);
      if made.identity in identities {
        return None;
      }
      identities := identities + {made.identity};
      return Some(made);
    }

    /** Detail pages to cases; identities already known to this run are not taken again. */
    method PayloadCases(rows: seq<Row>, detail: Row -> Option<Payload>, refOf: RowKey -> Ref, target: Option<nat>,
                        start: nat, studied: set<Hash>)
      returns (cases: seq<Case>)
      modifies this`identities, this`alreadyStudied
      ensures cases == Taken(rows, detail, refOf, target, if start >= 1 then start else 1, old(identities), studied)
      ensures identities == old(identities) + Identities(cases)
    {
      cases := [];
      var first := if start >= 1 then start else 1;
      if target == Some(0) {
        TakenNone(rows, detail, refOf, first, identities, studied);
        return;
      }
      ghost var known := identities;
      for i := 0 to |rows|
        invariant cases == Taken(rows[..i], detail, refOf, target, first, known, studied)
        invariant identities == known + Identities(cases)
      {
        if target.Some? && |cases| >= target.value {
          TakenFull(rows, i, detail, refOf, target, first, known, studied);
          return;
        }
        TakenPush(rows, i, detail, refOf, target, first, known, studied);
        var found := TryRow(rows[i], detail, refOf, first + |cases|, studied);
        if found.Some? {
          IdentitiesPush(cases, found.value);
          cases := cases + [found.value];
        }
      }
      assert rows[..|rows|] == rows;
    }

    /** The rows of a page that passed, sampled in full and turned into cases. */
    method TakeRows(fit: seq<Row>, before: seq<Case>, target: Option<nat>, targets: Option<set<Ref>>,
                    studied: set<Hash>, detail: Row -> Option<Payload>, refOf: RowKey -> Ref)
      returns (more: seq<Case>, ghost sampled: seq<Row>)
      requires UniqueKeys(fit) && identities == Identities(before) && Below(before, target)
      modifies this`identities, this`alreadyStudied
      ensures UniqueKeys(sampled) && forall r :: r in sampled <==> r in fit
      ensures BestFirst(fit, sampled) && Dealt(sampled, 1)
      ensures more == Taken(sampled, detail, refOf, if target.None? then None else Some(target.value - |before|),
                            |before| + 1, Identities(before), if targets.None? then studied else {})
      ensures identities == Identities(before) + Identities(more)
    {
      var rows := SampleAll(fit);
      sampled := rows;
      more := PayloadCases(rows, detail, refOf, if target.None? then None else Some(target.value - |before|),
                           |before| + 1, if targets.None? then studied else {});
    }

    /** One list page: fetch, screen, sample, and take what is new. */
    method TakePage(page: nat, before: seq<Case>, known: set<RowKey>, target: Option<nat>, f: Filter,
                    targets: Option<set<Ref>>, ledger: set<Ref>, studied: set<Hash>,
                    list: (nat, nat) -> seq<Row>, detail: Row -> Option<Payload>, refOf: RowKey -> Ref)
      returns (cases: seq<Case>, seen: set<RowKey>, stop: bool)
      requires page >= 1 && identities == Identities(before) && Below(before, target)
      requires Standing(before, page - 1, known, target, f, targets, ledger, studied, list, detail, refOf)
      modifies this`identities, this`pagesFetched, this`fetches, this`alreadyResearched, this`alreadyStudied
      ensures identities == Identities(cases)
      ensures Standing(cases, page, seen, target, f, targets, ledger, studied, list, detail, refOf)
      ensures pagesFetched == old(pagesFetched) + 1 && fetches <= old(fetches) + MAX_RETRIES + 1
      ensures stop ==> Ended(list, page, f)
    {
      var rows := FetchPage(list, page);
      pagesFetched := pagesFetched + 1;
      cases, seen, stop := OfferPage(page, rows, before, known, target, f, targets, ledger, studied, list, detail,
                                     refOf);
    }

    /** The rows of a fetched page: screen them, and take what is new unless there is nothing. */
    method OfferPage(page: nat, rows: seq<Row>, before: seq<Case>, known: set<RowKey>, target: Option<nat>, f: Filter,
                     targets: Option<set<Ref>>, ledger: set<Ref>, studied: set<Hash>,
                     ghost list: (nat, nat) -> seq<Row>, detail: Row -> Option<Payload>, refOf: RowKey -> Ref)
      returns (cases: seq<Case>, seen: set<RowKey>, stop: bool)
      requires page >= 1 && identities == Identities(before) && Below(before, target) && rows == PageRows(list, page)
      requires Standing(before, page - 1, known, target, f, targets, ledger, studied, list, detail, refOf)
      modifies this`identities, this`alreadyResearched, this`alreadyStudied
      ensures identities == Identities(cases)
      ensures Standing(cases, page, seen, target, f, targets, ledger, studied, list, detail, refOf)
      ensures stop ==> Ended(list, page, f)
    {
      var fit, passed, repeats, skipped;
      fit, seen, passed, repeats, skipped := Screen(f, targets, ledger, refOf, rows, known);
      alreadyResearched := alreadyResearched + skipped;
      cases, stop := before, rows == [] || (passed > 0 && repeats == passed);
      if stop {
        LastPage(before, page - 1, known, target, f, targets, ledger, studied, list, detail, refOf);
        assert seen == known;
        return;
      }
      ghost var sampled;
      var more;
      more, sampled := TakeRows(fit, before, target, targets, studied, detail, refOf);
      StandingNext(before, page - 1, known, target, f, targets, ledger, studied, list, detail, refOf, fit, sampled);
      cases := before + more;
    }

    /** Page after page until there are enough cases, nothing new, or no more pages to read. */
    method ReadPages(target: Option<nat>, f: Filter, targets: Option<set<Ref>>, ledger: set<Ref>, studied: set<Hash>,
                     list: (nat, nat) -> seq<Row>, detail: Row -> Option<Payload>, refOf: RowKey -> Ref)
      returns (cases: seq<Case>, ghost pages: nat, ghost seen: set<RowKey>)
      modifies this`identities, this`pagesFetched, this`fetches, this`alreadyResearched, this`alreadyStudied
      ensures Standing(cases, pages, seen, target, f, targets, ledger, studied, list, detail, refOf)
      ensures pages <= MAX_PAGES && pagesFetched == old(pagesFetched) + pages
      ensures fetches <= old(fetches) + pages * (MAX_RETRIES + 1)
      ensures Below(cases, target) ==> Ended(list, pages, f)
    {
      cases, pages, seen := [], 0, {};
      identities := {};
      StandingStart(target, f, targets, ledger, studied, list, detail, refOf);
      var known: set<RowKey> := {};
      var page := 1;
      while page <= MAX_PAGES && Below(cases, target)
        invariant 1 <= page <= MAX_PAGES + 1 && pages == page - 1 && known == seen && identities == Identities(cases)
        invariant Standing(cases, pages, seen, target, f, targets, ledger, studied, list, detail, refOf)
        invariant pagesFetched == old(pagesFetched) + pages && fetches <= old(fetches) + pages * (MAX_RETRIES + 1)
      {
        var stop;
        cases, known, stop := TakePage(page, cases, known, target, f, targets, ledger, studied, list, detail, refOf);
        pages, seen := page, known;
        if stop {
          return;
        }
        page := page + 1;
      }
    }

    /** The collector.  list gives the rows of a page at an attempt, detail what a character's page
        yields, refOf the character reference of an account and name. */
    method Collect(limit: Option<int>, f: Filter, targets: Option<set<Ref>>, ledger: set<Ref>, studied: set<Hash>,
                   list: (nat, nat) -> seq<Row>, detail: Row -> Option<Payload>, refOf: RowKey -> Ref)
      returns (cases: seq<Case>, ghost pages: nat)
      modifies this
      ensures CasesWritten(cases, pages, limit, f, targets, ledger, studied, list, detail, refOf)
      ensures Room(|cases|, limit, targets) ==>
                && NoneMissed(cases, pages, f, targets, ledger, studied, list, detail, refOf)
                && EndWritten(list, pages, f)
      ensures pages <= 15 && pagesFetched == old(pagesFetched) + pages
      ensures fetches <= old(fetches) + pages * 3
      ensures targets.Some? && targets.value != {} ==>
                matched == |set c | c in cases :: c.character| && matched + missing == |targets.value|
      ensures targets == None || targets == Some({}) ==> matched == old(matched) && missing == old(missing)
    {
      ghost var seen;
      cases, pages, seen := CollectFor(LimitOf(limit, targets), f, targets, ledger, studied, list, detail, refOf);
      CasesAreWritten(cases, pages, seen, limit, f, targets, ledger, studied, list, detail, refOf);
      if Below(cases, LimitOf(limit, targets)) {
        NothingIsMissed(cases, pages, seen, LimitOf(limit, targets), f, targets, ledger, studied, list, detail, refOf);
        EndIsWritten(list, pages, f);
      }
      if targets.Some? {
        MatchedAll(cases, targets.value);
      }
    }

    /** The same with the number of cases that are asked for. */
    method CollectFor(target: Option<nat>, f: Filter, targets: Option<set<Ref>>, ledger: set<Ref>, studied: set<Hash>,
                      list: (nat, nat) -> seq<Row>, detail: Row -> Option<Payload>, refOf: RowKey -> Ref)
      returns (cases: seq<Case>, ghost pages: nat, ghost seen: set<RowKey>)
      requires targets == Some({}) ==> target == Some(0)
      modifies this
      ensures Standing(cases, pages, seen, target, f, targets, ledger, studied, list, detail, refOf)
      ensures pages <= MAX_PAGES && pagesFetched == old(pagesFetched) + pages
      ensures fetches <= old(fetches) + pages * (MAX_RETRIES + 1)
      ensures Below(cases, target) ==> Ended(list, pages, f)
      ensures targets.Some? && targets.value != {} ==>
                matched == |Matched(cases, targets.value)| && matched + missing == |targets.value|
      ensures targets == None || targets == Some({}) ==> matched == old(matched) && missing == old(missing)
    {
      cases, pages, seen := [], 0, {};
      StandingStart(target, f, targets, ledger, studied, list, detail, refOf);
      if targets == Some({}) {
        return;
      }
      if targets.Some? {
        matched, missing := 0, |targets.value|;
      }
      if target == Some(0) {
        assert Matched([], if targets.Some? then targets.value else {}) == {};
        return;
      }
      cases, pages, seen := ReadPages(target, f, targets, ledger, studied, list, detail, refOf);
      if targets.Some? {
        matched := |Matched(cases, targets.value)|;
        missing := |targets.value - Matched(cases, targets.value)|;
        SplitTargets(targets.value, Matched(cases, targets.value));
      }
    }
  }
}
