/**
 Binding a candidate to its validated design (scripts/create_build.py): the blueprint marker, the
 draft marker, the frozen draft evidence, and the checks a review makes against them.  A digest is
 represented by what it is the digest of.
 */
module DraftBinding {

  datatype Option<+T> = None | Some(value: T)

  datatype Text = Text(text: string)

  datatype Status = Stated | Hypothesis | Unknown
  datatype Claim = Claim(refs: set<Text>, status: Status, tasks: bool)
  datatype Blueprint = Blueprint(text: Text, claims: seq<Claim>)
  datatype Ref = Gbp(blueprint: Blueprint) | OtherRef(text: Text)

  /** A tool reference without its summary: whether it claims an internal receipt, whether it counts
      as reviewed evidence of a mechanism, and whether its tool fits its reference. */
  datatype Row = Row(text: Text, isInternal: bool, reviewed: bool, fits: bool)
  datatype Kind = Internal | Reviewed | Unverified
  datatype Source = Source(kind: Kind, row: Option<Row>)

  type Tools = map<Text, Row>
  type Audit = map<Text, Source>

  // ----- the evidence audit of a blueprint

  function Used(b: Blueprint): set<Text> {
    set c, r | c in b.claims && r in c.refs :: r
  }

  function External(tools: Tools): set<Text> {
    set r | r in tools && tools[r].reviewed
  }

  predicate InternalOk(tools: Tools, trusted: set<Text>) {
    forall r | r in tools && tools[r].isInternal :: r in trusted && tools[r].fits
  }

  /** Evidence that is neither trusted nor reviewed is allowed only under a hypothesis that says how
      to verify it, or under an unknown. */
  predicate ClaimOk(c: Claim, good: set<Text>) {
    c.refs <= good || c.status == Unknown || (c.status == Hypothesis && c.tasks)
  }

  function SourceOf(r: Text, tools: Tools, trusted: set<Text>): Source {
    Source(if r in trusted then Internal else if r in tools && tools[r].reviewed then Reviewed else Unverified,
           if r in tools then Some(tools[r]) else None)
  }

  function AuditOf(b: Blueprint, tools: Tools, trusted: set<Text>): Option<Audit> {
    if !InternalOk(tools, trusted) || !(Used(b) <= tools.Keys + trusted)
       || exists c :: c in b.claims && !ClaimOk(c, trusted + External(tools))
    then None
    else Some(map r | r in Used(b) :: SourceOf(r, tools, trusted))
  }

  function TrustedIn(audit: Audit): set<Text> {
    set r | r in audit && audit[r].kind == Internal
  }

  function Selected(b: Blueprint, tools: Tools): Tools {
    map r | r in tools && r in Used(b) :: tools[r]
  }

  /** The audit made again from a candidate's blueprint and tools and the audit's own authority. */
  function Rebuilt(b: Blueprint, tools: Tools, audit: Audit): Option<Audit> {
    AuditOf(b, Selected(b, tools), TrustedIn(audit))
  }

  /** An accepted audit is found again from any tool list that has the same rows for the references
      the blueprint uses, whatever else the list contains. */
  lemma AuditFoundAgain(b: Blueprint, tools: Tools, trusted: set<Text>, later: Tools)
    requires AuditOf(b, tools, trusted).Some? && Selected(b, later) == Selected(b, tools)
    ensures Rebuilt(b, later, AuditOf(b, tools, trusted).value) == AuditOf(b, tools, trusted)
  {
    var audit := AuditOf(b, tools, trusted).value;
    var chosen, kept := Selected(b, tools), TrustedIn(audit);
    forall r | r in Used(b) ensures r in kept <==> r in trusted {
      assert audit[r] == SourceOf(r, tools, trusted);
    }
    forall r | r in chosen && chosen[r].isInternal ensures r in kept && chosen[r].fits {
      assert r in tools && tools[r].isInternal;
    }
    assert InternalOk(chosen, kept);
    forall r | r in Used(b) ensures r in chosen.Keys + kept {
      assert r in tools.Keys + trusted;
    }
    assert Used(b) <= chosen.Keys + kept;
    assert forall r | r in Used(b) :: SourceOf(r, chosen, kept) == SourceOf(r, tools, trusted);
    forall c | c in b.claims ensures ClaimOk(c, kept + External(chosen)) {
      assert ClaimOk(c, trusted + External(tools));
      assert c.refs <= Used(b);
      if c.refs <= trusted + External(tools) {
        forall r | r in c.refs ensures r in kept + External(chosen) {
          assert r in Used(b);
        }
      }
    }
    assert !exists c :: c in b.claims && !ClaimOk(c, kept + External(chosen));
    assert AuditOf(b, chosen, kept).Some?;
    var again := AuditOf(b, chosen, kept).value;
    assert again == audit;
    assert Rebuilt(b, later, audit) == AuditOf(b, chosen, kept);
  }

  // ----- the audit, written out

  ghost predicate Cites(b: Blueprint, r: Text) {
    exists c :: c in b.claims && r in c.refs
  }

  /** An internal receipt that research has no record of, or that its tool does not issue. */
  ghost predicate Unreceipted(tools: Tools, trusted: set<Text>) {
    exists r :: r in tools && tools[r].isInternal && (r !in trusted || !tools[r].fits)
  }

  ghost predicate Unresolved(b: Blueprint, tools: Tools, trusted: set<Text>) {
    exists r :: Cites(b, r) && r !in tools && r !in trusted
  }

  ghost predicate Unverifiable(c: Claim, tools: Tools, trusted: set<Text>) {
    && (c.status == Stated || (c.status == Hypothesis && !c.tasks))
    && exists r :: r in c.refs && r !in trusted && (r in tools ==> !tools[r].reviewed)
  }

  ghost predicate RowWritten(source: Source, r: Text, tools: Tools, trusted: set<Text>) {
    && (source.row.Some? <==> r in tools) && (r in tools ==> source.row == Some(tools[r]))
    && (source.kind == Internal <==> r in trusted)
    && (source.kind == Reviewed <==> r !in trusted && r in tools && tools[r].reviewed)
  }

  ghost predicate AuditRefused(b: Blueprint, tools: Tools, trusted: set<Text>) {
    || Unreceipted(tools, trusted)
    || Unresolved(b, tools, trusted)
    || exists c :: c in b.claims && Unverifiable(c, tools, trusted)
  }

  /** When an audit is refused, and what an accepted one says of each reference. */
  ghost predicate AuditWritten(b: Blueprint, tools: Tools, trusted: set<Text>, audit: Option<Audit>) {
    && (audit == None <==> AuditRefused(b, tools, trusted))
    && (audit.Some? ==>
          && (forall r :: r in audit.value <==> Cites(b, r))
          && forall r | r in audit.value :: RowWritten(audit.value[r], r, tools, trusted))
  }

  lemma ClaimOkIff(c: Claim, tools: Tools, trusted: set<Text>)
    ensures ClaimOk(c, trusted + External(tools)) <==> !Unverifiable(c, tools, trusted)
  {
    if !(c.refs <= trusted + External(tools)) {
      var r :| r in c.refs && r !in trusted + External(tools);
      assert r !in trusted && (r in tools ==> !tools[r].reviewed);
    } else {
      forall r | r in c.refs ensures r in trusted || (r in tools && tools[r].reviewed) {
        assert r in trusted + External(tools);
      }
    }
  }

  lemma UnresolvedIff(b: Blueprint, tools: Tools, trusted: set<Text>)
    ensures Used(b) <= tools.Keys + trusted <==> !Unresolved(b, tools, trusted)
  {
    if !(Used(b) <= tools.Keys + trusted) {
      var r :| r in Used(b) && r !in tools.Keys + trusted;
      assert Cites(b, r) && r !in tools && r !in trusted;
    }
    if Unresolved(b, tools, trusted) {
      var r :| Cites(b, r) && r !in tools && r !in trusted;
      assert r in Used(b);
    }
  }

  lemma AuditIsWritten(b: Blueprint, tools: Tools, trusted: set<Text>)
    ensures AuditWritten(b, tools, trusted, AuditOf(b, tools, trusted))
  {
    UnresolvedIff(b, tools, trusted);
    forall c ensures ClaimOk(c, trusted + External(tools)) <==> !Unverifiable(c, tools, trusted) {
      ClaimOkIff(c, tools, trusted);
    }
    forall r ensures r in Used(b) <==> Cites(b, r) {
    }
  }

  // ----- the same audit in a candidate

  /** The evidence a marker was written for is what the candidate's blueprint cites, row by row; no
      claim states what nobody verified. */
  ghost predicate Stands(b: Blueprint, tools: Tools, audit: Audit) {
    && SourcesStand(b, tools, audit)
    && forall c | c in b.claims && (exists r :: r in c.refs && r in audit && audit[r].kind == Unverified) ::
         c.status == Unknown || (c.status == Hypothesis && c.tasks)
  }

  ghost predicate SourcesStand(b: Blueprint, tools: Tools, audit: Audit) {
    && (forall r :: r in audit <==> Cites(b, r))
    && forall r | r in audit :: SourceStands(audit[r], r, tools)
  }

  ghost predicate SourceStands(source: Source, r: Text, tools: Tools) {
    && (source.row.Some? <==> r in tools) && (r in tools ==> source.row == Some(tools[r]))
    && (source.kind == Internal ==> (r in tools && tools[r].isInternal ==> tools[r].fits))
    && (source.kind == Reviewed ==> r in tools && tools[r].reviewed && !tools[r].isInternal)
    && (source.kind == Unverified ==> r in tools && !tools[r].reviewed && !tools[r].isInternal)
  }

  lemma StandsSound(b: Blueprint, tools: Tools, audit: Audit)
    requires Rebuilt(b, tools, audit) == Some(audit)
    ensures Stands(b, tools, audit)
  {
    var chosen, kept := Selected(b, tools), TrustedIn(audit);
    AuditIsWritten(b, chosen, kept);
    forall r | r in audit ensures SourceStands(audit[r], r, tools) {
      assert Cites(b, r) && r in Used(b);
      assert r in chosen <==> r in tools;
      assert RowWritten(audit[r], r, chosen, kept);
      assert !Unreceipted(chosen, kept) && !Unresolved(b, chosen, kept);
    }
    forall c | c in b.claims && (exists r :: r in c.refs && r in audit && audit[r].kind == Unverified)
      ensures c.status == Unknown || (c.status == Hypothesis && c.tasks)
    {
      assert !Unverifiable(c, chosen, kept);
      var r :| r in c.refs && r in audit && audit[r].kind == Unverified;
      assert RowWritten(audit[r], r, chosen, kept);
    }
  }

  lemma BareInAudit(b: Blueprint, tools: Tools, audit: Audit, c: Claim)
    requires SourcesStand(b, tools, audit) && c in b.claims
    requires Unverifiable(c, Selected(b, tools), TrustedIn(audit))
    ensures exists r :: r in c.refs && r in audit && audit[r].kind == Unverified
  {
    var chosen, kept := Selected(b, tools), TrustedIn(audit);
    var r :| r in c.refs && r !in kept && (r in chosen ==> !chosen[r].reviewed);
    assert Cites(b, r) && r in Used(b) && SourceStands(audit[r], r, tools);
  }

  lemma SourcesPass(b: Blueprint, tools: Tools, audit: Audit)
    requires SourcesStand(b, tools, audit)
    ensures !Unreceipted(Selected(b, tools), TrustedIn(audit))
    ensures !Unresolved(b, Selected(b, tools), TrustedIn(audit))
  {
    var chosen, kept := Selected(b, tools), TrustedIn(audit);
    forall r | r in chosen && chosen[r].isInternal ensures r in kept && chosen[r].fits {
      assert Cites(b, r) && SourceStands(audit[r], r, tools);
    }
    forall r | Cites(b, r) ensures r in chosen || r in kept {
      assert SourceStands(audit[r], r, tools) && r in Used(b);
    }
  }

  lemma StandsPasses(b: Blueprint, tools: Tools, audit: Audit)
    requires Stands(b, tools, audit)
    ensures Rebuilt(b, tools, audit).Some?
  {
    var chosen, kept := Selected(b, tools), TrustedIn(audit);
    AuditIsWritten(b, chosen, kept);
    SourcesPass(b, tools, audit);
    if c :| c in b.claims && Unverifiable(c, chosen, kept) {
      BareInAudit(b, tools, audit, c);
      assert false;
    }
  }

  lemma StandsComplete(b: Blueprint, tools: Tools, audit: Audit)
    requires Stands(b, tools, audit)
    ensures Rebuilt(b, tools, audit) == Some(audit)
  {
    StandsPasses(b, tools, audit);
    var chosen, kept := Selected(b, tools), TrustedIn(audit);
    var again := AuditOf(b, chosen, kept).value;
    forall r | r in audit ensures r in again && again[r] == audit[r] {
      assert Cites(b, r) && r in Used(b) && SourceStands(audit[r], r, tools);
      assert again[r] == SourceOf(r, chosen, kept);
    }
    forall r | r in again ensures r in audit {
      assert r in Used(b) && Cites(b, r);
    }
    assert again.Keys == audit.Keys;
    assert again == audit;
  }

  /** The audit can be made again from a candidate exactly when it stands there. */
  lemma RebuiltIffStands(b: Blueprint, tools: Tools, audit: Audit)
    ensures Rebuilt(b, tools, audit) == Some(audit) <==> Stands(b, tools, audit)
  {
    if Rebuilt(b, tools, audit) == Some(audit) {
      StandsSound(b, tools, audit);
    }
    if Stands(b, tools, audit) {
      StandsComplete(b, tools, audit);
    }
  }

  // ----- markers and candidates

  datatype BlueprintMarker = BlueprintMarker(
    schema: int, audit: Audit, auditHash: Audit, ref: Ref, hash: Blueprint,
    candidateId: Text, memoryRef: Text, validatedAt: Text)

  /** contract is the execution contract with its structure; rest stands for the other compared
      fields: premise audit, calculation context, build state, family. */
  datatype DraftMarker = DraftMarker(
    schema: int, validatedAt: Text, planHash: Text, candidateId: Text, memoryRef: Text, decisions: Text,
    ref: Option<Ref>, hash: Option<Blueprint>, auditHash: Option<Audit>,
    tools: Tools, uses: map<Text, set<Text>>, contract: Text, signature: Option<Text>, rest: Text)

  /** decisions is the normalised identity of the research decisions; uses are the references each
      part of the execution plan relies on. */
  datatype Candidate = Candidate(
    id: Text, ref: Option<Ref>, blueprint: Option<Blueprint>, memoryRef: Text, tools: Tools,
    decisions: Text, uses: map<Text, set<Text>>, planHash: Text)

  datatype Error =
    | BlueprintRequired | BlueprintIncomplete | BlueprintValidationRequired | EvidenceMismatch
    | BindingMismatch | DraftRequired | ToolsChanged | ChangedAfterDraft | DecisionsChanged
    | AttemptMismatch | AuditRejected | Upstream | Saved | EvidenceChanged | SignatureRequired

  function DesignTools(c: Candidate): Tools {
    map r | r in c.tools && ((c.blueprint.Some? && r in Used(c.blueprint.value))
                             || exists s :: s in c.uses && r in c.uses[s]) :: c.tools[r]
  }

  /** The evidence of the draft is still there unchanged; more may have been added. */
  predicate ToolsMatch(c: Candidate, tools: Tools, uses: map<Text, set<Text>>) {
    && uses.Keys == c.uses.Keys
    && (forall s | s in uses && s in c.uses :: uses[s] <= c.uses[s])
    && forall r | r in tools :: r in DesignTools(c) && DesignTools(c)[r] == tools[r]
  }

  predicate AuditMatches(bm: BlueprintMarker, b: Blueprint, tools: Tools) {
    bm.auditHash == bm.audit && Rebuilt(b, tools, bm.audit) == Some(bm.audit)
  }

  /** _validate_candidate_blueprint_use. */
  function Check(c: Candidate, required: bool, bm: Option<BlueprintMarker>): Option<Error> {
    if c.ref.None? && c.blueprint.None? then (if required then Some(BlueprintRequired) else None)
    else if c.ref.None? || c.blueprint.None? then Some(BlueprintIncomplete)
    else if bm.None? || bm.value.schema != 1 then Some(BlueprintValidationRequired)
    else if !AuditMatches(bm.value, c.blueprint.value, c.tools) then Some(EvidenceMismatch)
    else if bm.value.ref != c.ref.value || bm.value.hash != c.blueprint.value
            || bm.value.candidateId != c.id || bm.value.memoryRef != c.memoryRef
    then Some(BindingMismatch)
    else None
  }

  /** The part that binds the draft as well; it is reached only by a candidate with a blueprint. */
  function CheckDraft(c: Candidate, bm: BlueprintMarker, dm: Option<DraftMarker>): Option<Error> {
    if dm.None? then Some(DraftRequired)
    else if !ToolsMatch(c, dm.value.tools, dm.value.uses) then Some(ToolsChanged)
    else if dm.value.ref != c.ref || dm.value.hash != c.blueprint || dm.value.auditHash != Some(bm.auditHash)
    then Some(ChangedAfterDraft)
    else if dm.value.schema == 3 && dm.value.decisions != c.decisions then Some(DecisionsChanged)
    else None
  }

  /** The candidate is the design both markers are about. */
  ghost predicate AgreesInDesign(c: Candidate, bm: BlueprintMarker, dm: DraftMarker) {
    && c.blueprint.Some? && c.ref.Some?
    && bm.hash == c.blueprint.value && dm.hash == c.blueprint
    && bm.ref == c.ref.value && dm.ref == c.ref
    && Rebuilt(c.blueprint.value, c.tools, bm.audit) == Some(bm.auditHash)
    && dm.auditHash == Some(bm.auditHash)
    && ToolsMatch(c, dm.tools, dm.uses)
    && (dm.schema == 3 ==> dm.decisions == c.decisions)
  }

  /** And the blueprint was validated for this candidate and its research memory. */
  ghost predicate Agrees(c: Candidate, bm: BlueprintMarker, dm: DraftMarker) {
    AgreesInDesign(c, bm, dm) && bm.candidateId == c.id && bm.memoryRef == c.memoryRef
  }

  /** What an attempt was bound to: the part of a draft marker of schema 3 that its receipt keeps. */
  datatype Binding = Binding(
    ref: Ref, hash: Blueprint, auditHash: Option<Audit>, signature: Text, decisions: Text,
    tools: Tools, uses: map<Text, set<Text>>, contract: Text)

  /** The candidate is the design the attempt was evaluated for.  This can be told from the two alone,
      without any marker. */
  predicate AttemptFits(c: Candidate, b: Binding) {
    && c.blueprint == Some(b.hash) && c.ref == Some(b.ref)
    && b.auditHash.Some? && Rebuilt(b.hash, c.tools, b.auditHash.value) == b.auditHash
    && ToolsMatch(c, b.tools, b.uses) && b.decisions == c.decisions
  }

  function Current(bm: Option<BlueprintMarker>, dm: Option<DraftMarker>): Option<Binding> {
    if bm.None? || dm.None? || dm.value.ref.None? || dm.value.hash.None? || dm.value.signature.None? then None
    else if dm.value.ref.value != bm.value.ref || dm.value.hash.value != bm.value.hash
            || dm.value.auditHash != Some(bm.value.auditHash)
    then None
    else Some(Binding(dm.value.ref.value, dm.value.hash.value, dm.value.auditHash, dm.value.signature.value,
                      dm.value.decisions, dm.value.tools, dm.value.uses, dm.value.contract))
  }

  /** Markers as the validations of this version write them. */
  predicate WrittenMarkers(bm: Option<BlueprintMarker>, dm: Option<DraftMarker>) {
    && (bm.Some? ==> bm.value.schema == 1 && bm.value.audit == bm.value.auditHash)
    && (dm.Some? ==> dm.value.schema == 3)
  }

  /** When markers give a binding, a candidate agrees with them if and only if an attempt of that
      binding fits it; and to agree is to pass both checks. */
  lemma AgreesIffFits(c: Candidate, bm: BlueprintMarker, dm: DraftMarker)
    requires WrittenMarkers(Some(bm), Some(dm)) && Current(Some(bm), Some(dm)).Some?
    ensures AgreesInDesign(c, bm, dm) <==> AttemptFits(c, Current(Some(bm), Some(dm)).value)
    ensures Agrees(c, bm, dm) <==> Check(c, true, Some(bm)) == None && CheckDraft(c, bm, Some(dm)) == None
  {
  }

  // ----- the run directory and the validations

  /** The design evidence frozen in memory when a draft was accepted. */
  datatype Frozen = Frozen(bm: BlueprintMarker, dm: DraftMarker, candidateId: Text)

  /** saved: an artifact selection exists and the design may not change any more. */
  datatype Dir = Dir(bm: Option<BlueprintMarker>, dm: Option<DraftMarker>, cache: Option<Frozen>, saved: bool)

  /** A blueprint submission: what it contains, the references research has receipts for, and
      whether everything before the evidence audit passed. */
  datatype Submission = Submission(
    candidateId: Text, memoryRef: Text, blueprint: Blueprint, tools: Tools, trusted: set<Text>,
    passed: bool, now: Text)

  function MarkerOf(s: Submission, audit: Audit): BlueprintMarker {
    BlueprintMarker(1, audit, audit, Gbp(s.blueprint), s.blueprint, s.candidateId, s.memoryRef, s.now)
  }

  predicate BlueprintAccepted(d: Dir, s: Submission) {
    !d.saved && s.passed && AuditOf(s.blueprint, s.tools, s.trusted).Some?
  }

  function AfterBlueprint(d: Dir, s: Submission): Dir {
    if BlueprintAccepted(d, s) then d.(bm := Some(MarkerOf(s, AuditOf(s.blueprint, s.tools, s.trusted).value)))
    else d
  }

  /** A draft submission: the candidate, the execution contract of its research, the observed
      signature, whether everything else passed. */
  datatype Draft = Draft(
    candidate: Candidate, contract: Text, signature: Option<Text>, rest: Text, passed: bool, now: Text)

  function DraftMarkerOf(d: Dir, s: Draft): DraftMarker {
    var bound := s.candidate.ref.Some? && d.bm.Some?;
    DraftMarker(3, s.now, s.candidate.planHash, s.candidate.id, s.candidate.memoryRef, s.candidate.decisions,
                if bound then Some(d.bm.value.ref) else None,
                if bound then Some(d.bm.value.hash) else None,
                if bound then Some(d.bm.value.auditHash) else None,
                DesignTools(s.candidate), s.candidate.uses, s.contract, s.signature, s.rest)
  }

  /** Equal in every field but the time and the narrative plan hash. */
  predicate SameDesign(a: DraftMarker, b: DraftMarker) {
    a == b.(validatedAt := a.validatedAt, planHash := a.planHash)
  }

  datatype DraftResult = Rejected(error: Error) | AlreadyValidated | EvidenceRebuilt | Accepted

  function DraftOutcome(d: Dir, s: Draft, required: bool): DraftResult {
    if d.saved then Rejected(Saved)
    else if !s.passed then Rejected(Upstream)
    else if Check(s.candidate, required, d.bm).Some? then Rejected(Check(s.candidate, required, d.bm).value)
    else if required && s.signature.None? then Rejected(SignatureRequired)
    else if d.dm.None? || !SameDesign(d.dm.value, DraftMarkerOf(d, s)) then Accepted
    else if d.cache.Some? && (d.cache.value.candidateId != s.candidate.id || Some(d.cache.value.dm) != d.dm
                              || Some(d.cache.value.bm) != d.bm)
    then Rejected(EvidenceChanged)
    else if d.cache.Some? || s.signature.None? || s.candidate.ref.None? then AlreadyValidated
    else EvidenceRebuilt
  }

  function AfterDraft(d: Dir, s: Draft, required: bool): Dir {
    var outcome := DraftOutcome(d, s, required);
    if outcome == Accepted then
      var marker := DraftMarkerOf(d, s);
      var written := d.(dm := Some(marker));
      if s.signature.Some? && s.candidate.ref.Some? && d.bm.Some?
      then written.(cache := Some(Frozen(d.bm.value, marker, s.candidate.id))) else written
    else if outcome == EvidenceRebuilt && d.bm.Some? && d.dm.Some?
    then d.(cache := Some(Frozen(d.bm.value, d.dm.value, s.candidate.id)))
    else d
  }

  /** The same submission apart from its time, its narrative plan hash and what happens to it. */
  predicate SameDraft(s: Draft, t: Draft) {
    && t.candidate.(planHash := s.candidate.planHash) == s.candidate
    && t.contract == s.contract && t.signature == s.signature && t.rest == s.rest
  }

  /** Equal submissions against blueprint markers that say the same give equal draft markers but for
      time and narrative: the marker shows nothing else of either. */
  lemma SameDraftSameDesign(d: Dir, s: Draft, e: Dir, t: Draft)
    requires SameDraft(s, t) && d.bm.Some? && e.bm.Some?
    requires e.bm.value.ref == d.bm.value.ref && e.bm.value.hash == d.bm.value.hash
    requires e.bm.value.auditHash == d.bm.value.auditHash
    ensures SameDesign(DraftMarkerOf(d, s), DraftMarkerOf(e, t))
  {
    assert t.candidate.tools == s.candidate.tools && t.candidate.uses == s.candidate.uses;
    assert DesignTools(t.candidate) == DesignTools(s.candidate);
  }

  /** After an accepted draft, and as long as neither marker nor the frozen evidence changes, an
      equal draft is recognised. */
  lemma AcceptedThenAlready(d: Dir, s: Draft, again: Draft, required: bool)
    requires DraftOutcome(d, s, required) == Accepted && s.signature.Some? && s.candidate.ref.Some?
    requires again.passed && SameDraft(s, again)
    ensures DraftOutcome(AfterDraft(d, s, required), again, required) == AlreadyValidated
    ensures AfterDraft(AfterDraft(d, s, required), again, required) == AfterDraft(d, s, required)
  {
    SameDraftSameDesign(d, s, AfterDraft(d, s, required), again);
  }

  /** Validating the very same blueprint again renews its marker, so the equal draft is then refused
      while the frozen evidence is kept, unless the blueprint's time happens to be the same. */
  lemma SameBlueprintAgain(d: Dir, s: Draft, b: Submission, again: Draft, required: bool)
    requires DraftOutcome(d, s, required) == Accepted && s.signature.Some? && s.candidate.ref.Some?
    requires again.passed && SameDraft(s, again)
    requires var after := AfterDraft(d, s, required);
             BlueprintAccepted(after, b) && AfterBlueprint(after, b).bm.value == d.bm.value.(validatedAt := b.now)
    ensures var renewed := AfterBlueprint(AfterDraft(d, s, required), b);
            && DraftOutcome(renewed, again, required)
               == (if b.now == d.bm.value.validatedAt then AlreadyValidated else Rejected(EvidenceChanged))
            && DraftOutcome(renewed.(cache := None), again, required) == EvidenceRebuilt
  {
    SameDraftSameDesign(d, s, AfterBlueprint(AfterDraft(d, s, required), b), again);
  }

  /** A candidate that carries the validated blueprint and tools passes the blueprint check. */
  lemma ValidatedPasses(d: Dir, s: Submission, c: Candidate, required: bool)
    requires BlueprintAccepted(d, s)
    requires c.blueprint == Some(s.blueprint) && c.ref == Some(Gbp(s.blueprint))
    requires c.id == s.candidateId && c.memoryRef == s.memoryRef
    requires Selected(s.blueprint, c.tools) == Selected(s.blueprint, s.tools)
    ensures Check(c, required, AfterBlueprint(d, s).bm) == None
  {
    AuditFoundAgain(s.blueprint, s.tools, s.trusted, c.tools);
  }

  /** And after its draft is validated it passes the draft check too: nothing refuses the design that
      was validated. */
  lemma DraftPasses(d: Dir, s: Draft, required: bool)
    requires DraftOutcome(d, s, required) == Accepted && s.candidate.blueprint.Some? && d.bm.Some?
    ensures var d' := AfterDraft(d, s, required);
            Check(s.candidate, required, d'.bm) == None && CheckDraft(s.candidate, d'.bm.value, d'.dm) == None
  {
  }

  // ----- the checks, written out

  ghost predicate UsedByDesign(c: Candidate, r: Text) {
    (c.blueprint.Some? && Cites(c.blueprint.value, r)) || exists s :: s in c.uses && r in c.uses[s]
  }

  /** The tool rows of the draft are still used as they were, every part of its plan still relies on
      what it relied on, and there is no other part. */
  ghost predicate EvidenceKept(c: Candidate, tools: Tools, uses: map<Text, set<Text>>) {
    && (forall r | r in tools :: r in c.tools && c.tools[r] == tools[r] && UsedByDesign(c, r))
    && (forall s :: s in uses <==> s in c.uses)
    && forall s | s in uses && s in c.uses :: forall r | r in uses[s] :: r in c.uses[s]
  }

  ghost predicate Unbound(c: Candidate) {
    c.ref == None && c.blueprint == None
  }

  ghost predicate Marked(c: Candidate, bm: Option<BlueprintMarker>) {
    c.ref.Some? && c.blueprint.Some? && bm.Some? && bm.value.schema == 1
  }

  ghost predicate Evidenced(c: Candidate, bm: Option<BlueprintMarker>) {
    Marked(c, bm) && bm.value.auditHash == bm.value.audit && Stands(c.blueprint.value, c.tools, bm.value.audit)
  }

  ghost predicate BoundTo(c: Candidate, bm: Option<BlueprintMarker>) {
    && Evidenced(c, bm)
    && Some(bm.value.ref) == c.ref && Some(bm.value.hash) == c.blueprint
    && bm.value.candidateId == c.id && bm.value.memoryRef == c.memoryRef
  }

  ghost predicate CheckWritten(c: Candidate, required: bool, bm: Option<BlueprintMarker>, error: Option<Error>) {
    && (error == None <==> BoundTo(c, bm) || (!required && Unbound(c)))
    && (error == Some(BlueprintRequired) <==> required && Unbound(c))
    && (error == Some(BlueprintIncomplete) <==> !(c.ref.Some? <==> c.blueprint.Some?))
    && (error == Some(BlueprintValidationRequired) <==> c.ref.Some? && c.blueprint.Some? && !Marked(c, bm))
    && (error == Some(EvidenceMismatch) <==> Marked(c, bm) && !Evidenced(c, bm))
    && (error == Some(BindingMismatch) <==> Evidenced(c, bm) && !BoundTo(c, bm))
  }

  lemma CheckIsWritten(c: Candidate, required: bool, bm: Option<BlueprintMarker>)
    ensures CheckWritten(c, required, bm, Check(c, required, bm))
  {
    if c.blueprint.Some? && bm.Some? {
      RebuiltIffStands(c.blueprint.value, c.tools, bm.value.audit);
    }
  }

  ghost predicate BlueprintWritten(bm: BlueprintMarker, s: Submission) {
    && bm.schema == 1 && bm.auditHash == bm.audit
    && AuditWritten(s.blueprint, s.tools, s.trusted, Some(bm.audit))
    && bm.ref == Gbp(s.blueprint) && bm.hash == s.blueprint
    && bm.candidateId == s.candidateId && bm.memoryRef == s.memoryRef && bm.validatedAt == s.now
  }

  ghost predicate SameEvidence(c: Candidate, dm: Option<DraftMarker>) {
    dm.Some? && EvidenceKept(c, dm.value.tools, dm.value.uses)
  }

  ghost predicate SameBlueprint(c: Candidate, bm: BlueprintMarker, dm: Option<DraftMarker>) {
    && SameEvidence(c, dm)
    && dm.value.ref == c.ref && dm.value.hash == c.blueprint && dm.value.auditHash == Some(bm.auditHash)
  }

  ghost predicate DraftBoundTo(c: Candidate, bm: BlueprintMarker, dm: Option<DraftMarker>) {
    SameBlueprint(c, bm, dm) && (dm.value.schema == 3 ==> dm.value.decisions == c.decisions)
  }

  ghost predicate CheckDraftWritten(c: Candidate, bm: BlueprintMarker, dm: Option<DraftMarker>, error: Option<Error>) {
    && (error == None <==> DraftBoundTo(c, bm, dm))
    && (error == Some(DraftRequired) <==> dm == None)
    && (error == Some(ToolsChanged) <==> dm.Some? && !SameEvidence(c, dm))
    && (error == Some(ChangedAfterDraft) <==> SameEvidence(c, dm) && !SameBlueprint(c, bm, dm))
    && (error == Some(DecisionsChanged) <==> SameBlueprint(c, bm, dm) && !DraftBoundTo(c, bm, dm))
  }

  lemma UsedByDesignIff(c: Candidate, r: Text)
    ensures r in DesignTools(c) <==> r in c.tools && UsedByDesign(c, r)
  {
    if c.blueprint.Some? {
      assert r in Used(c.blueprint.value) <==> Cites(c.blueprint.value, r);
    }
  }

  lemma EvidenceKeptIff(c: Candidate, tools: Tools, uses: map<Text, set<Text>>)
    ensures ToolsMatch(c, tools, uses) <==> EvidenceKept(c, tools, uses)
  {
    forall r ensures r in DesignTools(c) <==> r in c.tools && UsedByDesign(c, r) {
      UsedByDesignIff(c, r);
    }
    assert uses.Keys == c.uses.Keys <==> forall s :: s in uses <==> s in c.uses;
  }

  lemma CheckDraftIsWritten(c: Candidate, bm: BlueprintMarker, dm: Option<DraftMarker>)
    ensures CheckDraftWritten(c, bm, dm, CheckDraft(c, bm, dm))
  {
    if dm.Some? {
      EvidenceKeptIff(c, dm.value.tools, dm.value.uses);
    }
  }

  // ----- the draft validation, written out

  ghost predicate BoundFields(dm: DraftMarker, ref: Option<Ref>, bm: Option<BlueprintMarker>) {
    if ref.Some? && bm.Some?
    then dm.ref == Some(bm.value.ref) && dm.hash == Some(bm.value.hash) && dm.auditHash == Some(bm.value.auditHash)
    else dm.ref == None && dm.hash == None && dm.auditHash == None
  }

  /** The marker is about this submission under this blueprint marker; its time and the hash of the
      plan's narrative are left open. */
  ghost predicate MarkerFor(dm: DraftMarker, bm: Option<BlueprintMarker>, s: Draft) {
    && dm.schema == 3 && dm.candidateId == s.candidate.id && dm.memoryRef == s.candidate.memoryRef
    && dm.decisions == s.candidate.decisions && dm.uses == s.candidate.uses
    && dm.contract == s.contract && dm.signature == s.signature && dm.rest == s.rest
    && BoundFields(dm, s.candidate.ref, bm)
    && (forall r :: r in dm.tools <==> r in s.candidate.tools && UsedByDesign(s.candidate, r))
    && forall r | r in dm.tools && r in s.candidate.tools :: dm.tools[r] == s.candidate.tools[r]
  }

  ghost predicate DraftPassed(d: Dir, s: Draft, required: bool) {
    && !d.saved && s.passed && (required ==> s.signature.Some?)
    && (BoundTo(s.candidate, d.bm) || (!required && Unbound(s.candidate)))
  }

  ghost predicate Recognised(d: Dir, s: Draft) {
    d.dm.Some? && MarkerFor(d.dm.value, d.bm, s)
  }

  ghost predicate FrozenFor(d: Dir, s: Draft) {
    && d.cache.Some? && d.cache.value.candidateId == s.candidate.id
    && Some(d.cache.value.dm) == d.dm && Some(d.cache.value.bm) == d.bm
  }

  ghost predicate Freezes(s: Draft) {
    s.signature.Some? && s.candidate.ref.Some?
  }

  ghost predicate OutcomeWritten(d: Dir, s: Draft, required: bool, result: DraftResult) {
    var passed, known := DraftPassed(d, s, required), Recognised(d, s);
    && (result == Accepted <==> passed && !known)
    && (result == AlreadyValidated <==> passed && known && (FrozenFor(d, s) || (d.cache == None && !Freezes(s))))
    && (result == EvidenceRebuilt <==> passed && known && d.cache == None && Freezes(s))
    && (result == Rejected(EvidenceChanged) <==> passed && known && d.cache.Some? && !FrozenFor(d, s))
    && (result == Rejected(Saved) <==> d.saved)
    && (result == Rejected(Upstream) <==> !d.saved && !s.passed)
    && (result.Rejected? <==> !passed || (known && d.cache.Some? && !FrozenFor(d, s)))
  }

  /** Only an accepted draft writes the marker, with its time and plan hash; the evidence is frozen
      with it, or again when the eviction took it. */
  ghost predicate FilesWritten(d: Dir, s: Draft, result: DraftResult, after: Dir) {
    && after.bm == d.bm && after.saved == d.saved
    && (result != Accepted ==> after.dm == d.dm)
    && (result == Accepted ==>
          && after.dm.Some? && MarkerFor(after.dm.value, d.bm, s)
          && after.dm.value.validatedAt == s.now && after.dm.value.planHash == s.candidate.planHash)
    && (if ((result == Accepted && Freezes(s)) || result == EvidenceRebuilt) && d.bm.Some? && after.dm.Some?
        then after.cache == Some(Frozen(d.bm.value, after.dm.value, s.candidate.id))
        else after.cache == d.cache)
  }

  lemma MarkerOfDraftFits(d: Dir, s: Draft)
    ensures MarkerFor(DraftMarkerOf(d, s), d.bm, s)
  {
    forall r ensures r in DesignTools(s.candidate) <==> r in s.candidate.tools && UsedByDesign(s.candidate, r) {
      UsedByDesignIff(s.candidate, r);
    }
  }

  lemma RecognisedIff(d: Dir, s: Draft, dm: DraftMarker)
    ensures SameDesign(dm, DraftMarkerOf(d, s)) <==> MarkerFor(dm, d.bm, s)
  {
    MarkerOfDraftFits(d, s);
    if MarkerFor(dm, d.bm, s) {
      var mine := DraftMarkerOf(d, s);
      assert dm.tools.Keys == mine.tools.Keys;
      assert dm.tools == mine.tools;
    }
  }

  lemma OutcomeIsWritten(d: Dir, s: Draft, required: bool)
    ensures OutcomeWritten(d, s, required, DraftOutcome(d, s, required))
  {
    CheckIsWritten(s.candidate, required, d.bm);
    if d.dm.Some? {
      RecognisedIff(d, s, d.dm.value);
    }
  }

  lemma FilesAreWritten(d: Dir, s: Draft, required: bool)
    ensures FilesWritten(d, s, DraftOutcome(d, s, required), AfterDraft(d, s, required))
  {
    MarkerOfDraftFits(d, s);
  }

  // ----- blueprints that moved on

  /** The draft marker belongs to another blueprint than the blueprint marker. */
  predicate Stale(d: Dir) {
    d.bm.Some? && d.dm.Some? && d.dm.value.hash != Some(d.bm.value.hash)
  }

  /** As long as the draft is stale no candidate passes, whatever it says. */
  lemma StaleBlocks(d: Dir, c: Candidate)
    requires Stale(d)
    ensures Check(c, true, d.bm) == None ==> CheckDraft(c, d.bm.value, d.dm).Some?
    ensures Current(d.bm, d.dm) == None
  {
  }
}
