/**
 Runs of blueprint validations, draft validations and reviews over one run directory.  The two
 validations exclude each other; a review takes no lock and reads the markers one after the other:
 the blueprint's and the draft's to check the candidate, and the draft's and the blueprint's again
 to compare the attempt with the binding they give.
 */
module DraftRuns {
  import opened DraftBinding

  /** The attempts a review was given, and which of them the retry report selects. */
  datatype Attempts = Attempts(bindings: seq<Option<Binding>>, selected: nat)

  datatype Review =
    | Idle
    | Begun(c: Candidate, attempts: Attempts)
    | WithBlueprint(c: Candidate, attempts: Attempts, bm: BlueprintMarker)
    | WithDraft(c: Candidate, attempts: Attempts, bm: BlueprintMarker, dm: DraftMarker)
    | Comparing(c: Candidate, attempts: Attempts, bm: BlueprintMarker, dm: DraftMarker, seen: Option<DraftMarker>)
    | Refused(c: Candidate, error: Error)
    | Passed(c: Candidate, attempts: Attempts, bm: BlueprintMarker, dm: DraftMarker)

  datatype World = World(dir: Dir, review: Review)

  datatype Action =
    | ValidateBlueprint(s: Submission)
    | ValidateDraft(d: Draft)
    | Evict
    | Save
    | Begin(c: Candidate, attempts: Attempts)
    | ReadBlueprint
    | ReadDraft
    | Compare
    | Bind
    | Leave

  function ChosenAttempt(a: Attempts): Option<Binding> {
    if a.selected < |a.bindings| then a.bindings[a.selected] else None
  }

  function Step(w: World, a: Action): World {
    match a
    case ValidateBlueprint(s) => w.(dir := AfterBlueprint(w.dir, s))
    case ValidateDraft(d) => w.(dir := AfterDraft(w.dir, d, true))
    case Evict => w.(dir := w.dir.(cache := None))
    case Save => w.(dir := w.dir.(saved := true))
    case Begin(c, attempts) => if w.review.Idle? then w.(review := Begun(c, attempts)) else w
    case ReadBlueprint => w.(review := AfterReadBlueprint(w.dir, w.review))
    case ReadDraft => w.(review := AfterReadDraft(w.dir, w.review))
    case Compare => w.(review := AfterCompare(w.dir, w.review))
    case Bind => w.(review := AfterBind(w.dir, w.review))
    case Leave => w.(review := Idle)
  }

  function AfterReadBlueprint(d: Dir, r: Review): Review {
    if !r.Begun? then r
    else
      var error := Check(r.c, true, d.bm);
      if error.Some? then Refused(r.c, error.value)
      else if d.bm.None? then r
      else WithBlueprint(r.c, r.attempts, d.bm.value)
  }

  function AfterReadDraft(d: Dir, r: Review): Review {
    if !r.WithBlueprint? then r
    else
      var error := CheckDraft(r.c, r.bm, d.dm);
      if error.Some? then Refused(r.c, error.value)
      else if d.dm.None? then r
      else WithDraft(r.c, r.attempts, r.bm, d.dm.value)
  }

  /** The draft marker is read a second time. */
  function AfterCompare(d: Dir, r: Review): Review {
    if r.WithDraft? then Comparing(r.c, r.attempts, r.bm, r.dm, d.dm) else r
  }

  /** The blueprint marker is read a second time, and the attempt is compared. */
  function AfterBind(d: Dir, r: Review): Review {
    if !r.Comparing? then r
    else if Current(d.bm, r.seen).None? then Refused(r.c, DraftRequired)
    else if ChosenAttempt(r.attempts) != Current(d.bm, r.seen) then Refused(r.c, AttemptMismatch)
    else Passed(r.c, r.attempts, r.bm, r.dm)
  }

  ghost predicate IsRun(run: seq<World>, acts: seq<Action>) {
    |run| == |acts| + 1 && forall i | 0 <= i < |acts| :: run[i + 1] == Step(run[i], acts[i])
  }

  // ----- what an accepted review has checked

  ghost predicate Inv(w: World) {
    var r := w.review;
    && (r.WithBlueprint? || r.WithDraft? || r.Comparing? || r.Passed? ==> Check(r.c, true, Some(r.bm)) == None)
    && (r.WithDraft? || r.Comparing? || r.Passed? ==> CheckDraft(r.c, r.bm, Some(r.dm)) == None)
  }

  lemma StepInv(w: World, a: Action)
    requires Inv(w)
    ensures Inv(Step(w, a))
  {
  }

  lemma {:induction false} RunInv(run: seq<World>, acts: seq<Action>, i: nat)
    requires IsRun(run, acts) && i < |run| && run[0].review == Idle
    ensures Inv(run[i])
  {
    if i > 0 {
      RunInv(run, acts, i - 1);
      StepInv(run[i - 1], acts[i - 1]);
    }
  }

  lemma CheckedAgrees(c: Candidate, bm: BlueprintMarker, dm: DraftMarker)
    requires Check(c, true, Some(bm)) == None && CheckDraft(c, bm, Some(dm)) == None
    ensures Agrees(c, bm, dm)
  {
  }

  /** In every run an accepted candidate agrees with the markers it was checked against. */
  lemma AcceptedAgrees(run: seq<World>, acts: seq<Action>, i: nat)
    requires IsRun(run, acts) && i < |run| && run[0].review == Idle && run[i].review.Passed?
    ensures Agrees(run[i].review.c, run[i].review.bm, run[i].review.dm)
  {
    RunInv(run, acts, i);
    CheckedAgrees(run[i].review.c, run[i].review.bm, run[i].review.dm);
  }

  // ----- the markers the attempt was compared with

  ghost predicate Written(w: World) {
    && WrittenMarkers(w.dir.bm, w.dir.dm)
    && (w.review.Comparing? ==> WrittenMarkers(None, w.review.seen))
  }

  lemma {:induction false} RunWritten(run: seq<World>, acts: seq<Action>, i: nat)
    requires IsRun(run, acts) && i < |run| && run[0].review == Idle && Written(run[0])
    ensures Written(run[i])
  {
    if i > 0 {
      RunWritten(run, acts, i - 1);
      var last := i - 1;
      assert run[last + 1] == Step(run[last], acts[last]);
    }
  }

  /** In every run, whatever is validated during the review: the candidate it accepts agrees with the
      markers the attempt was compared with, the last it read, if and only if the selected attempt
      fits the candidate, which can be told before the review is begun.  As long as no draft was
      accepted between the last two reads, these are the latest markers. */
  lemma AcceptedAgreesIffFits(run: seq<World>, acts: seq<Action>, i: nat)
    requires IsRun(run, acts) && i < |acts| && run[0].review == Idle && Written(run[0])
    requires acts[i] == Bind && run[i].review.Comparing? && run[i + 1].review.Passed?
    ensures run[i].dir.bm.Some? && run[i].review.seen.Some? && ChosenAttempt(run[i].review.attempts).Some?
    ensures var r, bm := run[i].review, run[i].dir.bm.value;
            && (AgreesInDesign(r.c, bm, r.seen.value) <==> AttemptFits(r.c, ChosenAttempt(r.attempts).value))
            && (Agrees(r.c, bm, r.seen.value) <==>
                Check(r.c, true, Some(bm)) == None && CheckDraft(r.c, bm, r.seen) == None)
    ensures run[i + 1].dir == run[i].dir && run[i + 1].review.c == run[i].review.c
    ensures run[i].dir.dm == run[i].review.seen ==>
              && run[i].dir.dm.Some?
              && (AgreesInDesign(run[i].review.c, run[i].dir.bm.value, run[i].dir.dm.value)
                  <==> AttemptFits(run[i].review.c, ChosenAttempt(run[i].review.attempts).value))
  {
    RunWritten(run, acts, i);
    assert run[i + 1] == Step(run[i], Bind);
    var r := run[i].review;
    assert Current(run[i].dir.bm, r.seen).Some?;
    AgreesIffFits(r.c, run[i].dir.bm.value, r.seen.value);
  }

  /** Every blueprint of the run is validated for the same candidate and research memory. */
  ghost predicate OneCandidate(acts: seq<Action>, id: Text, memoryRef: Text) {
    forall k | 0 <= k < |acts| && acts[k].ValidateBlueprint? ::
      acts[k].s.candidateId == id && acts[k].s.memoryRef == memoryRef
  }

  lemma {:induction false} MarkerOfCandidate(run: seq<World>, acts: seq<Action>, i: nat, id: Text, memoryRef: Text)
    requires IsRun(run, acts) && i < |run| && OneCandidate(acts, id, memoryRef) && run[0].dir.bm == None
    ensures run[i].dir.bm.Some? ==> run[i].dir.bm.value.candidateId == id && run[i].dir.bm.value.memoryRef == memoryRef
  {
    if i > 0 {
      MarkerOfCandidate(run, acts, i - 1, id, memoryRef);
      var last := i - 1;
      assert run[last + 1] == Step(run[last], acts[last]);
    }
  }

  /** In a run of one candidate, from an empty directory on: the accepted candidate would pass an
      undisturbed review against those markers too, if and only if the selected attempt fits it. */
  lemma OneCandidateAgreesIffFits(run: seq<World>, acts: seq<Action>, i: nat)
    requires IsRun(run, acts) && i < |acts| && run[0].review == Idle && run[0].dir == Dir(None, None, None, false)
    requires acts[i] == Bind && run[i].review.Comparing? && run[i + 1].review.Passed?
    requires OneCandidate(acts, run[i].review.c.id, run[i].review.c.memoryRef)
    ensures run[i].dir.bm.Some? && run[i].review.seen.Some? && ChosenAttempt(run[i].review.attempts).Some?
    ensures var r, bm := run[i].review, run[i].dir.bm.value;
            AttemptFits(r.c, ChosenAttempt(r.attempts).value) <==>
              Check(r.c, true, Some(bm)) == None && CheckDraft(r.c, bm, r.seen) == None
  {
    AcceptedAgreesIffFits(run, acts, i);
    MarkerOfCandidate(run, acts, i, run[i].review.c.id, run[i].review.c.memoryRef);
  }

  /** The review has read nothing but what is still there. */
  ghost predicate Undisturbed(w: World) {
    var r := w.review;
    && (r.WithBlueprint? || r.WithDraft? || r.Comparing? || r.Passed? ==> w.dir.bm == Some(r.bm))
    && (r.WithDraft? || r.Comparing? || r.Passed? ==> w.dir.dm == Some(r.dm))
    && (r.Comparing? ==> r.seen == w.dir.dm)
    && (r.Passed? ==> ChosenAttempt(r.attempts) == Current(w.dir.bm, w.dir.dm) && ChosenAttempt(r.attempts).Some?)
  }

  lemma StepUndisturbed(w: World, a: Action)
    requires Undisturbed(w) && Step(w, a).dir.bm == w.dir.bm && Step(w, a).dir.dm == w.dir.dm
    ensures Undisturbed(Step(w, a))
  {
  }

  lemma {:induction false} StaysUndisturbed(run: seq<World>, acts: seq<Action>, i: nat, j: nat)
    requires IsRun(run, acts) && i <= j < |run| && (run[i].review.Idle? || run[i].review.Begun?)
    requires forall k | i <= k < j :: run[k + 1].dir.bm == run[k].dir.bm && run[k + 1].dir.dm == run[k].dir.dm
    ensures Undisturbed(run[j])
    decreases j
  {
    if i < j {
      StaysUndisturbed(run, acts, i, j - 1);
      var last := j - 1;
      assert run[last + 1].dir.bm == run[last].dir.bm;
      StepUndisturbed(run[last], acts[last]);
    }
  }

  /** In particular, when no validation changes a marker during the review, the accepted candidate
      agrees with the latest markers, and its attempt was bound to them. */
  lemma AcceptedAgreesWithLatest(run: seq<World>, acts: seq<Action>, i: nat, j: nat)
    requires IsRun(run, acts) && i <= j < |run| && run[0].review == Idle
    requires (run[i].review.Idle? || run[i].review.Begun?) && run[j].review.Passed?
    requires forall k | i <= k < j :: run[k + 1].dir.bm == run[k].dir.bm && run[k + 1].dir.dm == run[k].dir.dm
    ensures run[j].dir.bm.Some? && run[j].dir.dm.Some?
    ensures Agrees(run[j].review.c, run[j].dir.bm.value, run[j].dir.dm.value)
    ensures ChosenAttempt(run[j].review.attempts) == Current(run[j].dir.bm, run[j].dir.dm)
  {
    StaysUndisturbed(run, acts, i, j);
    AcceptedAgrees(run, acts, j);
  }

  // ----- another blueprint blocks every review

  lemma OtherBlueprintIsStale(d: Dir, s: Submission)
    requires BlueprintAccepted(d, s) && d.dm.Some? && d.dm.value.hash != Some(s.blueprint)
    ensures Stale(AfterBlueprint(d, s))
  {
  }

  /** A step that does not validate a draft anew, nor the draft's own blueprint again. */
  predicate LeavesStale(w: World, a: Action) {
    && (a.ValidateDraft? ==> DraftOutcome(w.dir, a.d, true) != Accepted)
    && (a.ValidateBlueprint? ==> w.dir.dm.Some? && w.dir.dm.value.hash != Some(a.s.blueprint))
  }

  /** The draft is stale, and no review has been accepted or is about to be compared with another
      draft marker that it read before. */
  ghost predicate Blocked(w: World, dm: DraftMarker) {
    && w.dir.dm == Some(dm) && Stale(w.dir)
    && !w.review.Passed? && (w.review.Comparing? ==> w.review.seen == Some(dm))
  }

  lemma StepBlocked(w: World, a: Action, dm: DraftMarker)
    requires Blocked(w, dm) && LeavesStale(w, a)
    ensures Blocked(Step(w, a), dm)
  {
  }

  /** After another blueprint is validated no review is accepted, new or in flight, until a draft is
      validated for it or the draft's own blueprint is validated again.  The one exception is a review
      that stands between the two reads of its comparison with an older draft marker in hand. */
  lemma {:induction false} BlockedUntilRevalidated(run: seq<World>, acts: seq<Action>, i: nat, j: nat, dm: DraftMarker)
    requires IsRun(run, acts) && i <= j < |run| && run[i].dir.dm == Some(dm) && Stale(run[i].dir)
    requires !run[i].review.Passed? && (run[i].review.Comparing? ==> run[i].review.seen == Some(dm))
    requires forall k | i <= k < j :: LeavesStale(run[k], acts[k])
    ensures Blocked(run[j], dm) && !run[j].review.Passed?
    decreases j
  {
    if i < j {
      BlockedUntilRevalidated(run, acts, i, j - 1, dm);
      var last := j - 1;
      assert LeavesStale(run[last], acts[last]);
      StepBlocked(run[last], acts[last], dm);
    }
  }

  // ----- submitting the same design again

  /** A validation that repeats the draft s, or repeats its blueprint with the same audit; anything
      else but these, and any submission that is refused, is left open. */
  predicate Repeats(w: World, a: Action, s: Draft, audit: Audit) {
    && (a.ValidateDraft? && a.d.passed ==> SameDraft(s, a.d))
    && (a.ValidateBlueprint? && BlueprintAccepted(w.dir, a.s) ==>
          && Some(a.s.blueprint) == s.candidate.blueprint && Some(Gbp(a.s.blueprint)) == s.candidate.ref
          && AuditOf(a.s.blueprint, a.s.tools, a.s.trusted) == Some(audit))
  }

  /** The draft marker is dm, and an equal submission would give the same design. */
  ghost predicate Repeatable(d: Dir, s: Draft, audit: Audit, dm: DraftMarker) {
    && d.dm == Some(dm) && d.bm.Some?
    && Some(d.bm.value.hash) == s.candidate.blueprint && Some(d.bm.value.ref) == s.candidate.ref
    && d.bm.value.auditHash == audit && SameDesign(dm, DraftMarkerOf(d, s))
  }

  lemma StepRepeatable(w: World, a: Action, s: Draft, audit: Audit, dm: DraftMarker)
    requires Repeatable(w.dir, s, audit, dm) && Repeats(w, a, s, audit)
    ensures Repeatable(Step(w, a).dir, s, audit, dm)
  {
    if a.ValidateDraft? && a.d.passed {
      SameDraftSameDesign(w.dir, s, w.dir, a.d);
      assert SameDesign(dm, DraftMarkerOf(w.dir, a.d));
    }
  }

  lemma {:induction false} StaysRepeatable(run: seq<World>, acts: seq<Action>, i: nat, j: nat, s: Draft, audit: Audit,
      dm: DraftMarker)
    requires IsRun(run, acts) && i <= j < |run| && Repeatable(run[i].dir, s, audit, dm)
    requires forall k | i <= k < j :: Repeats(run[k], acts[k], s, audit)
    ensures Repeatable(run[j].dir, s, audit, dm)
    decreases j
  {
    if i < j {
      StaysRepeatable(run, acts, i, j - 1, s, audit, dm);
      var last := j - 1;
      assert Repeats(run[last], acts[last], s, audit);
      StepRepeatable(run[last], acts[last], s, audit, dm);
    }
  }

  /** After a draft was accepted, however often the same design is submitted again, at other times and
      with other narratives, its blueprint validated again with the same audit, the frozen evidence
      evicted and reviews made: the draft marker, and with it the time of its validation, stays. */
  lemma RepeatedDraftKeepsMarker(run: seq<World>, acts: seq<Action>, i: nat, j: nat)
    requires IsRun(run, acts) && i < j < |run| && acts[i].ValidateDraft?
    requires DraftOutcome(run[i].dir, acts[i].d, true) == Accepted
    requires forall k | i < k < j :: Repeats(run[k], acts[k], acts[i].d, run[i].dir.bm.value.auditHash)
    ensures run[j].dir.dm == Some(DraftMarkerOf(run[i].dir, acts[i].d))
    ensures run[j].dir.dm.value.validatedAt == acts[i].d.now
  {
    var s, dm := acts[i].d, DraftMarkerOf(run[i].dir, acts[i].d);
    assert run[i + 1] == Step(run[i], acts[i]);
    SameDraftSameDesign(run[i].dir, s, run[i + 1].dir, s);
    assert Repeatable(run[i + 1].dir, s, run[i].dir.bm.value.auditHash, dm);
    StaysRepeatable(run, acts, i + 1, j, s, run[i].dir.bm.value.auditHash, dm);
  }

  // ----- the calls on the run directory

  /** blueprint_audit: the claims are gone through one by one. */
  method AuditBlueprint(b: Blueprint, tools: Tools, trusted: set<Text>) returns (audit: Option<Audit>)
    ensures audit == AuditOf(b, tools, trusted)
    ensures AuditWritten(b, tools, trusted, audit)
  {
    AuditIsWritten(b, tools, trusted);
    if !InternalOk(tools, trusted) || !(Used(b) <= tools.Keys + trusted) {
      return None;
    }
    var good := trusted + External(tools);
    for i := 0 to |b.claims|
      invariant forall j | 0 <= j < i :: ClaimOk(b.claims[j], good)
    {
      if !(b.claims[i].refs <= good) {
        if b.claims[i].status == Stated || (b.claims[i].status == Hypothesis && !b.claims[i].tasks) {
          assert !ClaimOk(b.claims[i], good);
          return None;
        }
      }
    }
    return Some(map r | r in Used(b) :: SourceOf(r, tools, trusted));
  }

  // ----- what a review answers, written out

  /** An attempt that was evaluated under these very markers. */
  ghost predicate MadeUnder(b: Option<Binding>, bm: BlueprintMarker, dm: DraftMarker) {
    && b.Some? && dm.signature.Some?
    && b.value.ref == bm.ref && b.value.hash == bm.hash && b.value.auditHash == Some(bm.auditHash)
    && b.value.signature == dm.signature.value && b.value.decisions == dm.decisions
    && b.value.tools == dm.tools && b.value.uses == dm.uses && b.value.contract == dm.contract
  }

  ghost predicate AttemptMatches(a: Attempts, bm: BlueprintMarker, dm: DraftMarker) {
    a.selected < |a.bindings| && MadeUnder(a.bindings[a.selected], bm, dm)
  }

  ghost predicate ReviewWritten(c: Candidate, a: Attempts, bm: Option<BlueprintMarker>, dm: Option<DraftMarker>,
      error: Option<Error>)
  {
    var bound := BoundTo(c, bm) && DraftBoundTo(c, bm.value, dm);
    && (error == None <==> bound && AttemptMatches(a, bm.value, dm.value))
    && (error == Some(AttemptMismatch) <==> bound && dm.value.signature.Some? && !AttemptMatches(a, bm.value, dm.value))
    && (error == Some(DraftRequired) <==> BoundTo(c, bm) && (dm == None || (bound && dm.value.signature == None)))
    && (!BoundTo(c, bm) ==> CheckWritten(c, true, bm, error))
    && (BoundTo(c, bm) && dm.Some? && !bound ==> CheckDraftWritten(c, bm.value, dm, error))
  }

  function ReviewError(c: Candidate, a: Attempts, bm: Option<BlueprintMarker>, dm: Option<DraftMarker>): Option<Error> {
    if Check(c, true, bm).Some? || bm.None? then Check(c, true, bm)
    else if CheckDraft(c, bm.value, dm).Some? then CheckDraft(c, bm.value, dm)
    else if Current(bm, dm).None? then Some(DraftRequired)
    else if ChosenAttempt(a) != Current(bm, dm) then Some(AttemptMismatch)
    else None
  }

  lemma ReviewIsWritten(c: Candidate, a: Attempts, bm: Option<BlueprintMarker>, dm: Option<DraftMarker>)
    ensures ReviewWritten(c, a, bm, dm, ReviewError(c, a, bm, dm))
  {
    CheckIsWritten(c, true, bm);
    if bm.Some? {
      CheckDraftIsWritten(c, bm.value, dm);
    }
  }

  class RunFiles {
    var bm: Option<BlueprintMarker>
    var dm: Option<DraftMarker>
    var cache: Option<Frozen>
    var saved: bool
    var locked: bool

    ghost function Now(): Dir
      reads this
    {
      Dir(bm, dm, cache, saved)
    }

    /** validate_generation_blueprint under the shared lock. */
    method ValidateBlueprint(s: Submission) returns (accepted: bool)
      modifies this
      ensures accepted == (!old(locked) && BlueprintAccepted(old(Now()), s))
      ensures Now() == if accepted then AfterBlueprint(old(Now()), s) else old(Now())
      ensures locked == old(locked) && saved == old(saved) && dm == old(dm) && cache == old(cache)
      ensures accepted <==> !old(locked) && !old(saved) && s.passed && !AuditRefused(s.blueprint, s.tools, s.trusted)
      ensures if accepted then bm.Some? && BlueprintWritten(bm.value, s) else bm == old(bm)
      ensures accepted && dm.Some? && dm.value.hash != Some(s.blueprint) ==> Stale(Now())
    {
      if locked {
        return false;
      }
      locked := true;
      accepted := false;
      if !saved && s.passed {
        var audit := AuditBlueprint(s.blueprint, s.tools, s.trusted);
        if audit.Some? {
          bm := Some(MarkerOf(s, audit.value));
          accepted := true;
        }
      }
      locked := false;
    }

    /** validate_generation_draft under the same lock; None when the lock is taken. */
    method ValidateDraft(s: Draft, required: bool) returns (result: Option<DraftResult>)
      modifies this
      ensures result == if old(locked) then None else Some(DraftOutcome(old(Now()), s, required))
      ensures Now() == if old(locked) then old(Now()) else AfterDraft(old(Now()), s, required)
      ensures locked == old(locked)
      ensures result == None <==> old(locked)
      ensures result.Some? ==>
                && OutcomeWritten(old(Now()), s, required, result.value)
                && FilesWritten(old(Now()), s, result.value, Now())
    {
      if locked {
        return None;
      }
      OutcomeIsWritten(Now(), s, required);
      FilesAreWritten(Now(), s, required);
      locked := true;
      var outcome := DraftOutcome(Dir(bm, dm, cache, saved), s, required);
      if outcome == Accepted {
        var marker := DraftMarkerOf(Dir(bm, dm, cache, saved), s);
        dm := Some(marker);
        if s.signature.Some? && s.candidate.ref.Some? && bm.Some? {
          cache := Some(Frozen(bm.value, marker, s.candidate.id));
        }
      } else if outcome == EvidenceRebuilt && bm.Some? && dm.Some? {
        cache := Some(Frozen(bm.value, dm.value, s.candidate.id));
      }
      locked := false;
      return Some(outcome);
    }

    /** The binding part of a review with nothing in between; it writes nothing. */
    method Review(c: Candidate, attempts: Attempts) returns (error: Option<Error>)
      ensures ReviewWritten(c, attempts, bm, dm, error)
      ensures error == None ==> bm.Some? && dm.Some? && Agrees(c, bm.value, dm.value)
      ensures Stale(Now()) ==> error.Some?
    {
      ReviewIsWritten(c, attempts, bm, dm);
      error := Check(c, true, bm);
      if error.Some? {
        return;
      }
      error := CheckDraft(c, bm.value, dm);
      if error.Some? {
        return;
      }
      CheckedAgrees(c, bm.value, dm.value);
      if Current(bm, dm).None? {
        return Some(DraftRequired);
      }
      if ChosenAttempt(attempts) != Current(bm, dm) {
        return Some(AttemptMismatch);
      }
      return None;
    }
  }

  // ----- a review that overlaps with validations

  function Plain(name: string): Blueprint {
    Blueprint(Text(name), [])
  }

  function Design(name: string): Candidate {
    Candidate(Text("c"), Some(Gbp(Plain(name))), Some(Plain(name)), Text("m"), map[], Text(name), map[], Text("p"))
  }

  function Marker(name: string): BlueprintMarker {
    BlueprintMarker(1, map[], map[], Gbp(Plain(name)), Plain(name), Text("c"), Text("m"), Text(name))
  }

  function Validation(name: string): Submission {
    Submission(Text("c"), Text("m"), Plain(name), map[], {}, true, Text(name))
  }

  function Drafted(name: string): Draft {
    Draft(Design(name), Text("x"), Some(Text(name)), Text("r"), true, Text(name))
  }

  function DraftedMarker(name: string): DraftMarker {
    DraftMarker(3, Text(name), Text("p"), Text("c"), Text("m"), Text(name), Some(Gbp(Plain(name))), Some(Plain(name)),
                Some(map[]), map[], map[], Text("x"), Some(Text(name)), Text("r"))
  }

  function Attempt(name: string): Binding {
    Binding(Gbp(Plain(name)), Plain(name), Some(map[]), Text(name), Text(name), map[], map[], Text("x"))
  }

  lemma PlainFacts(name: string)
    ensures Used(Plain(name)) == {} && AuditOf(Plain(name), map[], {}) == Some(map[])
    ensures DesignTools(Design(name)) == map[]
    ensures AuditMatches(Marker(name), Plain(name), map[])
  {
  }

  lemma Revalidated(d: Dir, name: string)
    requires !d.saved && d.dm.Some? && d.dm.value.decisions != Text(name)
    ensures var bound := AfterBlueprint(d, Validation(name));
            && bound.bm == Some(Marker(name)) && bound.dm == d.dm && !bound.saved
            && AfterDraft(bound, Drafted(name), true).bm == Some(Marker(name))
            && AfterDraft(bound, Drafted(name), true).dm == Some(DraftedMarker(name))
  {
  }

  ghost predicate Reached(w: World, end: World) {
    exists run: seq<World>, acts: seq<Action> :: IsRun(run, acts) && run[0] == w && run[|acts|] == end
  }

  lemma ReachedNext(w: World, end: World, a: Action, next: World)
    requires Reached(w, end) && next == Step(end, a)
    ensures Reached(w, next)
  {
    var run: seq<World>, acts: seq<Action> :| IsRun(run, acts) && run[0] == w && run[|acts|] == end;
    var run', acts' := run + [next], acts + [a];
    forall i | 0 <= i < |acts'| ensures run'[i + 1] == Step(run'[i], acts'[i]) {
      if i < |acts| {
        assert run[i + 1] == Step(run[i], acts[i]);
      }
    }
    assert IsRun(run', acts') && run'[|acts'|] == next;
  }

  /** Both designs were validated, b last, and no review has begun. */
  function BothValidated(): World {
    World(Dir(Some(Marker("b")), Some(DraftedMarker("b")), None, false), Idle)
  }

  /** A review of design b that was just checked against the markers of b. */
  function Checked(jobs: Attempts): World {
    BothValidated().(review := WithDraft(Design("b"), jobs, Marker("b"), DraftedMarker("b")))
  }

  lemma CheckedReached(jobs: Attempts)
    ensures Written(BothValidated()) && Reached(BothValidated(), Checked(jobs))
  {
    PlainFacts("b");
    var w0 := BothValidated();
    var w1 := w0.(review := Begun(Design("b"), jobs));
    var w2 := w0.(review := WithBlueprint(Design("b"), jobs, Marker("b")));
    assert IsRun([w0], []);
    assert Reached(w0, w0);
    ReachedNext(w0, w0, Begin(Design("b"), jobs), w1);
    ReachedNext(w0, w1, ReadBlueprint, w2);
    ReachedNext(w0, w2, ReadDraft, Checked(jobs));
  }

  /** Design a is validated after design b, its blueprint and its draft, while a review goes on. */
  lemma Overtaken(w0: World, w: World) returns (next: World)
    requires Reached(w0, w) && w.dir.dm == Some(DraftedMarker("b")) && !w.dir.saved
    ensures Reached(w0, next) && next.review == w.review && !next.dir.saved
    ensures next.dir.bm == Some(Marker("a")) && next.dir.dm == Some(DraftedMarker("a"))
  {
    assert "a"[0] != "b"[0];
    Revalidated(w.dir, "a");
    var between := Step(w, ValidateBlueprint(Validation("a")));
    next := Step(between, ValidateDraft(Drafted("a")));
    ReachedNext(w0, w, ValidateBlueprint(Validation("a")), between);
    ReachedNext(w0, between, ValidateDraft(Drafted("a")), next);
    assert !next.dir.saved;
  }

  /** The markers are read at different times, so a review that overlaps with validations can accept
      a candidate that the latest markers are not about: here it is checked against the markers of
      design b, while the binding is compared after design a, which the attempt was for, is
      validated again. */
  lemma TornReview()
    ensures exists w0: World, w: World ::
              && w0.review == Idle && Written(w0) && Reached(w0, w) && w.review.Comparing?
              && Step(w, Bind).review.Passed? && w.review.c == Design("b")
              && w.dir.bm.Some? && w.dir.dm.Some? && w.review.seen == w.dir.dm
              && !AgreesInDesign(w.review.c, w.dir.bm.value, w.dir.dm.value)
  {
    var jobs := Attempts([Some(Attempt("a"))], 0);
    CheckedReached(jobs);
    var w0 := BothValidated();
    var w1 := Overtaken(w0, Checked(jobs));
    var w2 := Step(w1, Compare);
    ReachedNext(w0, w1, Compare, w2);
    assert Current(w2.dir.bm, w2.review.seen) == Some(Attempt("a"));
    assert "a"[0] != "b"[0];
    assert !AgreesInDesign(w2.review.c, w2.dir.bm.value, w2.dir.dm.value);
  }

  /** The exception to the blocking is real: a review that has read the draft marker of b for its
      comparison before design a was validated, and reads the blueprint marker after b's blueprint was
      validated once more, is accepted although the draft marker is stale. */
  lemma AcceptedWhileStale()
    ensures exists w0: World, w: World ::
              && w0.review == Idle && Written(w0) && Reached(w0, w) && w.review.Comparing?
              && Stale(w.dir) && Step(w, Bind).review.Passed?
  {
    var jobs := Attempts([Some(Attempt("b"))], 0);
    CheckedReached(jobs);
    PlainFacts("b");
    var w0 := BothValidated();
    var w1 := Step(Checked(jobs), Compare);
    ReachedNext(w0, Checked(jobs), Compare, w1);
    var w2 := Overtaken(w0, w1);
    var w3 := Step(w2, ValidateBlueprint(Validation("b")));
    ReachedNext(w0, w2, ValidateBlueprint(Validation("b")), w3);
    assert Current(w3.dir.bm, w3.review.seen) == Some(Attempt("b"));
    assert "a"[0] != "b"[0];
    assert Stale(w3.dir);
  }
}
