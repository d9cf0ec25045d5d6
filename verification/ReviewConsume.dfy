/**
 One-shot consumption of a generation review (_run_review_packet with consume=True in
 scripts/create_build.py): any number of calls on one run directory, interleaved at every file
 operation, each able to crash anywhere.
 */
module ReviewConsume {

  datatype Option<+T> = None | Some(value: T)

  datatype Pid = Pid(id: nat)

  datatype Reason = AlreadyConsumed | WriteFailed | Invalid

  /** A review result as written to review-result.json, with the call that computed it. */
  datatype Packet = Packet(author: Pid, body: string)

  /** The three files of the run directory the protocol works on. */
  datatype Dir = Dir(lock: bool, consumed: bool, result: Option<Packet>)

  datatype Pc =
    | Entered                       // about to test review-consumed
    | Validating                    // marker was absent; reading and validating the submission
    | Ready(body: string)           // accepted packet in hand, about to create review-lock
    | Locked(body: string)          // lock created, about to test the marker again
    | Writing(body: string)         // about to write review-result.json
    | Written                       // about to rename the lock to the marker
    | Renamed                       // marker in place, about to return
    | Undoing                       // rename failed, about to delete the result
    | Unlocking(reason: Reason)     // about to delete the lock
    | Accepted
    | Rejected(reason: Reason)
    | Crashed

  /** winner records who renamed the lock; it is history, not a file. */
  datatype State = State(dir: Dir, procs: map<Pid, Pc>, winner: Option<Pid>)

  datatype Action =
    | Arrive
    | TestMarker
    | Validate(ok: bool, body: string)
    | CreateLock(osError: bool)
    | Retest
    | WriteResult(ok: bool)
    | RenameLock(osError: bool)
    | DeleteResult
    | DeleteLock
    | Return
    | Crash

  function Init(dir: Dir): State {
    State(dir, map[], None)
  }

  /** A directory no review has touched. */
  const FRESH := Dir(false, false, None)

  function Goto(s: State, p: Pid, pc: Pc): State {
    s.(procs := s.procs[p := pc])
  }

  /** One atomic action of process p; None when it is not enabled. */
  function Do(s: State, p: Pid, a: Action): Option<State> {
    if a.Arrive? then
      if p in s.procs then None else Some(Goto(s, p, Entered))
    else if p !in s.procs then None
    else
      var d, pc := s.dir, s.procs[p];
      match a
      case Arrive => None
      case TestMarker =>
        if pc != Entered then None
        else Some(Goto(s, p, if d.consumed then Rejected(AlreadyConsumed) else Validating))
      case Validate(ok, body) =>
        if pc != Validating then None
        else Some(Goto(s, p, if ok then Ready(body) else Rejected(Invalid)))
      case CreateLock(osError) =>
        if !pc.Ready? then None
        else if d.lock then Some(Goto(s, p, Rejected(AlreadyConsumed)))
        else if osError then Some(Goto(s, p, Rejected(WriteFailed)))
        else Some(Goto(s.(dir := d.(lock := true)), p, Locked(pc.body)))
      case Retest =>
        if !pc.Locked? then None
        else Some(Goto(s, p, if d.consumed then Unlocking(AlreadyConsumed) else Writing(pc.body)))
      case WriteResult(ok) =>
        if !pc.Writing? then None
        else if ok then Some(Goto(s.(dir := d.(result := Some(Packet(p, pc.body)))), p, Written))
        else Some(Goto(s, p, Unlocking(WriteFailed)))
      case RenameLock(osError) =>
        if pc != Written then None
        else if osError || !d.lock then Some(Goto(s, p, Undoing))
        else Some(Goto(s.(dir := d.(lock := false, consumed := true), winner := Some(p)), p, Renamed))
      case DeleteResult =>
        if pc != Undoing then None
        else Some(Goto(s.(dir := d.(result := None)), p, Unlocking(WriteFailed)))
      case DeleteLock =>
        if !pc.Unlocking? then None
        else Some(Goto(s.(dir := d.(lock := false)), p, Rejected(pc.reason)))
      case Return =>
        if pc != Renamed then None else Some(Goto(s, p, Accepted))
      case Crash =>
        if pc.Accepted? || pc.Rejected? || pc.Crashed? then None else Some(Goto(s, p, Crashed))
  }

  ghost predicate Next(s: State, s': State) {
    exists p, a :: Do(s, p, a) == Some(s')
  }

  ghost predicate IsRun(run: seq<State>) {
    && run != [] && run[0].dir == FRESH && run[0].procs == map[] && run[0].winner == None
    && forall i | 0 <= i < |run| - 1 :: Next(run[i], run[i + 1])
  }

  // ----- the invariant

  predicate Critical(pc: Pc) {
    pc.Locked? || pc.Writing? || pc.Written? || pc.Undoing? || pc.Unlocking?
  }

  /** Whoever is between creating and giving up the lock is alone, and the lock file is there. */
  ghost predicate Exclusive(s: State) {
    && (forall p | p in s.procs && Critical(s.procs[p]) :: s.dir.lock)
    && forall p, q | p in s.procs && q in s.procs && Critical(s.procs[p]) && Critical(s.procs[q]) :: p == q
  }

  /** Past its second test of the marker a call knows that nothing has been consumed yet. */
  ghost predicate Unconsumed(s: State) {
    && (forall p | p in s.procs && (s.procs[p].Writing? || s.procs[p].Written? || s.procs[p].Undoing?) ::
          !s.dir.consumed)
    && forall p | p in s.procs && s.procs[p].Written? ::
         s.dir.result.Some? && s.dir.result.value.author == p
  }

  /** The marker carries the winner's result, and only the winner can return accepted. */
  ghost predicate Settled(s: State) {
    && (s.dir.consumed <==> s.winner.Some?)
    && (s.winner.Some? ==> s.dir.result.Some? && s.dir.result.value.author == s.winner.value)
    && forall p | p in s.procs && (s.procs[p].Renamed? || s.procs[p].Accepted?) :: s.winner == Some(p)
  }

  ghost predicate Inv(s: State) {
    Exclusive(s) && Unconsumed(s) && Settled(s)
  }

  lemma InitInv(s: State)
    requires s.dir == FRESH && s.procs == map[] && s.winner == None
    ensures Inv(s)
  {
  }

  lemma OthersStay(s: State, p: Pid, a: Action, s': State)
    requires Do(s, p, a) == Some(s')
    ensures p in s'.procs && s'.procs.Keys == s.procs.Keys + {p}
    ensures forall q | q in s'.procs && q != p :: q in s.procs && s'.procs[q] == s.procs[q]
  {
  }

  lemma ExclusiveKept(s: State, p: Pid, a: Action, s': State)
    requires Inv(s) && Do(s, p, a) == Some(s')
    ensures Exclusive(s')
  {
    OthersStay(s, p, a, s');
    assert Critical(s'.procs[p]) ==> (p in s.procs && Critical(s.procs[p])) || !s.dir.lock;
    assert s.dir.lock && !s'.dir.lock ==> Critical(s.procs[p]);
  }

  lemma UnconsumedKept(s: State, p: Pid, a: Action, s': State)
    requires Inv(s) && Do(s, p, a) == Some(s')
    ensures Unconsumed(s')
  {
    OthersStay(s, p, a, s');
  }

  lemma SettledKept(s: State, p: Pid, a: Action, s': State)
    requires Inv(s) && Do(s, p, a) == Some(s')
    ensures Settled(s')
  {
  }

  lemma NextInv(s: State, s': State)
    requires Inv(s) && Next(s, s')
    ensures Inv(s')
  {
    var p, a :| Do(s, p, a) == Some(s');
    ExclusiveKept(s, p, a, s');
    UnconsumedKept(s, p, a, s');
    SettledKept(s, p, a, s');
  }

  lemma {:induction false} RunInv(run: seq<State>, i: nat)
    requires IsRun(run) && i < |run|
    ensures Inv(run[i])
  {
    if i == 0 {
      InitInv(run[0]);
    } else {
      RunInv(run, i - 1);
      NextInv(run[i - 1], run[i]);
    }
  }

  // ----- safety over whole runs

  /** At most one call ever returns accepted, whatever crashes. */
  lemma AtMostOneAccepted(run: seq<State>, i: nat, j: nat, p: Pid, q: Pid)
    requires IsRun(run) && i < |run| && j < |run|
    requires p in run[i].procs && run[i].procs[p].Accepted?
    requires q in run[j].procs && run[j].procs[q].Accepted?
    ensures p == q
  {
    RunInv(run, i);
    RunInv(run, j);
    if i <= j {
      WinnerStays(run, i, j);
    } else {
      WinnerStays(run, j, i);
    }
  }

  ghost predicate SameOutcome(s: State, t: State) {
    s.winner.Some? ==> t.dir.consumed && t.winner == s.winner && t.dir.result == s.dir.result
  }

  lemma OutcomeStep(s: State, t: State, u: State)
    requires Inv(t) && SameOutcome(s, t) && Next(t, u)
    ensures SameOutcome(s, u)
  {
  }

  lemma OutcomeStart(s: State)
    requires Inv(s)
    ensures SameOutcome(s, s)
  {
  }

  lemma {:induction false} WinnerStays(run: seq<State>, i: nat, j: nat)
    requires IsRun(run) && i <= j < |run|
    ensures SameOutcome(run[i], run[j])
    decreases j
  {
    var s, u := run[i], run[j];
    if i == j {
      RunInv(run, i);
      OutcomeStart(s);
    } else {
      var t := run[j - 1];
      WinnerStays(run, i, j - 1);
      RunInv(run, j - 1);
      assert Next(t, u);
      OutcomeStep(s, t, u);
    }
  }

  /** From the moment review-consumed exists, review-result.json exists, was written by the call
      that consumed the run, and is never rewritten or deleted. */
  lemma ResultIsWinners(run: seq<State>, i: nat, j: nat)
    requires IsRun(run) && i <= j < |run| && run[i].dir.consumed
    ensures run[j].dir.consumed && run[j].dir.result.Some?
    ensures run[j].dir.result == run[i].dir.result
    ensures run[j].winner == Some(run[i].dir.result.value.author)
    ensures forall p | p in run[j].procs && run[j].procs[p].Accepted? ::
              p == run[i].dir.result.value.author
  {
    RunInv(run, i);
    RunInv(run, j);
    WinnerStays(run, i, j);
  }

  /** A call that crashed holding the lock blocks the run for good: nothing is ever accepted. */
  ghost predicate Orphaned(s: State) {
    s.dir.lock && !s.dir.consumed && forall p | p in s.procs :: !Critical(s.procs[p])
  }

  /** A crash leaves such a lock exactly when the call held it before the marker was there, unless an
      earlier crash had left it already. */
  lemma CrashOrphansIff(s: State, p: Pid, s': State)
    requires Inv(s) && Do(s, p, Crash) == Some(s')
    ensures Orphaned(s') <==> (Critical(s.procs[p]) && !s.dir.consumed) || Orphaned(s)
    ensures s'.dir == s.dir
  {
    OthersStay(s, p, Crash, s');
    if Critical(s.procs[p]) {
      forall q | q in s'.procs ensures !Critical(s'.procs[q]) {
        assert q != p ==> q in s.procs && s'.procs[q] == s.procs[q];
      }
    } else {
      assert forall q | q in s.procs && q != p :: s'.procs[q] == s.procs[q];
    }
  }

  lemma OrphanStep(s: State, s': State)
    requires Inv(s) && Orphaned(s) && Next(s, s')
    ensures Orphaned(s') && s'.dir == s.dir
  {
  }

  lemma {:induction false} OrphanBlocks(run: seq<State>, i: nat, j: nat)
    requires IsRun(run) && i <= j < |run| && Orphaned(run[i])
    ensures Orphaned(run[j]) && run[j].dir == run[i].dir
    ensures forall p | p in run[j].procs :: !run[j].procs[p].Accepted?
  {
    RunInv(run, j);
    if i < j {
      OrphanBlocks(run, i, j - 1);
      RunInv(run, j - 1);
      OrphanStep(run[j - 1], run[j]);
    }
  }

  /** So a crash between creating the lock and publishing, or an exception of one of the deletions,
      which ends the call in the same way, blocks the directory as it then is for good. */
  lemma CrashBlocks(run: seq<State>, i: nat, j: nat, p: Pid)
    requires IsRun(run) && i < j < |run| && !run[i].dir.consumed
    requires p in run[i].procs && Critical(run[i].procs[p]) && Do(run[i], p, Crash) == Some(run[i + 1])
    ensures run[j].dir == run[i].dir && run[j].dir.lock
    ensures forall q | q in run[j].procs :: !run[j].procs[q].Accepted?
  {
    RunInv(run, i);
    CrashOrphansIff(run[i], p, run[i + 1]);
    OrphanBlocks(run, i + 1, j);
  }

  // ----- the call itself, uninterrupted

  ghost function Script(s: State, p: Pid, actions: seq<Action>): Option<State> {
    if actions == [] then Some(s)
    else
      match Script(s, p, actions[..|actions| - 1])
      case None => None
      case Some(t) => Do(t, p, actions[|actions| - 1])
  }

  /** s' is reached from s by actions of process p alone. */
  ghost predicate Alone(s: State, p: Pid, s': State) {
    exists actions :: Script(s, p, actions) == Some(s')
  }

  lemma AloneNext(s: State, p: Pid, t: State, a: Action, u: State)
    requires Alone(s, p, t) && Do(t, p, a) == Some(u)
    ensures Alone(s, p, u)
  {
    var actions :| Script(s, p, actions) == Some(t);
    assert (actions + [a])[..|actions|] == actions;
    assert Script(s, p, actions + [a]) == Some(u);
  }

  /** Which file operations fail in one call. */
  datatype Faults = Faults(create: bool, write: bool, rename: bool, deleteResult: bool, deleteLock: bool)

  class RunDirectory {
    var lock: bool
    var consumed: bool
    var result: Option<Packet>
    ghost var at: State   // where the protocol above stands, but for the files

    ghost function Now(): State
      reads this
    {
      at.(dir := Dir(lock, consumed, result))
    }

    constructor ()
      ensures Now() == Init(FRESH)
    {
      lock, consumed, result := false, false, None;
      at := Init(FRESH);
    }

    /** Take action a of process p in the history, after the files have been changed. */
    ghost method Record(before: State, start: State, p: Pid, a: Action)
      requires Alone(start, p, before) && Inv(before) && Do(before, p, a).Some?
      requires Do(before, p, a).value.dir == Dir(lock, consumed, result)
      modifies this`at
      ensures at == Do(before, p, a).value && Now() == at && Alone(start, p, at) && Inv(at)
      ensures a == Crash && Critical(before.procs[p]) && !consumed ==> Orphaned(at)
    {
      at := Do(before, p, a).value;
      AloneNext(start, p, before, a, at);
      NextInv(before, at);
      if a == Crash {
        CrashOrphansIff(before, p, at);
      }
    }

    /** Where process p stands. */
    ghost predicate Stands(start: State, p: Pid, pc: Pc)
      reads this
    {
      at == Now() && Alone(start, p, at) && Inv(at) && p in at.procs && at.procs[p] == pc
    }

    /** _run_review_packet from the marker test to its return; verdict and body are the outcome of
        validating the submission.  The call only takes steps of the protocol above; Crashed is the
        exception of a failed deletion, which leaves the lock behind. */
    method ReviewPacket(p: Pid, verdict: bool, body: string, faults: Faults) returns (outcome: Pc)
      requires p !in at.procs && Inv(Now())
      modifies this
      ensures Stands(old(Now()), p, outcome) && (outcome.Accepted? || outcome.Rejected? || outcome.Crashed?)
      ensures outcome.Accepted? <==>
                verdict && !old(consumed) && !old(lock) && !faults.create && !faults.write && !faults.rename
      ensures outcome.Crashed? <==>
                && verdict && !old(consumed) && !old(lock) && !faults.create
                && (faults.write || faults.rename) && (faults.deleteLock || (!faults.write && faults.deleteResult))
      ensures outcome == Rejected(AlreadyConsumed) <==> old(consumed) || (verdict && old(lock))
      ensures outcome == Rejected(Invalid) <==> !old(consumed) && !verdict
      ensures outcome.Accepted? ==> consumed && !lock && result == Some(Packet(p, body))
      ensures !outcome.Accepted? ==> consumed == old(consumed) && lock == (old(lock) || outcome.Crashed?)
      ensures outcome.Rejected? ==>
                result == if verdict && !old(consumed) && !old(lock) && !faults.create && !faults.write
                          then None else old(result)
      ensures outcome.Crashed? ==>
                result == if faults.write then old(result)
                          else if faults.deleteResult then Some(Packet(p, body)) else None
      ensures outcome.Crashed? ==> Orphaned(at)
    {
      ghost var start := Now();
      assert Script(start, p, []) == Some(start);
      Record(start, start, p, Arrive);
      Record(at, start, p, TestMarker);
      if consumed {
        return Rejected(AlreadyConsumed);
      }
      Record(at, start, p, Validate(verdict, body));
      if !verdict {
        return Rejected(Invalid);
      }
      outcome := Consume(p, body, faults, start);
    }

    /** From creating the lock to the return. */
    method Consume(p: Pid, body: string, faults: Faults, ghost start: State) returns (outcome: Pc)
      requires Stands(start, p, Ready(body)) && !consumed
      modifies this
      ensures Stands(start, p, outcome)
      ensures outcome == if old(lock) then Rejected(AlreadyConsumed)
                         else if faults.create then Rejected(WriteFailed)
                         else if !faults.write && !faults.rename then Accepted
                         else if faults.deleteLock || (!faults.write && faults.deleteResult) then Crashed
                         else Rejected(WriteFailed)
      ensures consumed == outcome.Accepted? && lock == (old(lock) || outcome.Crashed?)
      ensures result == if old(lock) || faults.create || faults.write then old(result)
                        else if !faults.rename || faults.deleteResult then Some(Packet(p, body)) else None
      ensures outcome.Crashed? ==> Orphaned(at)
    {
      if lock || faults.create {
        Record(at, start, p, CreateLock(faults.create));
        return if lock then Rejected(AlreadyConsumed) else Rejected(WriteFailed);
      }
      lock := true;
      Record(at, start, p, CreateLock(false));
      Record(at, start, p, Retest);
      if faults.write {
        Record(at, start, p, WriteResult(false));
        outcome := GiveUp(p, faults, start);
        return;
      }
      result := Some(Packet(p, body));
      Record(at, start, p, WriteResult(true));
      outcome := Publish(p, faults, start);
    }

    method GiveUp(p: Pid, faults: Faults, ghost start: State) returns (outcome: Pc)
      requires Stands(start, p, Unlocking(WriteFailed)) && lock && !consumed
      modifies this
      ensures Stands(start, p, outcome)
      ensures outcome == if faults.deleteLock then Crashed else Rejected(WriteFailed)
      ensures lock == outcome.Crashed? && !consumed && result == old(result)
      ensures outcome.Crashed? ==> Orphaned(at)
    {
      if faults.deleteLock {
        Record(at, start, p, Crash);
        return Crashed;
      }
      lock := false;
      Record(at, start, p, DeleteLock);
      return Rejected(WriteFailed);
    }

    method Publish(p: Pid, faults: Faults, ghost start: State) returns (outcome: Pc)
      requires Stands(start, p, Written) && lock && !consumed
      modifies this
      ensures Stands(start, p, outcome)
      ensures outcome == if !faults.rename then Accepted
                         else if faults.deleteResult || faults.deleteLock then Crashed else Rejected(WriteFailed)
      ensures consumed == !faults.rename && lock == outcome.Crashed?
      ensures result == if faults.rename && !faults.deleteResult then None else old(result)
      ensures outcome.Crashed? ==> Orphaned(at)
    {
      if faults.rename {
        Record(at, start, p, RenameLock(true));
        outcome := Undo(p, faults, start);
        return;
      }
      lock, consumed := false, true;
      Record(at, start, p, RenameLock(false));
      Record(at, start, p, Return);
      return Accepted;
    }

    /** The result is deleted again, then the lock. */
    method Undo(p: Pid, faults: Faults, ghost start: State) returns (outcome: Pc)
      requires Stands(start, p, Undoing) && lock && !consumed
      modifies this
      ensures Stands(start, p, outcome)
      ensures outcome == if faults.deleteResult || faults.deleteLock then Crashed else Rejected(WriteFailed)
      ensures lock == outcome.Crashed? && !consumed && result == if faults.deleteResult then old(result) else None
      ensures outcome.Crashed? ==> Orphaned(at)
    {
      if faults.deleteResult {
        Record(at, start, p, Crash);
        return Crashed;
      }
      result := None;
      Record(at, start, p, DeleteResult);
      outcome := GiveUp(p, faults, start);
    }
  }
}
