/**
 Placing the DSH preset directory (scripts/install_dsh_preset.py): staging, the swap with its kept
 backup, forced rotation, restore, and what the doctor says.  Calls run one after the other; each
 can fail at every file operation or crash anywhere.
 */
module PresetInstall {

  datatype Option<+T> = None | Some(value: T)

  /** A preset tree: its contents by name, and what the installer and the doctor look for in it. */
  datatype Tree = Tree(
    name: string, composition: bool, metadata: bool, skills: bool, rows: bool,
    frontmatter: bool, tokensResolved: bool, emittedPatch: bool)

  datatype Stamp = Stamp(text: string)

  /** The target, its `.bak` and `.next` neighbours, and the rotated `.bak.<stamp>` ones. */
  datatype Fs = Fs(target: Option<Tree>, backup: Option<Tree>, next: Option<Tree>, rotated: map<Stamp, Tree>)

  datatype Status =
    | IncompleteSource | ForeignTarget | StagingExists | BackupExists | OrphanBackup
    | UvNotFound | WouldInstall | InstallFailed | Installed

  /** One install call: its flags, the state of the checkout, and the tree it would stage. */
  datatype Call = Call(force: bool, dryRun: bool, sourceOk: bool, uvFound: bool, incoming: Tree, stamp: Stamp)

  datatype Pc =
    | Idle
    | Checking(call: Call)
    | Rotating(call: Call, had: bool)
    | Resolving(call: Call, had: bool)
    | Copying(call: Call, had: bool)
    | SwappingOut(call: Call)
    | SwappingIn(call: Call, had: bool)
    | Restoring(call: Call)
    | Cleaning(call: Call)
    | Returned(status: Status)

  /** live collects every tree that was ever whole at the target; before is the target when the
      current call began; restoreFailed says that a restoring move failed in the current call. */
  datatype State = State(fs: Fs, pc: Pc, live: set<Tree>, before: Option<Tree>, restoreFailed: bool)

  datatype Action =
    | Begin(call: Call)
    | Check
    | Rotate
    | Resolve
    | CopyPart(partial: Tree)       // the staging tree while it is being written
    | CopyDone                      // staged, rendered and checked
    | MoveOut
    | MoveIn
    | Restore
    | RemovePart(partial: Tree)     // the staging tree while it is being removed
    | RemoveStaging
    | Fail                          // the current file operation raises
    | Crash
    | Finish

  predicate StagedOk(t: Tree) {
    t.tokensResolved && t.composition && t.metadata && t.skills && t.rows
  }

  function Live(t: Option<Tree>): set<Tree> {
    if t.Some? then {t.value} else {}
  }

  /** The checks up to the first file operation. */
  function Checked(fs: Fs, c: Call): Pc {
    if !c.sourceOk then Returned(IncompleteSource)
    else if fs.target.Some? && !fs.target.value.composition then Returned(ForeignTarget)
    else if fs.next.Some? then Returned(StagingExists)
    else if fs.backup.Some? then
      if !c.force || fs.target.None? then
        Returned(if fs.target.Some? then BackupExists else OrphanBackup)
      else if c.dryRun then Resolving(c, true)
      else Rotating(c, true)
    else Resolving(c, fs.target.Some?)
  }

  /** The kept backup moved to its stamped name. */
  function Rotated(fs: Fs, stamp: Stamp): Fs {
    if fs.backup.None? then fs
    else fs.(backup := None, rotated := fs.rotated[stamp := fs.backup.value])
  }

  function Do(s: State, a: Action): Option<State> {
    var fs, pc := s.fs, s.pc;
    match a
    case Begin(call) =>
      if pc != Idle then None
      else Some(s.(pc := Checking(call), before := fs.target, restoreFailed := false))
    case Check =>
      if !pc.Checking? then None else Some(s.(pc := Checked(fs, pc.call)))
    case Rotate =>
      if !pc.Rotating? || fs.backup.None? || pc.call.stamp in fs.rotated then None
      else Some(s.(fs := Rotated(fs, pc.call.stamp), pc := Resolving(pc.call, pc.had)))
    case Resolve =>
      if !pc.Resolving? then None
      else if !pc.call.uvFound then Some(s.(pc := Returned(UvNotFound)))
      else if pc.call.dryRun then Some(s.(pc := Returned(WouldInstall)))
      else Some(s.(pc := Copying(pc.call, pc.had)))
    case CopyPart(partial) =>
      if !pc.Copying? then None else Some(s.(fs := fs.(next := Some(partial))))
    case CopyDone =>
      if !pc.Copying? then None
      else
        var staged := s.(fs := fs.(next := Some(pc.call.incoming)));
        if !StagedOk(pc.call.incoming) then Some(staged.(pc := Cleaning(pc.call)))
        else if pc.had then Some(staged.(pc := SwappingOut(pc.call)))
        else Some(staged.(pc := SwappingIn(pc.call, false)))
    case MoveOut =>
      if !pc.SwappingOut? || fs.backup.Some? then None
      else Some(s.(fs := fs.(backup := fs.target, target := None), pc := SwappingIn(pc.call, true)))
    case MoveIn =>
      if !pc.SwappingIn? || fs.target.Some? then None
      else Some(s.(fs := fs.(target := fs.next, next := None), pc := Returned(Installed),
                   live := s.live + Live(fs.next)))
    case Restore =>
      if !pc.Restoring? || fs.target.Some? then None
      else Some(s.(fs := fs.(target := fs.backup, backup := None), pc := Cleaning(pc.call)))
    case RemovePart(partial) =>
      if !pc.Cleaning? || fs.next.None? then None else Some(s.(fs := fs.(next := Some(partial))))
    case RemoveStaging =>
      if !pc.Cleaning? then None
      else Some(s.(fs := fs.(next := None), pc := Returned(InstallFailed)))
    case Fail => (
      match pc
      case Rotating(_, _) => Some(s.(pc := Idle))
      case Copying(c, _) => Some(s.(pc := Cleaning(c)))
      case SwappingOut(c) => Some(s.(pc := Cleaning(c)))
      case SwappingIn(c, had) => Some(s.(pc := if had then Restoring(c) else Cleaning(c)))
      case Restoring(c) => Some(s.(pc := Cleaning(c), restoreFailed := true))
      case Cleaning(_) => Some(s.(pc := Idle))
      case _ => None)
    case Crash =>
      if pc == Idle then None else Some(s.(pc := Idle))
    case Finish =>
      if !pc.Returned? then None else Some(s.(pc := Idle))
  }

  ghost predicate Next(s: State, s': State) {
    exists a :: Do(s, a) == Some(s')
  }

  /** Any directory state at rest may be the first; whatever is at the target counts as live. */
  ghost predicate IsRun(run: seq<State>) {
    && run != [] && run[0].pc == Idle && run[0].live == Live(run[0].fs.target)
    && forall i | 0 <= i < |run| - 1 :: Next(run[i], run[i + 1])
  }

  // ----- no tree that was ever live is lost

  ghost predicate Kept(fs: Fs, t: Tree) {
    || fs.target == Some(t) || fs.backup == Some(t)
    || exists k :: k in fs.rotated && fs.rotated[k] == t
  }

  ghost predicate AtPc(s: State) {
    match s.pc
    case Rotating(c, had) => had && s.fs.target == s.before && s.fs.target.Some? && s.fs.next.None?
    case Checking(_) => s.fs.target == s.before
    case Resolving(c, had) =>
      s.fs.target == s.before && had == s.fs.target.Some? && s.fs.next.None? && (s.fs.backup.None? || c.dryRun)
    case Copying(_, had) => s.fs.target == s.before && had == s.fs.target.Some? && s.fs.backup.None?
    case SwappingOut(c) =>
      s.fs.target == s.before && s.fs.target.Some? && s.fs.backup.None? && s.fs.next == Some(c.incoming)
    case SwappingIn(c, had) =>
      && s.fs.target.None? && s.fs.next == Some(c.incoming)
      && (if had then s.fs.backup == s.before && s.before.Some? else s.before.None? && s.fs.backup.None?)
    case Restoring(c) =>
      s.fs.target.None? && s.fs.backup == s.before && s.before.Some? && s.fs.next == Some(c.incoming)
    case Cleaning(_) =>
      if s.restoreFailed then s.fs.target.None? && s.fs.backup == s.before else s.fs.target == s.before
    case Returned(status) =>
      if status == Installed then s.fs.target.Some? && s.fs.next.None? && s.fs.backup == s.before
      else if status == InstallFailed && s.restoreFailed then s.fs.target.None? && s.fs.backup == s.before
      else s.fs.target == s.before
    case Idle => true
  }

  ghost predicate Inv(s: State) {
    && AtPc(s)
    && (s.restoreFailed ==> s.pc.Cleaning? || s.pc.Returned? || s.pc.Idle?)
    && (!s.pc.Idle? ==> Live(s.before) <= s.live)
    && (forall t | t in s.live :: Kept(s.fs, t))
    && Live(s.fs.target) <= s.live
  }

  lemma AtPcKept(s: State, a: Action, s': State)
    requires Inv(s) && Do(s, a) == Some(s')
    ensures AtPc(s')
  {
  }

  lemma BeforeKept(s: State, a: Action, s': State)
    requires Inv(s) && Do(s, a) == Some(s')
    ensures (s'.restoreFailed ==> s'.pc.Cleaning? || s'.pc.Returned? || s'.pc.Idle?)
    ensures (!s'.pc.Idle? ==> Live(s'.before) <= s'.live) && Live(s'.fs.target) <= s'.live
  {
  }

  lemma NextInv(s: State, s': State)
    requires Inv(s) && Next(s, s')
    ensures Inv(s')
  {
    var a :| Do(s, a) == Some(s');
    AtPcKept(s, a, s');
    BeforeKept(s, a, s');
    forall t | t in s'.live ensures Kept(s'.fs, t) {
      LiveKept(s, a, s', t);
    }
  }

  lemma LiveKept(s: State, a: Action, s': State, t: Tree)
    requires Inv(s) && Do(s, a) == Some(s') && t in s'.live
    ensures Kept(s'.fs, t)
  {
    if t in s.live {
      assert Kept(s.fs, t);
      if a.Rotate? {
        if s.fs.backup == Some(t) {
          assert s.pc.call.stamp in s'.fs.rotated && s'.fs.rotated[s.pc.call.stamp] == t;
        } else if k :| k in s.fs.rotated && s.fs.rotated[k] == t {
          assert k in s'.fs.rotated && s'.fs.rotated[k] == t;
        }
      }
    }
  }

  lemma {:induction false} RunInv(run: seq<State>, i: nat)
    requires IsRun(run) && i < |run|
    ensures Inv(run[i])
  {
    if i > 0 {
      RunInv(run, i - 1);
      NextInv(run[i - 1], run[i]);
    }
  }

  lemma LiveGrows(s: State, s': State)
    requires Next(s, s')
    ensures s.live <= s'.live
  {
  }

  lemma {:induction false} LiveGrowsOver(run: seq<State>, i: nat, j: nat)
    requires IsRun(run) && i <= j < |run|
    ensures run[i].live <= run[j].live
    decreases j
  {
    if i < j {
      LiveGrowsOver(run, i, j - 1);
      LiveGrows(run[j - 1], run[j]);
    }
  }

  /** Over every run of installs, a tree that was live at the target at some moment exists whole at
      the target, the backup or a rotated backup at every later moment. */
  lemma LiveTreesSurvive(run: seq<State>, i: nat, j: nat)
    requires IsRun(run) && i <= j < |run| && run[i].fs.target.Some?
    ensures Kept(run[j].fs, run[i].fs.target.value)
  {
    RunInv(run, i);
    RunInv(run, j);
    LiveGrowsOver(run, i, j);
  }

  // ----- somebody else's directory

  ghost predicate Foreign(s: State) {
    s.fs.target.Some? && !s.fs.target.value.composition
  }

  /** Past the checks the target that the call found is no foreign directory, and what is moved in
      was checked. */
  ghost predicate PastChecks(s: State) {
    && (s.pc.Idle? || s.pc.Checking? || s.pc.Returned? || (s.before.Some? ==> s.before.value.composition))
    && (s.pc.SwappingOut? || s.pc.SwappingIn? ==> s.pc.call.incoming.composition)
  }

  lemma PastChecksKept(s: State, s': State)
    requires Inv(s) && PastChecks(s) && Next(s, s')
    ensures PastChecks(s')
  {
  }

  lemma {:induction false} RunPastChecks(run: seq<State>, i: nat)
    requires IsRun(run) && i < |run|
    ensures PastChecks(run[i])
  {
    if i > 0 {
      RunInv(run, i - 1);
      RunPastChecks(run, i - 1);
      PastChecksKept(run[i - 1], run[i]);
    }
  }

  lemma ForeignKept(s: State, s': State)
    requires Inv(s) && PastChecks(s) && Foreign(s) && Next(s, s')
    ensures s'.fs == s.fs
  {
  }

  /** Over every run of calls, whatever their flags and wherever they fail or crash: once a directory
      without the composition file is at the target, nothing is moved, copied or rotated any more. */
  lemma {:induction false} ForeignTargetStands(run: seq<State>, i: nat, j: nat)
    requires IsRun(run) && i <= j < |run| && run[i].fs.target.Some? && !run[i].fs.target.value.composition
    ensures run[j].fs == run[i].fs
    decreases j
  {
    if i < j {
      ForeignTargetStands(run, i, j - 1);
      ForeignNext(run, j - 1, j);
    }
  }

  lemma ForeignNext(run: seq<State>, i: nat, j: nat)
    requires IsRun(run) && j == i + 1 < |run| && Foreign(run[i])
    ensures run[j].fs == run[i].fs
  {
    RunInv(run, i);
    RunPastChecks(run, i);
    ForeignKept(run[i], run[j]);
  }

  /** A call ends without success: it returns another status, or an operation raises that nothing
      catches, the rotation of the kept backup or the removal of the staging tree. */
  ghost predicate EndsInVain(run: seq<State>, i: nat)
    requires i < |run|
  {
    || (run[i].pc.Returned? && run[i].pc.status != Installed)
    || (i > 0 && run[i].pc.Idle? && Do(run[i - 1], Fail) == Some(run[i]))
  }

  /** Such a call leaves the target as it found it, unless the move that restores it failed itself;
      then the target is gone and the backup holds it. */
  lemma FailedInstallKeepsTarget(run: seq<State>, i: nat)
    requires IsRun(run) && i < |run| && EndsInVain(run, i)
    ensures !run[i].restoreFailed ==> run[i].fs.target == run[i].before
    ensures run[i].restoreFailed ==>
              run[i].fs.target == run[i].before
              || (run[i].fs.target == None && run[i].fs.backup == run[i].before)
  {
    RunInv(run, i);
    if i > 0 {
      RunInv(run, i - 1);
    }
  }

  // ----- the doctor

  datatype Checkout = Checkout(sourceComplete: bool, rowsResolvable: bool, patchExists: bool)

  /** All gated checks; a backup beside an installed target is not gated. */
  predicate Healthy(c: Checkout, fs: Fs) {
    var installed := fs.target.Some? && fs.target.value.composition;
    && c.sourceComplete && c.rowsResolvable && c.patchExists
    && installed
    && fs.target.value.skills && fs.target.value.frontmatter && fs.target.value.tokensResolved
    && fs.target.value.emittedPatch
    && fs.next.None?
  }

  /** Between the first write to the staging tree and the end of the swap no state is healthy. */
  ghost predicate MidSwap(s: State) {
    || (s.pc.Copying? && s.fs.next.Some?) || s.pc.SwappingOut? || s.pc.SwappingIn? || s.pc.Restoring?
  }

  lemma MidSwapUnhealthy(run: seq<State>, i: nat, c: Checkout)
    requires IsRun(run) && i < |run| && MidSwap(run[i])
    ensures !Healthy(c, run[i].fs)
    ensures run[i].fs.next.Some?
  {
    RunInv(run, i);
  }

  /** The doctor says healthy exactly when the checkout is sound, nothing is staged, and the target is
      a whole tree with all its parts that was installed or was there from the start. */
  lemma HealthyIsWhole(run: seq<State>, i: nat, c: Checkout)
    requires IsRun(run) && i < |run|
    ensures Healthy(c, run[i].fs) <==>
              && c.sourceComplete && c.rowsResolvable && c.patchExists
              && run[i].fs.next == None && run[i].fs.target.Some?
              && var tree := run[i].fs.target.value;
                 && tree in run[i].live && tree.composition && tree.skills && tree.frontmatter
                 && tree.tokensResolved && tree.emittedPatch
  {
    RunInv(run, i);
  }

  // ----- what a crash leaves behind

  /** Residue that only a person may clear: a staging tree, or a backup beside no target. */
  predicate Residue(fs: Fs) {
    fs.next.Some? || (fs.target.None? && fs.backup.Some?)
  }

  /** A call that found residue never gets past its checks. */
  ghost predicate AtDoor(s: State) {
    s.pc.Idle? || s.pc.Checking? || (s.pc.Returned? && s.pc.status != Installed)
  }

  lemma DoorKept(s: State, s': State)
    requires Residue(s.fs) && AtDoor(s) && Next(s, s')
    ensures s'.fs == s.fs && AtDoor(s')
  {
  }

  /** Once a call has crashed or been refused beside residue, no later call, forced or not, changes
      any directory or reports success. */
  lemma {:induction false} ResidueStands(run: seq<State>, i: nat, j: nat)
    requires IsRun(run) && i <= j < |run| && run[i].pc == Idle && Residue(run[i].fs)
    ensures run[j].fs == run[i].fs && AtDoor(run[j])
    decreases j
  {
    if i < j {
      ResidueStands(run, i, j - 1);
      DoorKept(run[j - 1], run[j]);
    }
  }

  /** A crash in the middle of a swap is reported unhealthy at every later moment. */
  lemma CrashStaysUnhealthy(run: seq<State>, i: nat, j: nat, c: Checkout)
    requires IsRun(run) && i + 1 < |run| && MidSwap(run[i]) && Do(run[i], Crash) == Some(run[i + 1])
    requires i < j < |run|
    ensures run[j].fs == run[i].fs && !Healthy(c, run[j].fs)
    ensures run[j].pc.Returned? ==> run[j].pc.status != Installed
  {
    RunInv(run, i);
    ResidueStands(run, i + 1, j);
  }

  // ----- the calls themselves, uninterrupted

  /** Which operations raise in one call, and what is then staged or left of the staging tree. */
  datatype Faults = Faults(
    rotate: bool, copy: bool, moveOut: bool, moveIn: bool, restore: bool, remove: bool,
    copied: Option<Tree>, left: Tree)

  /** The call gets as far as staging. */
  predicate Stages(fs: Fs, c: Call, faults: Faults) {
    && !Checked(fs, c).Returned? && (Checked(fs, c).Rotating? ==> !faults.rotate)
    && c.uvFound && !c.dryRun
  }

  predicate Staged(c: Call, faults: Faults) {
    !faults.copy && StagedOk(c.incoming)
  }

  /** Staging and both moves succeed. */
  predicate Swaps(c: Call, had: bool, faults: Faults) {
    Staged(c, faults) && (had ==> !faults.moveOut) && !faults.moveIn
  }

  /** The target was moved out, and neither the new tree nor the old one could be moved in. */
  predicate LosesTarget(c: Call, had: bool, faults: Faults) {
    Staged(c, faults) && had && !faults.moveOut && faults.moveIn && faults.restore
  }

  /** The staging tree is still there after a failure and cannot be removed. */
  predicate Stuck(c: Call, faults: Faults) {
    faults.remove && (faults.copy ==> faults.copied.Some?)
  }

  /** The status of a call, by the steps it takes; None is an uncaught exception. */
  predicate StatusAs(fs: Fs, c: Call, faults: Faults, status: Option<Status>) {
    var had := fs.target.Some?;
    if Checked(fs, c).Returned? then status == Some(Checked(fs, c).status)
    else if Checked(fs, c).Rotating? && faults.rotate then status == None
    else if !c.uvFound then status == Some(UvNotFound)
    else if c.dryRun then status == Some(WouldInstall)
    else if Swaps(c, had, faults) then status == Some(Installed)
    else status == if Stuck(c, faults) then None else Some(InstallFailed)
  }

  predicate FilesAs(fs: Fs, c: Call, faults: Faults, status: Option<Status>, fs': Fs) {
    var had := fs.target.Some?;
    var kept := if Checked(fs, c).Rotating? && !faults.rotate then Rotated(fs, c.stamp) else fs;
    && fs'.rotated == kept.rotated
    && (status == Some(Installed) ==>
          fs'.target == Some(c.incoming) && fs'.next.None? && fs'.backup == fs.target)
    && (status != Some(Installed) && Stages(fs, c, faults) ==>
          && fs'.next == (if Stuck(c, faults) then Some(faults.left) else None)
          && if LosesTarget(c, had, faults) then fs'.target.None? && fs'.backup == fs.target
             else fs'.target == fs.target && fs'.backup.None?)
    && (!Stages(fs, c, faults) ==> fs' == kept)
  }

  // ----- the call, by its flags and files

  /** Nothing refuses the call: the source is complete, the target is not somebody else's directory,
      nothing is staged, and a kept backup lies beside a target and may be rotated. */
  predicate Unrefused(fs: Fs, c: Call) {
    && c.sourceOk && (fs.target.Some? ==> fs.target.value.composition) && fs.next.None?
    && (fs.backup.Some? ==> c.force && fs.target.Some?)
  }

  /** Which status is returned when; none at all when the rotation or the removal of a staging tree
      raises. */
  predicate StatusWritten(fs: Fs, c: Call, faults: Faults, status: Option<Status>) {
    var ours := fs.target.Some? && fs.target.value.composition;
    var foreign := fs.target.Some? && !fs.target.value.composition;
    var rotates := fs.backup.Some? && !c.dryRun;
    var goesOn := Unrefused(fs, c) && !(rotates && faults.rotate);
    var staged := !faults.copy && c.incoming.tokensResolved && c.incoming.composition && c.incoming.metadata
                  && c.incoming.skills && c.incoming.rows;
    var swapped := staged && !(fs.target.Some? && faults.moveOut) && !faults.moveIn;
    var stuck := faults.remove && !(faults.copy && faults.copied.None?);
    && (status == Some(IncompleteSource) <==> !c.sourceOk)
    && (status == Some(ForeignTarget) <==> c.sourceOk && foreign)
    && (status == Some(StagingExists) <==> c.sourceOk && !foreign && fs.next.Some?)
    && (status == Some(OrphanBackup) <==> c.sourceOk && fs.target.None? && fs.next.None? && fs.backup.Some?)
    && (status == Some(BackupExists) <==> c.sourceOk && ours && fs.next.None? && fs.backup.Some? && !c.force)
    && (status == Some(UvNotFound) <==> goesOn && !c.uvFound)
    && (status == Some(WouldInstall) <==> goesOn && c.uvFound && c.dryRun)
    && (status == Some(Installed) <==> goesOn && c.uvFound && !c.dryRun && swapped)
    && (status == Some(InstallFailed) <==> goesOn && c.uvFound && !c.dryRun && !swapped && !stuck)
  }

  /** Where every tree is afterwards. */
  predicate FilesWritten(fs: Fs, c: Call, faults: Faults, fs': Fs) {
    var rotated := Unrefused(fs, c) && fs.backup.Some? && !c.dryRun && !faults.rotate;
    var begun := Unrefused(fs, c) && !(fs.backup.Some? && faults.rotate) && c.uvFound && !c.dryRun;
    var staged := !faults.copy && c.incoming.tokensResolved && c.incoming.composition && c.incoming.metadata
                  && c.incoming.skills && c.incoming.rows;
    var swapped := staged && !(fs.target.Some? && faults.moveOut) && !faults.moveIn;
    var lost := staged && fs.target.Some? && !faults.moveOut && faults.moveIn && faults.restore;
    var stuck := faults.remove && !(faults.copy && faults.copied.None?);
    && fs'.rotated == (if rotated then fs.rotated[c.stamp := fs.backup.value] else fs.rotated)
    && fs'.target == (if begun && swapped then Some(c.incoming) else if begun && lost then None else fs.target)
    && fs'.backup == (if begun && (swapped || lost) then fs.target else if rotated then None else fs.backup)
    && fs'.next == if begun && !swapped && stuck then Some(faults.left) else fs.next
  }

  lemma StatusIsWritten(fs: Fs, c: Call, faults: Faults, status: Option<Status>)
    requires StatusAs(fs, c, faults, status)
    ensures StatusWritten(fs, c, faults, status)
  {
  }

  lemma FilesAreWritten(fs: Fs, c: Call, faults: Faults, status: Option<Status>, fs': Fs)
    requires StatusAs(fs, c, faults, status) && FilesAs(fs, c, faults, status, fs')
    ensures FilesWritten(fs, c, faults, fs')
  {
  }

  /** After an install the doctor is content exactly when the checkout is and the skills' front matter
      and the emitted patch are there, which the installer does not check. */
  lemma InstalledHealthyIff(fs: Fs, c: Call, faults: Faults, fs': Fs, checkout: Checkout)
    requires StatusWritten(fs, c, faults, Some(Installed)) && FilesWritten(fs, c, faults, fs')
    ensures Healthy(checkout, fs') <==>
              && checkout.sourceComplete && checkout.rowsResolvable && checkout.patchExists
              && c.incoming.frontmatter && c.incoming.emittedPatch
  {
  }

  datatype Uninstall = NotInstalled | NotOurs | WouldRemove | Removed

  /** t is reached from s by steps of the protocol above. */
  ghost predicate Reached(s: State, t: State) {
    exists actions :: Script(s, actions) == Some(t)
  }

  ghost function Script(s: State, actions: seq<Action>): Option<State> {
    if actions == [] then Some(s)
    else
      match Script(s, actions[..|actions| - 1])
      case None => None
      case Some(t) => Do(t, actions[|actions| - 1])
  }

  lemma ReachedNext(s: State, t: State, a: Action, u: State)
    requires Reached(s, t) && Do(t, a) == Some(u)
    ensures Reached(s, u)
  {
    var actions :| Script(s, actions) == Some(t);
    assert (actions + [a])[..|actions|] == actions;
    assert Script(s, actions + [a]) == Some(u);
  }

  class PresetHome {
    var target: Option<Tree>
    var backup: Option<Tree>
    var next: Option<Tree>
    var rotated: map<Stamp, Tree>
    ghost var at: State   // where the protocol above stands, but for the files

    ghost function Files(): Fs
      reads this
    {
      Fs(target, backup, next, rotated)
    }

    ghost function Now(): State
      reads this
    {
      at.(fs := Files())
    }

    /** Take an action in the history, after the files have been changed. */
    ghost method Record(was: State, start: State, a: Action)
      requires Reached(start, was) && Do(was, a).Some? && Do(was, a).value.fs == Files()
      modifies this`at
      ensures at == Do(was, a).value && Now() == at && Reached(start, at)
    {
      at := Do(was, a).value;
      ReachedNext(start, was, a, at);
    }

    /** The checks of install_preset up to the rotation; None says that nothing refuses the call. */
    method Judge(c: Call) returns (refusal: Option<Status>)
      ensures Checked(Files(), c) == if refusal.Some? then Returned(refusal.value)
                                     else if backup.Some? && !c.dryRun then Rotating(c, true)
                                     else Resolving(c, target.Some?)
      ensures refusal == Some(OrphanBackup) <==> c.sourceOk && target.None? && next.None? && backup.Some?
      ensures refusal == Some(BackupExists) <==>
                c.sourceOk && target.Some? && target.value.composition && next.None? && backup.Some? && !c.force
      ensures refusal.Some? ==> refusal.value !in {Installed, InstallFailed, UvNotFound, WouldInstall}
    {
      if !c.sourceOk {
        return Some(IncompleteSource);
      }
      if target.Some? && !target.value.composition {
        return Some(ForeignTarget);
      }
      if next.Some? {
        return Some(StagingExists);
      }
      if backup.Some? && (!c.force || target.None?) {
        return Some(if target.Some? then BackupExists else OrphanBackup);
      }
      return None;
    }

    /** install_preset takes only steps of the protocol; None is an exception that it does not catch,
        of the rotation or of removing the staging tree. */
    method Install(c: Call, faults: Faults) returns (status: Option<Status>)
      requires c.stamp !in rotated && at.pc == Idle
      modifies this
      ensures Reached(old(Now()), Now()) && at.pc == if status.Some? then Returned(status.value) else Idle
      ensures StatusWritten(old(Files()), c, faults, status) && FilesWritten(old(Files()), c, faults, Files())
    {
      ghost var fs := Files();
      status := Perform(c, faults);
      StatusIsWritten(fs, c, faults, status);
      FilesAreWritten(fs, c, faults, status, Files());
    }

    method Perform(c: Call, faults: Faults) returns (status: Option<Status>)
      requires c.stamp !in rotated && at.pc == Idle
      modifies this
      ensures Reached(old(Now()), Now()) && at.pc == if status.Some? then Returned(status.value) else Idle
      ensures StatusAs(old(Files()), c, faults, status) && FilesAs(old(Files()), c, faults, status, Files())
    {
      ghost var start := Now();
      assert Script(start, []) == Some(start);
      Record(start, start, Begin(c));
      Record(at, start, Check);
      var refusal := Judge(c);
      if refusal.Some? {
        return refusal;
      }
      var ready := RotateBackup(c, faults, start);
      if !ready {
        return None;
      }
      Record(at, start, Resolve);
      if !c.uvFound {
        return Some(UvNotFound);
      }
      if c.dryRun {
        return Some(WouldInstall);
      }
      status := Swap(c, target.Some?, faults, start);
    }

    /** The kept backup makes room under its stamped name. */
    method RotateBackup(c: Call, faults: Faults, ghost start: State) returns (ok: bool)
      requires at == Now() && Reached(start, at) && c.stamp !in rotated
      requires at.pc == if backup.Some? && !c.dryRun then Rotating(c, true) else Resolving(c, target.Some?)
      requires at.pc.Rotating? ==> target.Some?
      modifies this
      ensures Reached(start, at) && at == Now() && at.pc == if ok then Resolving(c, target.Some?) else Idle
      ensures ok <==> !(old(at).pc.Rotating? && faults.rotate)
      ensures Files() == if old(at).pc.Rotating? && ok then Rotated(old(Files()), c.stamp) else old(Files())
    {
      if backup.Some? && !c.dryRun {
        if faults.rotate {
          Record(at, start, Fail);
          return false;
        }
        rotated := rotated[c.stamp := backup.value];
        backup := None;
        Record(at, start, Rotate);
      }
      return true;
    }

    /** The try block: stage, swap, and restore on failure. */
    method Swap(c: Call, had: bool, faults: Faults, ghost start: State) returns (status: Option<Status>)
      requires had == target.Some? && next.None? && backup.None?
      requires at == Now() && at.pc == Copying(c, had) && Reached(start, at)
      modifies this
      ensures Reached(start, at) && at == Now() && at.pc == if status.Some? then Returned(status.value) else Idle
      ensures status == if Swaps(c, had, faults) then Some(Installed)
                        else if Stuck(c, faults) then None else Some(InstallFailed)
      ensures Swaps(c, had, faults) ==> target == Some(c.incoming) && backup == old(target) && next.None?
      ensures !Swaps(c, had, faults) ==>
                && next == (if Stuck(c, faults) then Some(faults.left) else None)
                && if LosesTarget(c, had, faults) then target.None? && backup == old(target)
                   else target == old(target) && backup.None?
      ensures rotated == old(rotated)
    {
      var staged := Stage(c, had, faults, start);
      if !staged {
        status := CleanUp(c, faults, start);
        return;
      }
      if had {
        if faults.moveOut {
          Record(at, start, Fail);
          status := CleanUp(c, faults, start);
          return;
        }
        target, backup := None, target;
        Record(at, start, MoveOut);
      }
      status := Place(c, had, faults, start);
    }

    /** Copy, render and check the staging tree. */
    method Stage(c: Call, had: bool, faults: Faults, ghost start: State) returns (ok: bool)
      requires had == target.Some? && next.None? && at == Now() && at.pc == Copying(c, had) && Reached(start, at)
      modifies this
      ensures Reached(start, at) && at == Now()
      ensures at.pc == if !ok then Cleaning(c) else if had then SwappingOut(c) else SwappingIn(c, false)
      ensures ok == Staged(c, faults)
      ensures next == if faults.copy then faults.copied else Some(c.incoming)
      ensures target == old(target) && backup == old(backup) && rotated == old(rotated)
    {
      if faults.copy {
        if faults.copied.Some? {
          next := faults.copied;
          Record(at, start, CopyPart(next.value));
        }
        Record(at, start, Fail);
        return false;
      }
      next := Some(c.incoming);
      Record(at, start, CopyDone);
      return StagedOk(c.incoming);
    }

    /** The second move, and the restoring move when it fails. */
    method Place(c: Call, had: bool, faults: Faults, ghost start: State) returns (status: Option<Status>)
      requires at == Now() && at.pc == SwappingIn(c, had) && Reached(start, at)
      requires target.None? && next == Some(c.incoming) && !faults.copy
      modifies this
      ensures Reached(start, at) && at == Now() && at.pc == if status.Some? then Returned(status.value) else Idle
      ensures status == if !faults.moveIn then Some(Installed) else if faults.remove then None else Some(InstallFailed)
      ensures !faults.moveIn ==> target == Some(c.incoming) && backup == old(backup) && next.None?
      ensures faults.moveIn ==>
                && next == (if faults.remove then Some(faults.left) else None)
                && if had && !faults.restore then target == old(backup) && backup.None?
                   else target.None? && backup == old(backup)
      ensures rotated == old(rotated)
    {
      if faults.moveIn {
        Record(at, start, Fail);
        if had {
          if faults.restore {
            Record(at, start, Fail);
          } else {
            target, backup := backup, None;
            Record(at, start, Restore);
          }
        }
        status := CleanUp(c, faults, start);
        return;
      }
      target, next := next, None;
      Record(at, start, MoveIn);
      return Some(Installed);
    }

    /** The staging tree is removed, when there is one. */
    method CleanUp(c: Call, faults: Faults, ghost start: State) returns (status: Option<Status>)
      requires at == Now() && at.pc == Cleaning(c) && Reached(start, at)
      modifies this
      ensures Reached(start, at) && at == Now() && at.pc == if status.Some? then Returned(status.value) else Idle
      ensures status == if faults.remove && old(next).Some? then None else Some(InstallFailed)
      ensures next == if faults.remove && old(next).Some? then Some(faults.left) else None
      ensures target == old(target) && backup == old(backup) && rotated == old(rotated)
    {
      if next.Some? && faults.remove {
        next := Some(faults.left);
        Record(at, start, RemovePart(faults.left));
        Record(at, start, Fail);
        return None;
      }
      next := None;
      Record(at, start, RemoveStaging);
      return Some(InstallFailed);
    }

    /** uninstall_preset removes only a directory that is recognisably this preset, and never a
        backup. */
    method UninstallPreset(dryRun: bool) returns (result: Uninstall)
      modifies this`target
      ensures result == if old(target).None? then NotInstalled
                        else if !old(target).value.composition || !old(target).value.metadata then NotOurs
                        else if dryRun then WouldRemove else Removed
      ensures target == if result == Removed then None else old(target)
    {
      if target.None? {
        return NotInstalled;
      }
      if !target.value.composition || !target.value.metadata {
        return NotOurs;
      }
      if dryRun {
        return WouldRemove;
      }
      target := None;
      return Removed;
    }

    /** After an uninstall beside a kept backup every install is refused, forced or not, until the
        backup is moved away by hand. */
    method ReinstallAfterUninstall(c: Call, faults: Faults) returns (status: Option<Status>)
      requires c.stamp !in rotated && c.sourceOk && at.pc == Idle
      requires target.Some? && target.value.composition && target.value.metadata
      requires backup.Some? && next.None?
      modifies this
      ensures status == Some(OrphanBackup)
      ensures target.None? && backup == old(backup) && rotated == old(rotated)
    {
      var removed := UninstallPreset(false);
      status := Install(c, faults);
    }
  }
}
