/**
 Publishing and reading one immutable RePoE export (pipeline/repoe_snapshot.py) together with the
 guarded verify-then-load prefix of the corpus build (pipeline/build_corpus.py): publishers and
 readers interleaved at every file operation, each able to stop anywhere.
 */
module RepoeSnapshot {

  datatype Option<+T> = None | Some(value: T)

  datatype Pid = Pid(id: nat)

  datatype File = BaseItems | SkillGems | Skills | Ascendancies | Mods | Version

  /** Replacement order; the manifest comes after all of these. */
  const ORDER: seq<File> := [BaseItems, SkillGems, Skills, Ascendancies, Mods, Version]

  const SOURCES: seq<File> := [BaseItems, SkillGems, Skills, Ascendancies, Mods]

  /** recorded holds the digests of the files; digests are identified with the bytes they digest.
      Old is a manifest of schema 1 or without a schema, Malformed one that fails validation. */
  datatype Manifest = Old | Malformed | V2(commit: string, recorded: map<File, string>)

  /** The managed input directory. */
  datatype Dir = Dir(pending: bool, files: map<File, string>, manifest: Option<Manifest>)

  /** Bytes of one file of one commit's export; commits are immutable. */
  type Remote = (string, File) -> string

  function ManifestOf(remote: Remote, commit: string): Manifest {
    V2(commit, map f: File | f in ORDER :: remote(commit, f))
  }

  /** Exactly commit's export with its manifest. */
  ghost predicate Complete(remote: Remote, d: Dir, commit: string) {
    && d.manifest == Some(ManifestOf(remote, commit))
    && forall f: File :: f in d.files && d.files[f] == remote(commit, f)
  }

  datatype Verdict = Raises | Unbound | Bound(manifest: Manifest)

  predicate Matches(d: Dir, m: Manifest)
    requires m.V2?
  {
    forall f | f in ORDER :: f in d.files && f in m.recorded && d.files[f] == m.recorded[f]
  }

  /** _verify_snapshot: a pending marker raises unless the caller is publishing. */
  function Verify(d: Dir, publishing: bool): Verdict {
    if d.pending && !publishing then Raises
    else
      match d.manifest
      case None => Unbound
      case Some(Old) => Unbound
      case Some(Malformed) => Raises
      case Some(V2(c, r)) => if Matches(d, V2(c, r)) then Bound(V2(c, r)) else Raises
  }

  lemma AllFilesOrdered(f: File)
    ensures f in ORDER
  {
  }

  lemma CompleteVerifies(remote: Remote, d: Dir, commit: string)
    requires Complete(remote, d, commit)
    ensures Verify(d, true) == Bound(ManifestOf(remote, commit))
    ensures !d.pending ==> Verify(d, false) == Bound(ManifestOf(remote, commit))
  {
  }

  // ----- processes

  datatype Pc =
    // a publisher
    | Staged(commit: string)
    | Guarded(commit: string)
    | Replacing(commit: string, next: nat)
    | Checking(commit: string)
    | Unmarking(commit: string)
    | Leaving(commit: string)
    | Published(commit: string)
    // a reader: verify, then load
    | Wanting(expected: Option<string>)
    | Holding(expected: Option<string>)
    | Loading(expected: Option<string>, verdict: Verdict, seen: Dir, loaded: map<File, string>, next: nat)
    | Loaded(expected: Option<string>, verdict: Verdict, loaded: map<File, string>)
    // an exception or a crash; either way the operating system drops the lock
    | Stopped

  datatype State = State(dir: Dir, guard: Option<Pid>, procs: map<Pid, Pc>)

  datatype Action =
    | StartPublisher(commit: string)
    | StartReader(expected: Option<string>)
    | Acquire
    | WriteMarker
    | ReplaceNext
    | Check
    | RemoveMarker
    | VerifyGuarded
    | LoadNext
    | Release
    | Stop

  function Goto(s: State, p: Pid, pc: Pc): State {
    s.(procs := s.procs[p := pc])
  }

  function Drop(s: State, p: Pid): State {
    if s.guard == Some(p) then s.(guard := None) else s
  }

  predicate Bad(expected: Option<string>, verdict: Verdict) {
    || verdict.Raises?
    || (expected.Some? && verdict.Unbound?)
    || (expected.Some? && verdict.Bound? && (!verdict.manifest.V2? || verdict.manifest.commit != expected.value))
  }

  /** One atomic action of process p; None when it is not enabled. */
  function Do(remote: Remote, s: State, p: Pid, a: Action): Option<State> {
    if a.StartPublisher? then
      if p in s.procs then None else Some(Goto(s, p, Staged(a.commit)))
    else if a.StartReader? then
      if p in s.procs then None else Some(Goto(s, p, Wanting(a.expected)))
    else if p !in s.procs then None
    else
      DoStarted(remote, s, p, a)
  }

  function DoStarted(remote: Remote, s: State, p: Pid, a: Action): Option<State>
    requires p in s.procs && !a.StartPublisher? && !a.StartReader?
  {
    var d, pc := s.dir, s.procs[p];
    match a
    case Acquire =>
      if s.guard.Some? then None
      else if pc.Staged? then Some(Goto(s.(guard := Some(p)), p, Guarded(pc.commit)))
      else if pc.Wanting? then Some(Goto(s.(guard := Some(p)), p, Holding(pc.expected)))
      else None
    case WriteMarker =>
      if !pc.Guarded? then None
      else Some(Goto(s.(dir := d.(pending := true)), p, Replacing(pc.commit, 0)))
    case ReplaceNext =>
      if !pc.Replacing? then None
      else if pc.next < |ORDER| then
        var f := ORDER[pc.next];
        Some(Goto(s.(dir := d.(files := d.files[f := remote(pc.commit, f)])), p, Replacing(pc.commit, pc.next + 1)))
      else Some(Goto(s.(dir := d.(manifest := Some(ManifestOf(remote, pc.commit)))), p, Checking(pc.commit)))
    case Check =>
      if !pc.Checking? then None
      else Some(if Verify(d, true).Raises? then Goto(Drop(s, p), p, Stopped)
                else Goto(s, p, Unmarking(pc.commit)))
    case RemoveMarker =>
      if !pc.Unmarking? then None
      else Some(Goto(s.(dir := d.(pending := false)), p, Leaving(pc.commit)))
    case VerifyGuarded =>
      if !pc.Holding? then None
      else if Bad(pc.expected, Verify(d, false)) then Some(Goto(Drop(s, p), p, Stopped))
      else Some(Goto(s, p, Loading(pc.expected, Verify(d, false), d, map[], 0)))
    case LoadNext =>
      if !pc.Loading? || pc.next >= |SOURCES| then None
      else if SOURCES[pc.next] !in d.files then Some(Goto(Drop(s, p), p, Stopped))
      else
        var f := SOURCES[pc.next];
        Some(Goto(s, p, Loading(pc.expected, pc.verdict, pc.seen, pc.loaded[f := d.files[f]], pc.next + 1)))
    case Release =>
      if pc.Leaving? then Some(Goto(Drop(s, p), p, Published(pc.commit)))
      else if pc.Loading? && pc.next == |SOURCES| then
        Some(Goto(Drop(s, p), p, Loaded(pc.expected, pc.verdict, pc.loaded)))
      else None
    case Stop =>
      if pc.Published? || pc.Loaded? || pc.Stopped? then None
      else Some(Goto(Drop(s, p), p, Stopped))
    case StartPublisher(_) => None
    case StartReader(_) => None
  }

  ghost predicate Next(remote: Remote, s: State, s': State) {
    exists p, a :: Do(remote, s, p, a) == Some(s')
  }

  ghost predicate IsRun(remote: Remote, run: seq<State>) {
    && run != [] && run[0].procs == map[] && run[0].guard == None && !run[0].dir.pending
    && forall i | 0 <= i < |run| - 1 :: Next(remote, run[i], run[i + 1])
  }

  // ----- the invariant, relative to the directory d0 the run started from

  predicate Inside(pc: Pc) {
    pc.Guarded? || pc.Replacing? || pc.Checking? || pc.Unmarking? || pc.Leaving? || pc.Holding? || pc.Loading?
  }

  /** Whoever is inside the guard holds it. */
  ghost predicate Excluded(s: State) {
    forall p | p in s.procs && Inside(s.procs[p]) :: s.guard == Some(p)
  }

  /** Without the marker the directory is untouched or exactly one commit's export. */
  ghost predicate Sound(remote: Remote, d0: Dir, d: Dir) {
    d.pending || d == d0 || exists c :: Complete(remote, d, c)
  }

  ghost predicate Replaced(remote: Remote, d: Dir, commit: string, n: nat) {
    forall i | 0 <= i < n && i < |ORDER| :: ORDER[i] in d.files && d.files[ORDER[i]] == remote(commit, ORDER[i])
  }

  ghost predicate Progress(remote: Remote, d: Dir, pc: Pc) {
    match pc
    case Replacing(c, n) => d.pending && n <= |ORDER| && Replaced(remote, d, c, n)
    case Checking(c) => d.pending && Complete(remote, d, c)
    case Unmarking(c) => d.pending && Complete(remote, d, c)
    case Leaving(c) => !d.pending && Complete(remote, d, c)
    case Loading(expected, verdict, seen, loaded, n) =>
      && d == seen && verdict == Verify(seen, false) && !Bad(expected, verdict)
      && n <= |SOURCES|
      && forall i | 0 <= i < n ::
           SOURCES[i] in loaded && SOURCES[i] in seen.files && loaded[SOURCES[i]] == seen.files[SOURCES[i]]
    case _ => true
  }

  /** What a reader that got through has in hand. */
  ghost predicate Honest(remote: Remote, d0: Dir, pc: Pc) {
    pc.Loaded? ==>
      exists d: Dir ::
        && !d.pending && Sound(remote, d0, d)
        && pc.verdict == Verify(d, false) && !Bad(pc.expected, pc.verdict)
        && forall f | f in SOURCES :: f in pc.loaded && f in d.files && pc.loaded[f] == d.files[f]
  }

  ghost predicate Inv(remote: Remote, d0: Dir, s: State) {
    && Excluded(s)
    && Sound(remote, d0, s.dir)
    && (forall p | p in s.procs :: Progress(remote, s.dir, s.procs[p]))
    && forall p | p in s.procs :: Honest(remote, d0, s.procs[p])
  }

  lemma OthersStay(remote: Remote, s: State, p: Pid, a: Action, s': State)
    requires Do(remote, s, p, a) == Some(s')
    ensures p in s'.procs && s'.procs.Keys == s.procs.Keys + {p}
    ensures forall q | q in s'.procs && q != p :: q in s.procs && s'.procs[q] == s.procs[q]
    ensures s'.dir != s.dir ==> p in s.procs && Inside(s.procs[p]) && !s.procs[p].Loading?
    ensures forall q | q != p :: s'.guard == Some(q) <==> s.guard == Some(q)
  {
  }

  lemma ExcludedKept(remote: Remote, s: State, p: Pid, a: Action, s': State)
    requires Excluded(s) && Do(remote, s, p, a) == Some(s')
    ensures Excluded(s')
  {
  }

  lemma ReplacedAll(remote: Remote, d: Dir, commit: string)
    requires Replaced(remote, d, commit, |ORDER|)
    ensures Complete(remote, d.(manifest := Some(ManifestOf(remote, commit))), commit)
  {
    forall f: File ensures f in d.files && d.files[f] == remote(commit, f) {
      AllFilesOrdered(f);
      var i :| 0 <= i < |ORDER| && ORDER[i] == f;
    }
  }

  lemma ReplaceProgress(remote: Remote, d0: Dir, s: State, p: Pid, s': State)
    requires Inv(remote, d0, s) && Do(remote, s, p, ReplaceNext) == Some(s')
    ensures Progress(remote, s'.dir, s'.procs[p])
  {
    var pc := s.procs[p];
    assert Progress(remote, s.dir, pc);
    if pc.next == |ORDER| {
      ReplacedAll(remote, s.dir, pc.commit);
    }
  }

  lemma LoadProgress(remote: Remote, d0: Dir, s: State, p: Pid, s': State)
    requires Inv(remote, d0, s) && Do(remote, s, p, LoadNext) == Some(s')
    ensures Progress(remote, s'.dir, s'.procs[p])
  {
    assert Progress(remote, s.dir, s.procs[p]);
  }

  lemma OwnProgress(remote: Remote, d0: Dir, s: State, p: Pid, a: Action, s': State)
    requires Inv(remote, d0, s) && Do(remote, s, p, a) == Some(s')
    ensures Progress(remote, s'.dir, s'.procs[p])
  {
    if a.ReplaceNext? {
      ReplaceProgress(remote, d0, s, p, s');
    } else if a.LoadNext? {
      LoadProgress(remote, d0, s, p, s');
    } else if p in s.procs {
      assert Progress(remote, s.dir, s.procs[p]);
    }
  }

  lemma SoundKept(remote: Remote, d0: Dir, s: State, p: Pid, a: Action, s': State)
    requires Inv(remote, d0, s) && Do(remote, s, p, a) == Some(s')
    ensures Sound(remote, d0, s'.dir)
  {
    if p in s.procs {
      assert Progress(remote, s.dir, s.procs[p]);
      if a.RemoveMarker? {
        assert Complete(remote, s'.dir, s.procs[p].commit);
      }
    }
  }

  lemma OthersProgress(remote: Remote, d0: Dir, s: State, p: Pid, a: Action, s': State, q: Pid)
    requires Inv(remote, d0, s) && Do(remote, s, p, a) == Some(s')
    requires q in s'.procs && q != p
    ensures Progress(remote, s'.dir, s'.procs[q])
  {
    OthersStay(remote, s, p, a, s');
    assert Progress(remote, s.dir, s.procs[q]);
    if Inside(s.procs[q]) {
      assert s.guard == Some(q);
      assert s'.dir == s.dir;
    }
  }

  lemma OwnHonest(remote: Remote, d0: Dir, s: State, p: Pid, a: Action, s': State)
    requires Inv(remote, d0, s) && Do(remote, s, p, a) == Some(s')
    ensures Honest(remote, d0, s'.procs[p])
  {
    if p in s.procs && s'.procs[p].Loaded? {
      assert Progress(remote, s.dir, s.procs[p]);
      var pc, d := s.procs[p], s.dir;
      forall f | f in SOURCES ensures f in pc.loaded && f in d.files && pc.loaded[f] == d.files[f] {
        var i :| 0 <= i < |SOURCES| && SOURCES[i] == f;
      }
    }
  }

  lemma NextInv(remote: Remote, d0: Dir, s: State, s': State)
    requires Inv(remote, d0, s) && Next(remote, s, s')
    ensures Inv(remote, d0, s')
  {
    var p, a :| Do(remote, s, p, a) == Some(s');
    OthersStay(remote, s, p, a, s');
    ExcludedKept(remote, s, p, a, s');
    SoundKept(remote, d0, s, p, a, s');
    forall q | q in s'.procs ensures Progress(remote, s'.dir, s'.procs[q]) {
      if q == p { OwnProgress(remote, d0, s, p, a, s'); } else { OthersProgress(remote, d0, s, p, a, s', q); }
    }
    forall q | q in s'.procs ensures Honest(remote, d0, s'.procs[q]) {
      if q == p { OwnHonest(remote, d0, s, p, a, s'); } else { assert Honest(remote, d0, s.procs[q]); }
    }
  }

  lemma {:induction false} RunInv(remote: Remote, run: seq<State>, i: nat)
    requires IsRun(remote, run) && i < |run|
    ensures Inv(remote, run[0].dir, run[i])
  {
    if i > 0 {
      RunInv(remote, run, i - 1);
      NextInv(remote, run[0].dir, run[i - 1], run[i]);
    }
  }

  // ----- what guarded readers get, over every run

  /** The directory a run starts from, as far as readers are concerned: unbound legacy input, or
      an earlier complete publication. */
  ghost predicate StartsClean(remote: Remote, d0: Dir) {
    || d0.manifest == None || d0.manifest == Some(Old)
    || exists c :: Complete(remote, d0, c)
  }

  /** Whenever the marker is absent, the directory is what the run started from or all of its files
      are one commit's export with its manifest. */
  lemma NeverMixed(remote: Remote, run: seq<State>, i: nat)
    requires IsRun(remote, run) && i < |run| && !run[i].dir.pending
    ensures run[i].dir == run[0].dir || exists c :: Complete(remote, run[i].dir, c)
  {
    RunInv(remote, run, i);
  }

  /** A guarded verification never authorises mixed bytes: unbound means untouched legacy input, and
      a manifest means that every file is that commit's export. */
  lemma VerifyIsHonest(remote: Remote, run: seq<State>, i: nat)
    requires IsRun(remote, run) && i < |run| && StartsClean(remote, run[0].dir)
    ensures Verify(run[i].dir, false).Unbound? ==> run[i].dir == run[0].dir
    ensures Verify(run[i].dir, false).Bound? ==>
              var m := Verify(run[i].dir, false).manifest;
              m.V2? && Complete(remote, run[i].dir, m.commit)
  {
    RunInv(remote, run, i);
    var d := run[i].dir;
    if !d.pending {
      NeverMixed(remote, run, i);
      if c :| Complete(remote, d, c) {
        CompleteVerifies(remote, d, c);
      }
    }
  }

  ghost predicate LoadedFrom(remote: Remote, loaded: map<File, string>, commit: string) {
    forall f: File | f != Version :: f in loaded && loaded[f] == remote(commit, f)
  }

  lemma SourcesNamed(f: File)
    requires f != Version
    ensures f in SOURCES
  {
    assert SOURCES[0] == BaseItems && SOURCES[1] == SkillGems && SOURCES[2] == Skills;
    assert SOURCES[3] == Ascendancies && SOURCES[4] == Mods;
  }

  /** build(expected_commit=c) loads only bytes of commit c, whatever runs beside it. */
  lemma BuildLoadsExpected(remote: Remote, run: seq<State>, i: nat, p: Pid)
    requires IsRun(remote, run) && i < |run| && StartsClean(remote, run[0].dir)
    requires p in run[i].procs && run[i].procs[p].Loaded? && run[i].procs[p].expected.Some?
    ensures var pc := run[i].procs[p];
            LoadedFrom(remote, pc.loaded, pc.expected.value)
  {
    RunInv(remote, run, i);
    var pc, d0 := run[i].procs[p], run[0].dir;
    assert Honest(remote, d0, pc);
    var d: Dir :| !d.pending && Sound(remote, d0, d)
                  && pc.verdict == Verify(d, false) && !Bad(pc.expected, pc.verdict)
                  && forall f | f in SOURCES :: f in pc.loaded && f in d.files && pc.loaded[f] == d.files[f];
    var c :| Complete(remote, d, c);
    CompleteVerifies(remote, d, c);
    forall f: File | f != Version ensures f in pc.loaded && pc.loaded[f] == remote(pc.expected.value, f) {
      SourcesNamed(f);
    }
  }

  /** Without an expected commit a build loads the untouched input or one commit's export. */
  lemma BuildLoadsOneExport(remote: Remote, run: seq<State>, i: nat, p: Pid)
    requires IsRun(remote, run) && i < |run|
    requires p in run[i].procs && run[i].procs[p].Loaded?
    ensures var pc, d0 := run[i].procs[p], run[0].dir;
            || (forall f: File | f != Version :: f in pc.loaded && f in d0.files && pc.loaded[f] == d0.files[f])
            || exists c :: LoadedFrom(remote, pc.loaded, c)
  {
    RunInv(remote, run, i);
    var pc, d0 := run[i].procs[p], run[0].dir;
    assert Honest(remote, d0, pc);
    var d: Dir :| !d.pending && Sound(remote, d0, d)
                  && pc.verdict == Verify(d, false) && !Bad(pc.expected, pc.verdict)
                  && forall f | f in SOURCES :: f in pc.loaded && f in d.files && pc.loaded[f] == d.files[f];
    forall f: File | f != Version ensures f in pc.loaded && f in d.files && pc.loaded[f] == d.files[f] {
      SourcesNamed(f);
    }
    if d != d0 {
      var c :| Complete(remote, d, c);
      assert LoadedFrom(remote, pc.loaded, c);
    }
  }

  /** A publisher inside the guard always passes its own check. */
  lemma OwnCheckPasses(remote: Remote, run: seq<State>, i: nat, p: Pid)
    requires IsRun(remote, run) && i < |run|
    requires p in run[i].procs && run[i].procs[p].Checking?
    ensures Verify(run[i].dir, true) == Bound(ManifestOf(remote, run[i].procs[p].commit))
  {
    RunInv(remote, run, i);
    assert Progress(remote, run[i].dir, run[i].procs[p]);
    CompleteVerifies(remote, run[i].dir, run[i].procs[p].commit);
  }

  // ----- verification and loading, written out

  predicate Legacy(d: Dir) {
    d.manifest == None || d.manifest == Some(Old)
  }

  /** The manifest is of schema 2 and records the bytes of every file, the five sources and the
      version file. */
  ghost predicate Recorded(d: Dir) {
    && d.manifest.Some? && d.manifest.value.V2?
    && forall f: File ::
         f in d.files && f in d.manifest.value.recorded && d.manifest.value.recorded[f] == d.files[f]
  }

  ghost predicate VerdictWritten(d: Dir, publishing: bool, verdict: Verdict) {
    && (verdict == Unbound <==> (publishing || !d.pending) && Legacy(d))
    && (verdict.Bound? <==> (publishing || !d.pending) && Recorded(d))
    && (verdict.Bound? ==> d.manifest == Some(verdict.manifest))
  }

  lemma VerdictIsWritten(d: Dir, publishing: bool)
    ensures VerdictWritten(d, publishing, Verify(d, publishing))
  {
    if d.manifest.Some? && d.manifest.value.V2? {
      assert Matches(d, d.manifest.value) <==> Recorded(d) by {
        forall f: File ensures f in ORDER {
          AllFilesOrdered(f);
        }
      }
    }
  }

  /** What a build may load: legacy input only when no commit is expected, an export only when it is
      whole and, if one is expected, that commit's. */
  ghost predicate Authorised(d: Dir, expected: Option<string>) {
    && !d.pending
    && if expected.None? then Legacy(d) || Recorded(d)
       else Recorded(d) && d.manifest.value.commit == expected.value
  }

  ghost predicate HasSources(files: map<File, string>) {
    BaseItems in files && SkillGems in files && Skills in files && Ascendancies in files && Mods in files
  }

  /** The five source files of a directory and nothing else. */
  ghost predicate SourcesOf(loaded: map<File, string>, files: map<File, string>) {
    && HasSources(loaded) && Version !in loaded
    && forall f | f in loaded :: f in files && loaded[f] == files[f]
  }

  lemma AuthorisedIff(d: Dir, expected: Option<string>)
    ensures Authorised(d, expected) <==> !Bad(expected, Verify(d, false))
  {
    VerdictIsWritten(d, false);
  }

  lemma HasSourcesIff(files: map<File, string>)
    ensures HasSources(files) <==> forall f | f in SOURCES :: f in files
  {
    assert SOURCES[0] == BaseItems && SOURCES[1] == SkillGems && SOURCES[2] == Skills;
    assert SOURCES[3] == Ascendancies && SOURCES[4] == Mods;
  }

  /** Something is asked for that the directory as it is does not give. */
  predicate NeedsFetch(d: Dir, refresh: bool, expected: Option<string>) {
    refresh || (exists f :: f in SOURCES && f !in d.files) || (expected.Some? && Bad(expected, Verify(d, false)))
  }

  /** Asked for, or a source is missing, or the directory is not the expected commit's export. */
  ghost predicate MustFetch(d: Dir, refresh: bool, expected: Option<string>) {
    refresh || !HasSources(d.files) || (expected.Some? && !Authorised(d, expected))
  }

  lemma MustFetchIff(d: Dir, refresh: bool, expected: Option<string>)
    ensures NeedsFetch(d, refresh, expected) <==> MustFetch(d, refresh, expected)
  {
    AuthorisedIff(d, expected);
    HasSourcesIff(d.files);
  }

  /** The whole export of a commit, file by file, under its manifest. */
  ghost predicate Exported(remote: Remote, d: Dir, commit: string) {
    && !d.pending && Recorded(d) && d.manifest.value.commit == commit
    && forall f: File | f in d.files :: d.files[f] == remote(commit, f)
  }

  lemma CompleteIsExported(remote: Remote, d: Dir, commit: string)
    requires Complete(remote, d, commit) && !d.pending
    ensures Exported(remote, d, commit)
  {
    forall f: File ensures f in ORDER {
      AllFilesOrdered(f);
    }
  }

  /** A sound directory that may be loaded as the expected commit is that commit's export. */
  lemma AuthorisedIsComplete(remote: Remote, d0: Dir, before: Dir, d: Dir, expected: string)
    requires StartsClean(remote, d0) && Sound(remote, d0, before) && Sound(remote, before, d)
    requires Authorised(d, Some(expected))
    ensures Complete(remote, d, expected)
  {
    var c :| Complete(remote, d, c);
    assert d.manifest.value.commit == c;
  }

  lemma LoadedIsCommit(remote: Remote, d: Dir, commit: string, loaded: map<File, string>)
    requires Complete(remote, d, commit) && SourcesOf(loaded, d.files)
    ensures LoadedFrom(remote, loaded, commit)
  {
  }

  // ----- the calls themselves, one at a time

  class RawDirectory {
    var pending: bool
    var files: map<File, string>
    var manifest: Option<Manifest>

    ghost function Now(): Dir
      reads this
    {
      Dir(pending, files, manifest)
    }

    /** fetch_snapshot.  staged tells whether the whole export could be staged and checked; stopAt,
        if any, is the number of file operations after which publication is interrupted. */
    method FetchSnapshot(remote: Remote, commit: string, staged: bool, stopAt: Option<nat>) returns (done: bool)
      modifies this
      ensures done <==> staged && (stopAt.Some? ==> stopAt.value > 8)
      ensures done ==> Complete(remote, Now(), commit) && Exported(remote, Now(), commit)
      ensures !staged || stopAt == Some(0) ==> Now() == old(Now())
      ensures staged && stopAt.Some? && 0 < stopAt.value <= 8 ==> pending
    {
      if !staged || stopAt == Some(0) {
        return false;
      }
      pending := true;
      var i := 0;
      while i < |ORDER|
        invariant 0 <= i <= |ORDER| && pending
        invariant stopAt.Some? ==> i + 1 <= stopAt.value
        invariant Replaced(remote, Now(), commit, i)
      {
        if stopAt == Some(i + 1) {
          return false;
        }
        var f := ORDER[i];
        files := files[f := remote(commit, f)];
        i := i + 1;
      }
      if stopAt == Some(|ORDER| + 1) {
        return false;
      }
      ReplacedAll(remote, Now(), commit);
      manifest := Some(ManifestOf(remote, commit));
      CompleteVerifies(remote, Now(), commit);
      var verdict := Verify(Dir(pending, files, manifest), true);
      if verdict.Raises? || stopAt == Some(|ORDER| + 2) {
        return false;
      }
      pending := false;
      CompleteIsExported(remote, Now(), commit);
      return true;
    }

    /** fetch_all up to the wiki part: refetch unless the directory already verifies as expected. */
    method FetchAll(remote: Remote, head: string, refresh: bool, expected: Option<string>, staged: bool,
                    stopAt: Option<nat>)
      returns (ok: bool)
      modifies this
      ensures !MustFetch(old(Now()), refresh, expected) ==>
                Now() == old(Now()) && (ok <==> Authorised(Now(), None))
      ensures MustFetch(old(Now()), refresh, expected) ==>
                && (ok <==> staged && (stopAt.Some? ==> stopAt.value > 8))
                && (ok ==> Exported(remote, Now(), if expected.Some? then expected.value else head))
      ensures ok ==> Authorised(Now(), expected) && HasSources(files)
      ensures expected.Some? && staged && stopAt == None ==> ok
      ensures Sound(remote, old(Now()), Now())
    {
      MustFetchIff(Now(), refresh, expected);
      AuthorisedIff(Now(), None);
      AuthorisedIff(Now(), expected);
      var missing := exists f | f in SOURCES :: f !in files;
      var needsFetch := refresh || missing;
      var verdict := Verify(Dir(pending, files, manifest), false);
      if expected.Some? && !needsFetch {
        needsFetch := Bad(expected, verdict);
      }
      if needsFetch {
        var commit := if expected.Some? then expected.value else head;
        ok := FetchSnapshot(remote, commit, staged, stopAt);
        if ok {
          CompleteVerifies(remote, Now(), commit);
        }
      } else {
        ok := !verdict.Raises?;
      }
    }

    /** The guarded prefix of build; None is the ValueError (or the missing file) it stops with. */
    method Build(expected: Option<string>) returns (loaded: Option<map<File, string>>)
      ensures loaded.Some? <==> Authorised(Now(), expected) && HasSources(files)
      ensures loaded.Some? ==> SourcesOf(loaded.value, files)
    {
      AuthorisedIff(Now(), expected);
      HasSourcesIff(files);
      var verdict := Verify(Dir(pending, files, manifest), false);
      if Bad(expected, verdict) {
        return None;
      }
      var data: map<File, string> := map[];
      for i := 0 to |SOURCES|
        invariant forall j | 0 <= j < i ::
                    SOURCES[j] in files && SOURCES[j] in data && data[SOURCES[j]] == files[SOURCES[j]]
        invariant forall f | f in data :: f in SOURCES && f in files && data[f] == files[f]
      {
        var f := SOURCES[i];
        if f !in files {
          assert f in SOURCES;
          return None;
        }
        data := data[f := files[f]];
      }
      HasSourcesIff(data);
      return Some(data);
    }

    /** A successful fetch of the expected commit, over any sound directory, is what build loads. */
    method FetchThenBuild(remote: Remote, head: string, refresh: bool, expected: string, stopAt: Option<nat>)
      returns (loaded: Option<map<File, string>>)
      requires exists d0 :: StartsClean(remote, d0) && Sound(remote, d0, Now())
      modifies this
      ensures loaded.Some? ==> LoadedFrom(remote, loaded.value, expected)
      ensures stopAt == None ==> loaded.Some?
    {
      ghost var d0 :| StartsClean(remote, d0) && Sound(remote, d0, Now());
      ghost var before := Now();
      var ok := FetchAll(remote, head, refresh, Some(expected), true, stopAt);
      if !ok {
        return None;
      }
      AuthorisedIsComplete(remote, d0, before, Now(), expected);
      loaded := Build(Some(expected));
      LoadedIsCommit(remote, Now(), expected, loaded.value);
    }
  }
}
