/**
 What any sequence of installs, uninstalls, user edits and crashes can do to the host
 configuration files and to the receipts.
 */
module HostRuns {
  import opened HostConfig

  /** A value under a name of a container of a file, by its digest. */
  datatype Mark = Mark(path: Path, key: Key, name: Name, digest: Digest)

  /** written collects what the installer has put into configuration files so far. */
  datatype World = World(disk: Disk, written: set<Mark>)

  datatype Action =
    | Install(host: Host, path: Path, want: map<Name, Value>, dryRun: bool, cut: Cut)
    | Uninstall(host: Host, path: Path, dryRun: bool, cut: Cut)
    | Edit(path: Path, file: Option<File>)   // the user rewrites or removes a configuration file
    | LoseReceipts

  predicate Allowed(a: Action) {
    a.Install? ==> IsWant(a.want)
  }

  function Marks(d: Disk, host: Host, path: Path, want: map<Name, Value>): set<Mark> {
    var config := Load(d.configs, path);
    if config.None? then {}
    else set n | n in Changed(Box(config.value, host), want) ::
           Mark(path, ContainerKey(host), n, DigestOf(Look(want, n)))
  }

  function Step(w: World, a: Action): World
    requires Allowed(a)
  {
    match a
    case Install(host, path, want, dryRun, cut) =>
      if dryRun || InstallStatus(w.disk, host, path, want, false) != Configured then w
      else World(InstallDisk(w.disk, host, path, want, cut),
                 if cut == AfterBackup then w.written else w.written + Marks(w.disk, host, path, want))
    case Uninstall(host, path, dryRun, cut) =>
      if dryRun || RemovalStatus(w.disk, host, path, false) != Removed then w
      else w.(disk := RemovalDisk(w.disk, host, path, cut))
    case Edit(path, file) =>
      w.(disk := w.disk.(configs := if file.None? then w.disk.configs - {path}
                                    else w.disk.configs[path := file.value]))
    case LoseReceipts => w.(disk := w.disk.(state := NoState))
  }

  ghost predicate IsRun(run: seq<World>, acts: seq<Action>) {
    && |run| == |acts| + 1
    && forall i | 0 <= i < |acts| :: Allowed(acts[i]) && run[i + 1] == Step(run[i], acts[i])
  }

  /** The value under a name in one object of a file's top level. */
  function At(members: map<Key, Member>, key: Key, n: Name): Value {
    if key in members && members[key].Object? then Look(members[key].entries, n) else Null
  }

  function Entry(d: Disk, path: Path, key: Key, n: Name): Value {
    if path !in d.configs || d.configs[path].Malformed? then Null
    else At(d.configs[path].members, key, n)
  }

  predicate Matches(r: Receipt, m: Mark) {
    r.path == m.path && r.digest == m.digest
  }

  const HOSTS: set<Host> := {Claude, Cursor, Opencode}

  /** The receipt of one of these hosts says that the value is the installer's. */
  ghost predicate Receipted(hosts: map<Host, HostState>, who: set<Host>, m: Mark) {
    exists h :: h in who && h in hosts && ContainerKey(h) == m.key && HostHas(hosts[h], m)
  }

  predicate HostHas(s: HostState, m: Mark) {
    || (m.name in s.servers && s.servers[m.name].managed && Matches(s.servers[m.name], m))
    || (m.name == LegacyBuild && s.legacy.Some? && Matches(s.legacy.value, m))
  }

  ghost predicate Inv(w: World) {
    forall m :: Receipted(Hosts(w.disk.state), HOSTS, m) ==> m in w.written
  }

  /** A receipt after an install is an old one or speaks of a value the install wrote. */
  lemma InstalledReceipt(w: World, a: Action, h: Host, m: Mark)
    requires a.Install? && Allowed(a) && InstallStatus(w.disk, a.host, a.path, a.want, false) == Configured
    requires ContainerKey(h) == m.key
    ensures var hosts := Hosts(w.disk.state);
            var after := InstalledHosts(Load(w.disk.configs, a.path).value, hosts, a.host, a.path, a.want);
            h in after && HostHas(after[h], m) ==>
              m in Marks(w.disk, a.host, a.path, a.want) || (h in hosts && HostHas(hosts[h], m))
  {
    var box := Box(Load(w.disk.configs, a.path).value, a.host);
    if h == a.host && m.name in Changed(box, a.want) {
      assert Mark(a.path, ContainerKey(h), m.name, DigestOf(Look(a.want, m.name)))
             in Marks(w.disk, h, a.path, a.want);
    }
  }

  lemma InstallInv(w: World, a: Action)
    requires Inv(w) && a.Install? && Allowed(a)
    ensures Inv(Step(w, a))
  {
    var w' := Step(w, a);
    if w'.disk.state != w.disk.state {
      var hosts, after := Hosts(w.disk.state), Hosts(w'.disk.state);
      forall m | Receipted(after, HOSTS, m) ensures m in w'.written {
        var h :| h in HOSTS && h in after && ContainerKey(h) == m.key && HostHas(after[h], m);
        InstalledReceipt(w, a, h, m);
        assert h in hosts && HostHas(hosts[h], m) ==> Receipted(hosts, HOSTS, m);
      }
    }
  }

  lemma UninstallInv(w: World, a: Action)
    requires Inv(w) && a.Uninstall?
    ensures Inv(Step(w, a))
  {
    var w' := Step(w, a);
    if w'.disk.state != w.disk.state {
      var hosts, after := Hosts(w.disk.state), Hosts(w'.disk.state);
      forall m | Receipted(after, HOSTS, m) ensures m in w'.written {
        var h :| h in after && ContainerKey(h) == m.key && HostHas(after[h], m);
        assert h in hosts && HostHas(hosts[h], m);
        assert Receipted(hosts, HOSTS, m);
      }
    }
  }

  /** A receipt only ever speaks of a value the installer wrote itself. */
  lemma StepInv(w: World, a: Action)
    requires Inv(w) && Allowed(a)
    ensures Inv(Step(w, a))
  {
    if a.Install? {
      InstallInv(w, a);
    } else if a.Uninstall? {
      UninstallInv(w, a);
    } else if a.LoseReceipts? {
      assert Hosts(NoState) == map[];
    }
  }

  lemma InstalledBox(config: map<Key, Member>, hosts: map<Host, HostState>, host: Host, path: Path,
                     want: map<Name, Value>)
    ensures BoxOk(InstalledConfig(config, hosts, host, path, want), host)
    ensures Box(InstalledConfig(config, hosts, host, path, want), host)
            == Swept(Box(config, host), hosts, host, path) + want
  {
  }

  lemma RemovedBox(config: map<Key, Member>, host: Host)
    ensures Box(RemovedConfig(config, host), host) == Box(config, host) - Present(Box(config, host))
  {
  }

  /** What an install that goes through does to any one entry of the container. */
  lemma InstalledEntry(d: Disk, host: Host, path: Path, want: map<Name, Value>, cut: Cut, n: Name)
    requires InstallStatus(d, host, path, want, false) == Configured
    ensures var box, hosts := Box(Load(d.configs, path).value, host), Hosts(d.state);
            Entry(InstallDisk(d, host, path, want, cut), path, ContainerKey(host), n)
            == if cut == AfterBackup then Look(box, n)
               else if n in want then want[n]
               else if n == LegacyBuild && LegacyOwned(box, hosts, host, path) then Null
               else Look(box, n)
  {
    InstalledBox(Load(d.configs, path).value, Hosts(d.state), host, path, want);
  }

  /** What an uninstall that goes through does to any one entry. */
  lemma RemovedEntry(d: Disk, host: Host, path: Path, cut: Cut, n: Name)
    requires RemovalStatus(d, host, path, false) == Removed
    ensures var box := Box(Load(d.configs, path).value, host);
            Entry(RemovalDisk(d, host, path, cut), path, ContainerKey(host), n)
            == if cut != AfterBackup && n in Present(box) then Null else Look(box, n)
  {
    var config := Load(d.configs, path).value;
    var box := Box(config, host);
    RemovedBox(config, host);
    assert path in d.configs;
    assert Look(box - Present(box), n) == if n in Present(box) then Null else Look(box, n);
    if cut != AfterBackup {
      assert Entry(RemovalDisk(d, host, path, cut), path, ContainerKey(host), n)
             == Look(Box(RemovedConfig(config, host), host), n);
    }
  }

  /** No receipt for what is under this name. */
  predicate Unowned(box: map<Name, Value>, hosts: map<Host, HostState>, host: Host, path: Path, n: Name) {
    && Look(box, n) != Null
    && !Covers(hosts, host, path, n, Look(box, n))
    && (n == LegacyBuild ==> !LegacyOwned(box, hosts, host, path))
  }

  lemma InstallKeepsUnowned(d: Disk, host: Host, path: Path, want: map<Name, Value>, cut: Cut, n: Name)
    requires IsWant(want) && InstallStatus(d, host, path, want, false) == Configured
    requires Unowned(Box(Load(d.configs, path).value, host), Hosts(d.state), host, path, n)
    ensures Entry(InstallDisk(d, host, path, want, cut), path, ContainerKey(host), n)
            == Look(Box(Load(d.configs, path).value, host), n)
  {
    var config, hosts := Load(d.configs, path).value, Hosts(d.state);
    var box := Box(config, host);
    assert n in want ==> !Foreign(box, hosts, host, path, want, n);
    InstalledEntry(d, host, path, want, cut, n);
  }

  lemma UninstallKeepsUnowned(d: Disk, host: Host, path: Path, cut: Cut, n: Name)
    requires RemovalStatus(d, host, path, false) == Removed
    requires Unowned(Box(Load(d.configs, path).value, host), Hosts(d.state), host, path, n)
    ensures Entry(RemovalDisk(d, host, path, cut), path, ContainerKey(host), n)
            == Look(Box(Load(d.configs, path).value, host), n)
  {
    var config, hosts := Load(d.configs, path).value, Hosts(d.state);
    var box := Box(config, host);
    assert n in NAMES ==> !NotOurs(box, Servers(hosts, host), path, n);
    assert n in Managed(box) ==> n in NAMES by {
      assert NAMES[0] == Knowledge && NAMES[1] == Build && NAMES[2] == Research && NAMES[3] == Learning;
    }
    RemovedEntry(d, host, path, cut, n);
  }

  lemma OtherKeys(config: map<Key, Member>, hosts: map<Host, HostState>, host: Host, path: Path,
                  want: map<Name, Value>, key: Key, n: Name)
    requires key != ContainerKey(host)
    ensures At(InstalledConfig(config, hosts, host, path, want), key, n) == At(config, key, n)
    ensures At(RemovedConfig(config, host), key, n) == At(config, key, n)
  {
  }

  lemma InstallElsewhere(d: Disk, host: Host, file: Path, want: map<Name, Value>, cut: Cut, path: Path, key: Key,
                         n: Name)
    requires InstallStatus(d, host, file, want, false) == Configured && (path != file || key != ContainerKey(host))
    ensures Entry(InstallDisk(d, host, file, want, cut), path, key, n) == Entry(d, path, key, n)
  {
    if path == file {
      OtherKeys(Load(d.configs, path).value, Hosts(d.state), host, path, want, key, n);
      assert At(Load(d.configs, path).value, key, n) == Entry(d, path, key, n);
    }
  }

  lemma UninstallElsewhere(d: Disk, host: Host, file: Path, cut: Cut, path: Path, key: Key, n: Name)
    requires RemovalStatus(d, host, file, false) == Removed && (path != file || key != ContainerKey(host))
    ensures Entry(RemovalDisk(d, host, file, cut), path, key, n) == Entry(d, path, key, n)
  {
    if path == file {
      OtherKeys(Load(d.configs, path).value, Hosts(d.state), host, path, map[], key, n);
      assert At(Load(d.configs, path).value, key, n) == Entry(d, path, key, n);
    }
  }

  lemma EntryElsewhere(w: World, a: Action, path: Path, key: Key, n: Name)
    requires Allowed(a) && !(a.Edit? && a.path == path)
    requires (a.Install? || a.Uninstall?) ==>
               path != a.path || key != ContainerKey(a.host) || Step(w, a).disk == w.disk
    ensures Entry(Step(w, a).disk, path, key, n) == Entry(w.disk, path, key, n)
  {
    if a.Install? && Step(w, a).disk != w.disk {
      InstallElsewhere(w.disk, a.host, a.path, a.want, a.cut, path, key, n);
    } else if a.Uninstall? && Step(w, a).disk != w.disk {
      UninstallElsewhere(w.disk, a.host, a.path, a.cut, path, key, n);
    }
  }

  /** The step is a call for one of these hosts, when it is one on this file and container at all. */
  predicate Acting(a: Action, who: set<Host>, path: Path, key: Key) {
    (a.Install? || a.Uninstall?) && a.path == path && ContainerKey(a.host) == key ==> a.host in who
  }

  lemma UnownedWithout(d: Disk, host: Host, who: set<Host>, path: Path, n: Name)
    requires host in who && Load(d.configs, path).Some? && Entry(d, path, ContainerKey(host), n) != Null
    requires !Receipted(Hosts(d.state), who,
                        Mark(path, ContainerKey(host), n, DigestOf(Entry(d, path, ContainerKey(host), n))))
    ensures Look(Box(Load(d.configs, path).value, host), n) == Entry(d, path, ContainerKey(host), n)
    ensures Unowned(Box(Load(d.configs, path).value, host), Hosts(d.state), host, path, n)
  {
    var m := Mark(path, ContainerKey(host), n, DigestOf(Entry(d, path, ContainerKey(host), n)));
    assert host in Hosts(d.state) ==> !HostHas(Hosts(d.state)[host], m);
  }

  /** No step of the installer, for whichever host, alters an entry that its receipts do not name:
      whether the user wrote it, or the installer did and the receipt was lost or never written. */
  lemma UnreceiptedKept(w: World, a: Action, who: set<Host>, path: Path, key: Key, n: Name)
    requires Allowed(a) && !(a.Edit? && a.path == path) && Acting(a, who, path, key)
    requires Entry(w.disk, path, key, n) != Null
    requires !Receipted(Hosts(w.disk.state), who, Mark(path, key, n, DigestOf(Entry(w.disk, path, key, n))))
    ensures Entry(Step(w, a).disk, path, key, n) == Entry(w.disk, path, key, n)
  {
    if (a.Install? || a.Uninstall?) && path == a.path && key == ContainerKey(a.host) && Step(w, a).disk != w.disk {
      UnownedWithout(w.disk, a.host, who, path, n);
      if a.Install? {
        InstallKeepsUnowned(w.disk, a.host, path, a.want, a.cut, n);
      } else {
        UninstallKeepsUnowned(w.disk, a.host, path, a.cut, n);
      }
    } else {
      EntryElsewhere(w, a, path, key, n);
    }
  }

  /** And no install writes a receipt for a value that is already there. */
  lemma InstallAddsNone(d: Disk, a: Action, path: Path, key: Key, n: Name, h: Host)
    requires a.Install? && Allowed(a) && InstallStatus(d, a.host, a.path, a.want, false) == Configured
    requires Entry(d, path, key, n) != Null && ContainerKey(h) == key
    ensures var m, after := Mark(path, key, n, DigestOf(Entry(d, path, key, n))),
                            InstalledHosts(Load(d.configs, a.path).value, Hosts(d.state), a.host, a.path, a.want);
            h in after && HostHas(after[h], m) ==> h in Hosts(d.state) && HostHas(Hosts(d.state)[h], m)
  {
    if h == a.host && path == a.path {
      var box := Box(Load(d.configs, path).value, h);
      assert Look(box, n) == Entry(d, path, key, n);
      assert n in Changed(box, a.want) ==> DigestOf(a.want[n]) != DigestOf(Look(box, n));
    }
  }

  lemma StepAddsNone(w: World, a: Action, path: Path, key: Key, n: Name, h: Host)
    requires Allowed(a) && Entry(w.disk, path, key, n) != Null && ContainerKey(h) == key
    ensures var m, hosts, after := Mark(path, key, n, DigestOf(Entry(w.disk, path, key, n))),
                                   Hosts(w.disk.state), Hosts(Step(w, a).disk.state);
            h in after && HostHas(after[h], m) ==> h in hosts && HostHas(hosts[h], m)
  {
    if a.Install? && Step(w, a).disk.state != w.disk.state {
      InstallAddsNone(w.disk, a, path, key, n, h);
    }
  }

  lemma NoReceiptTurnsUp(w: World, a: Action, who: set<Host>, path: Path, key: Key, n: Name)
    requires Allowed(a) && Entry(w.disk, path, key, n) != Null
    requires !Receipted(Hosts(w.disk.state), who, Mark(path, key, n, DigestOf(Entry(w.disk, path, key, n))))
    ensures !Receipted(Hosts(Step(w, a).disk.state), who, Mark(path, key, n, DigestOf(Entry(w.disk, path, key, n))))
  {
    forall h | h in who && ContainerKey(h) == key
      ensures var m, after := Mark(path, key, n, DigestOf(Entry(w.disk, path, key, n))), Hosts(Step(w, a).disk.state);
              !(h in after && HostHas(after[h], m))
    {
      StepAddsNone(w, a, path, key, n, h);
    }
  }

  /** Over every sequence of installs, uninstalls, crashes and edits elsewhere, an entry for which no
      host that is acted for has a receipt stays as it is, until the user edits its file. */
  lemma {:induction false} UnreceiptedStands(run: seq<World>, acts: seq<Action>, i: nat, j: nat, who: set<Host>,
                                             path: Path, key: Key, n: Name)
    requires IsRun(run, acts) && i <= j < |run| && Entry(run[i].disk, path, key, n) != Null
    requires forall k | i <= k < j :: !(acts[k].Edit? && acts[k].path == path) && Acting(acts[k], who, path, key)
    requires !Receipted(Hosts(run[i].disk.state), who, Mark(path, key, n, DigestOf(Entry(run[i].disk, path, key, n))))
    ensures Entry(run[j].disk, path, key, n) == Entry(run[i].disk, path, key, n)
    ensures !Receipted(Hosts(run[j].disk.state), who, Mark(path, key, n, DigestOf(Entry(run[i].disk, path, key, n))))
    decreases j
  {
    if i < j {
      UnreceiptedStands(run, acts, i, j - 1, who, path, key, n);
      var last := j - 1;
      assert Acting(acts[last], who, path, key);
      UnreceiptedKept(run[last], acts[last], who, path, key, n);
      NoReceiptTurnsUp(run[last], acts[last], who, path, key, n);
    }
  }

  lemma {:induction false} RunInv(run: seq<World>, acts: seq<Action>, i: nat)
    requires IsRun(run, acts) && i < |run| && Inv(run[0])
    ensures Inv(run[i])
  {
    if i > 0 {
      RunInv(run, acts, i - 1);
      StepInv(run[i - 1], acts[i - 1]);
    }
  }

  /** So the installer never alters an entry that it has not written itself, whatever its receipts. */
  lemma ForeignEntryStands(run: seq<World>, acts: seq<Action>, i: nat, j: nat, path: Path, key: Key, n: Name)
    requires IsRun(run, acts) && i <= j < |run| && Inv(run[0])
    requires forall k | i <= k < j :: !(acts[k].Edit? && acts[k].path == path)
    requires Entry(run[i].disk, path, key, n) != Null
    requires Mark(path, key, n, DigestOf(Entry(run[i].disk, path, key, n))) !in run[i].written
    ensures Entry(run[j].disk, path, key, n) == Entry(run[i].disk, path, key, n)
  {
    var m := Mark(path, key, n, DigestOf(Entry(run[i].disk, path, key, n)));
    RunInv(run, acts, i);
    assert !Receipted(Hosts(run[i].disk.state), HOSTS, m);
    UnreceiptedStands(run, acts, i, j, HOSTS, path, key, n);
  }

  /** The backup of a file is the file as the first configuring call found it, for good. */
  lemma {:induction false} BackupNeverRewritten(run: seq<World>, acts: seq<Action>, i: nat, j: nat, path: Path)
    requires IsRun(run, acts) && i <= j < |run| && path in run[i].disk.backups
    ensures path in run[j].disk.backups && run[j].disk.backups[path] == run[i].disk.backups[path]
    decreases j
  {
    if i < j {
      BackupNeverRewritten(run, acts, i, j - 1, path);
    }
  }

  lemma StepTakesBackup(w: World, a: Action)
    requires Allowed(a) && a.Install? && !a.dryRun && a.path in w.disk.configs
    requires StatusWritten(w.disk, a.host, a.path, a.want, false, Configured)
    ensures var backups := Step(w, a).disk.backups;
            && a.path in backups
            && backups[a.path] == if a.path in w.disk.backups then w.disk.backups[a.path] else w.disk.configs[a.path]
  {
    StatusIsWritten(w.disk, a.host, a.path, a.want, false);
  }

  /** From the first configuring call on, wherever it is cut off, a configuration file that was there is
      in the backup as it was found, for good. */
  lemma BackupTaken(run: seq<World>, acts: seq<Action>, i: nat, j: nat)
    requires IsRun(run, acts) && i < j < |run| && acts[i].Install? && !acts[i].dryRun
    requires acts[i].path in run[i].disk.configs
    requires StatusWritten(run[i].disk, acts[i].host, acts[i].path, acts[i].want, false, Configured)
    ensures var path, d := acts[i].path, run[i].disk;
            && path in run[j].disk.backups
            && run[j].disk.backups[path] == if path in d.backups then d.backups[path] else d.configs[path]
  {
    assert run[i + 1] == Step(run[i], acts[i]);
    StepTakesBackup(run[i], acts[i]);
    BackupNeverRewritten(run, acts, i + 1, j, acts[i].path);
  }

  // ----- install, then uninstall

  /** The four entries are as desired and no legacy entry is left. */
  predicate Placed(d: Disk, host: Host, path: Path, want: map<Name, Value>) {
    var config := Load(d.configs, path);
    && config.Some? && !d.state.Unsupported? && BoxOk(config.value, host)
    && Look(Box(config.value, host), LegacyBuild) == Null
    && forall n | n in want :: Look(Box(config.value, host), n) == want[n]
  }

  lemma IdleIffPlaced(d: Disk, host: Host, path: Path, want: map<Name, Value>)
    ensures InstallStatus(d, host, path, want, false) == AlreadyConfigured <==> Placed(d, host, path, want)
  {
    var config := Load(d.configs, path);
    if config.Some? {
      NoneChanged(Box(config.value, host), want);
    }
  }

  lemma InstallPlaces(d: Disk, host: Host, path: Path, want: map<Name, Value>, cut: Cut)
    requires IsWant(want) && InstallStatus(d, host, path, want, false) == Configured && cut != AfterBackup
    ensures Placed(InstallDisk(d, host, path, want, cut), host, path, want)
  {
    var config, hosts := Load(d.configs, path).value, Hosts(d.state);
    InstalledBox(config, hosts, host, path, want);
    assert Load(InstallDisk(d, host, path, want, cut).configs, path)
           == Some(InstalledConfig(config, hosts, host, path, want));
    assert forall n | n in want :: Look(Swept(Box(config, host), hosts, host, path) + want, n) == want[n];
  }

  /** Once placed, an uninstall goes through exactly when every entry has its receipt. */
  lemma RemovedIffCovered(d: Disk, host: Host, path: Path, want: map<Name, Value>)
    requires IsWant(want) && Placed(d, host, path, want)
    ensures RemovalStatus(d, host, path, false) == Removed
            <==> forall n | n in want :: Covers(Hosts(d.state), host, path, n, want[n])
    ensures RemovalStatus(d, host, path, false) in {Removed, Refused}
  {
    var box, hosts := Box(Load(d.configs, path).value, host), Hosts(d.state);
    CoveringNames(want);
    forall n | n in want
      ensures NotOurs(box, Servers(hosts, host), path, n) <==> !Covers(hosts, host, path, n, want[n])
    {
    }
    assert Look(box, Knowledge) != Null;
    assert Knowledge in Managed(box);
  }

  lemma CoveredAfter(config: map<Key, Member>, hosts: map<Host, HostState>, host: Host, path: Path,
                     want: map<Name, Value>, n: Name)
    requires n in want
    ensures Covers(InstalledHosts(config, hosts, host, path, want), host, path, n, want[n])
            <==> (Look(Box(config, host), n) == want[n] ==> Covers(hosts, host, path, n, want[n]))
  {
  }

  lemma UndoneIff(d: Disk, host: Host, path: Path, want: map<Name, Value>)
    requires IsWant(want) && InstallStatus(d, host, path, want, false) == Configured
    ensures var box, hosts := Box(Load(d.configs, path).value, host), Hosts(d.state);
            RemovalStatus(InstallDisk(d, host, path, want, Whole), host, path, false) == Removed
            <==> forall n | n in want && Look(box, n) == want[n] :: Covers(hosts, host, path, n, want[n])
  {
    InstallPlaces(d, host, path, want, Whole);
    var d' := InstallDisk(d, host, path, want, Whole);
    RemovedIffCovered(d', host, path, want);
    var box, hosts := Box(Load(d.configs, path).value, host), Hosts(d.state);
    forall n | n in want
      ensures Covers(Hosts(d'.state), host, path, n, want[n])
              <==> (Look(box, n) == want[n] ==> Covers(hosts, host, path, n, want[n]))
    {
      CoveredAfter(Load(d.configs, path).value, hosts, host, path, want, n);
    }
  }

  /** A crash after the configuration is written and before the receipts are: the entries stay, a
      repeated install finds nothing to do and writes no receipt, and an uninstall goes through
      exactly when the old receipts happen to cover all four. */
  lemma CrashLeavesNoReceipt(d: Disk, host: Host, path: Path, want: map<Name, Value>)
    requires IsWant(want) && InstallStatus(d, host, path, want, false) == Configured
    ensures var d' := InstallDisk(d, host, path, want, AfterConfig);
            && InstallStatus(d', host, path, want, false) == AlreadyConfigured
            && RemovalStatus(d', host, path, false)
               == if forall n | n in want :: Covers(Hosts(d.state), host, path, n, want[n]) then Removed else Refused
  {
    InstallPlaces(d, host, path, want, AfterConfig);
    var d' := InstallDisk(d, host, path, want, AfterConfig);
    IdleIffPlaced(d', host, path, want);
    RemovedIffCovered(d', host, path, want);
  }

  /** None of the names the installer manages is in the container. */
  predicate Untaken(box: map<Name, Value>) {
    forall n | n in box :: n !in {Knowledge, Build, Research, Learning, LegacyBuild}
  }

  lemma BoxRestored(box: map<Name, Value>, want: map<Name, Value>)
    requires IsWant(want) && Untaken(box)
    ensures (box + want) - Present(box + want) == box
    ensures Managed(box + want) == want.Keys
  {
  }

  /** The file after an install and an uninstall: an empty container is dropped, and an empty
      opencode file keeps the schema address it was given. */
  function RestoredConfig(config: map<Key, Member>, host: Host): map<Key, Member> {
    var base := if host == Opencode && config == map[] then config[SchemaKey := SchemaAddress] else config;
    if Box(config, host) == map[] then base - {ContainerKey(host)} else base
  }

  lemma FreshInstall(d: Disk, host: Host, path: Path, want: map<Name, Value>)
    requires IsWant(want)
    requires Load(d.configs, path).Some? && !d.state.Unsupported? && BoxOk(Load(d.configs, path).value, host)
    requires Untaken(Box(Load(d.configs, path).value, host))
    ensures InstallStatus(d, host, path, want, false) == Configured
    ensures forall n | n in want :: Look(Box(Load(d.configs, path).value, host), n) != want[n]
  {
    var box := Box(Load(d.configs, path).value, host);
    assert Look(box, LegacyBuild) == Null;
    assert forall n | n in want :: Look(box, n) == Null;
    assert Knowledge in Changed(box, want);
  }

  lemma ConfigRestored(config: map<Key, Member>, hosts: map<Host, HostState>, host: Host, path: Path,
                       want: map<Name, Value>)
    requires IsWant(want) && Untaken(Box(config, host)) && BoxOk(config, host)
    ensures RemovedConfig(InstalledConfig(config, hosts, host, path, want), host) == RestoredConfig(config, host)
  {
    var box := Box(config, host);
    var installed := InstalledConfig(config, hosts, host, path, want);
    InstalledBox(config, hosts, host, path, want);
    assert Swept(box, hosts, host, path) == box;
    BoxRestored(box, want);
    assert Box(installed, host) - Present(Box(installed, host)) == box;
    if box != map[] {
      assert ContainerKey(host) in config && config[ContainerKey(host)] == Object(box);
    }
  }

  lemma TwoWrites(d: Disk, host: Host, path: Path, want: map<Name, Value>)
    requires InstallStatus(d, host, path, want, false) == Configured
    requires RemovalStatus(InstallDisk(d, host, path, want, Whole), host, path, false) == Removed
    ensures RemovalDisk(InstallDisk(d, host, path, want, Whole), host, path, Whole).configs
            == d.configs[path := Config(RemovedConfig(InstalledConfig(Load(d.configs, path).value, Hosts(d.state),
                                                                      host, path, want), host))]
  {
  }

  /** An install into a file that has none of the names goes through, an uninstall after it too, and
      the file is then as before; every other file is untouched throughout. */
  lemma InstallThenUninstall(d: Disk, host: Host, path: Path, want: map<Name, Value>)
    requires IsWant(want)
    requires Load(d.configs, path).Some? && !d.state.Unsupported? && BoxOk(Load(d.configs, path).value, host)
    requires Untaken(Box(Load(d.configs, path).value, host))
    ensures InstallStatus(d, host, path, want, false) == Configured
    ensures var d' := InstallDisk(d, host, path, want, Whole);
            RemovalStatus(d', host, path, false) == Removed
            && var d'' := RemovalDisk(d', host, path, Whole);
               d''.configs == d.configs[path := Config(RestoredConfig(Load(d.configs, path).value, host))]
  {
    var config, hosts := Load(d.configs, path).value, Hosts(d.state);
    FreshInstall(d, host, path, want);
    UndoneIff(d, host, path, want);
    ConfigRestored(config, hosts, host, path, want);
    TwoWrites(d, host, path, want);
  }

  // ----- what the receipts do not protect

  /** A null under a managed name counts as absent: an install overwrites it without a receipt. */
  lemma NullIsOverwritten(d: Disk, host: Host, path: Path, want: map<Name, Value>, n: Name)
    requires IsWant(want) && InstallStatus(d, host, path, want, false) == Configured && n in want
    requires Look(Box(Load(d.configs, path).value, host), n) == Null
    ensures Entry(InstallDisk(d, host, path, want, Whole), path, ContainerKey(host), n) == want[n] != Null
  {
  }

  /** The first version's receipt names this file and this value. */
  predicate LegacyReceipt(single: map<Host, Option<Receipt>>, host: Host, path: Path, v: Value) {
    && host in single && single[host].Some?
    && single[host].value.path == path && single[host].value.digest == DigestOf(v)
  }

  /** With a receipt file of the first version, the old entry blocks the install exactly when its
      receipt does not name this file and this value. */
  lemma LegacyBlocks(d: Disk, host: Host, path: Path, want: map<Name, Value>)
    requires IsWant(want) && d.state.V1? && Load(d.configs, path).Some? && BoxOk(Load(d.configs, path).value, host)
    requires Look(Box(Load(d.configs, path).value, host), LegacyBuild) != Null
    requires forall n | n in want :: Look(Box(Load(d.configs, path).value, host), n) == Null
    ensures var v := Look(Box(Load(d.configs, path).value, host), LegacyBuild);
            InstallStatus(d, host, path, want, false)
            == if LegacyReceipt(d.state.single, host, path, v) then Configured else Conflict
  {
    var box, hosts := Box(Load(d.configs, path).value, host), Hosts(d.state);
    assert forall n | n in want :: !Foreign(box, hosts, host, path, want, n);
  }

  /** The receipts after an install into a first-version receipt file. */
  lemma MigratedHosts(d: Disk, host: Host, path: Path, want: map<Name, Value>)
    requires d.state.V1? && InstallStatus(d, host, path, want, false) == Configured
    ensures var hosts := Hosts(InstallDisk(d, host, path, want, Whole).state);
            && host in hosts && hosts[host].legacy == None
            && forall h | h in d.state.single && h != host ::
                 h in hosts && hosts[h] == HostState(map[], d.state.single[h])
  {
  }

  lemma LegacyGone(d: Disk, host: Host, path: Path, want: map<Name, Value>)
    requires IsWant(want) && InstallStatus(d, host, path, want, false) == Configured
    ensures Entry(InstallDisk(d, host, path, want, Whole), path, ContainerKey(host), LegacyBuild) == Null
  {
    assert LegacyBuild !in want;
    InstalledEntry(d, host, path, want, Whole, LegacyBuild);
    assert !LegacyForeign(Box(Load(d.configs, path).value, host), Hosts(d.state), host, path);
  }

  /** An install that goes through moves to the present layout: the old entry and its receipt are
      gone, and the other hosts' old receipts are kept. */
  lemma LegacyMigrated(d: Disk, host: Host, path: Path, want: map<Name, Value>)
    requires IsWant(want) && d.state.V1? && InstallStatus(d, host, path, want, false) == Configured
    ensures Entry(InstallDisk(d, host, path, want, Whole), path, ContainerKey(host), LegacyBuild) == Null
    ensures var hosts := Hosts(InstallDisk(d, host, path, want, Whole).state);
            && host in hosts && hosts[host].legacy == None
            && forall h | h in d.state.single && h != host ::
                 h in hosts && hosts[h] == HostState(map[], d.state.single[h])
  {
    LegacyGone(d, host, path, want);
    MigratedHosts(d, host, path, want);
  }
}
