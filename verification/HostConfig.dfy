/**
 Registering the four local servers in an agent host's configuration file
 (scripts/configure_agent_host.py): ownership receipts, refusal, migration of the one-server
 layout, removal, and what user edits and crashes between two writes can lead to.
 */
module HostConfig {

  datatype Option<+T> = None | Some(value: T)

  datatype Host = Claude | Cursor | Opencode
  datatype Path = Path(text: string)

  /** Top-level members of a configuration file, and names inside the server container. */
  datatype Key = Mcp | McpServers | SchemaKey | OtherKey(text: string)
  datatype Name = Knowledge | Build | Research | Learning | LegacyBuild | OtherName(text: string)

  /** A JSON value, by its canonical text. */
  datatype Value = Null | Json(text: string)

  /** The schema address an empty opencode file is given, any other plain value, or an object. */
  datatype Member = SchemaAddress | Scalar(value: Value) | Object(entries: map<Name, Value>)

  /** The digest of a value's canonical text; distinct texts have distinct digests. */
  datatype Digest = Digest(text: string)

  datatype Receipt = Receipt(managed: bool, path: Path, digest: Digest)
  datatype HostState = HostState(servers: map<Name, Receipt>, legacy: Option<Receipt>)

  datatype File = Malformed | Config(members: map<Key, Member>)

  /** The receipt file: absent or empty, the first version's one receipt per host (absent when it
      was not an object), the present version, or anything else. */
  datatype StateFile =
    | NoState
    | V1(single: map<Host, Option<Receipt>>)
    | V2(hosts: map<Host, HostState>)
    | Unsupported

  datatype Disk = Disk(configs: map<Path, File>, backups: map<Path, File>, state: StateFile)

  const NAMES: seq<Name> := [Knowledge, Build, Research, Learning]

  datatype Status = Raised | NotAnObject | Conflict | WouldChange | AlreadyConfigured | Configured

  datatype Removal = RemovalRaised | NotManaged | Refused | WouldRemove | Removed

  function ContainerKey(host: Host): Key {
    if host == Opencode then Mcp else McpServers
  }

  function DigestOf(v: Value): Digest {
    match v
    case Null => Digest("null")
    case Json(text) => Digest(text)
  }

  /** Loading: a missing file is an empty object. */
  function Load(configs: map<Path, File>, path: Path): Option<map<Key, Member>> {
    if path !in configs then Some(map[])
    else if configs[path].Malformed? then None
    else Some(configs[path].members)
  }

  function Hosts(state: StateFile): map<Host, HostState> {
    match state
    case V1(single) => map h | h in single :: HostState(map[], single[h])
    case V2(hosts) => hosts
    case _ => map[]
  }

  predicate BoxOk(config: map<Key, Member>, host: Host) {
    ContainerKey(host) in config ==> config[ContainerKey(host)].Object?
  }

  function Box(config: map<Key, Member>, host: Host): map<Name, Value> {
    if ContainerKey(host) in config && config[ContainerKey(host)].Object?
    then config[ContainerKey(host)].entries else map[]
  }

  /** An absent entry and a null one look alike to the installer. */
  function Look(box: map<Name, Value>, n: Name): Value {
    if n in box then box[n] else Null
  }

  function Servers(hosts: map<Host, HostState>, host: Host): map<Name, Receipt> {
    if host in hosts then hosts[host].servers else map[]
  }

  predicate Covers(hosts: map<Host, HostState>, host: Host, path: Path, n: Name, v: Value) {
    && n in Servers(hosts, host)
    && var r := Servers(hosts, host)[n];
       r.managed && r.path == path && r.digest == DigestOf(v)
  }

  predicate Owned(box: map<Name, Value>, hosts: map<Host, HostState>, host: Host, path: Path, n: Name) {
    Look(box, n) != Null && Covers(hosts, host, path, n, Look(box, n))
  }

  predicate LegacyOwned(box: map<Name, Value>, hosts: map<Host, HostState>, host: Host, path: Path) {
    && Look(box, LegacyBuild) != Null
    && host in hosts && hosts[host].legacy.Some?
    && hosts[host].legacy.value.path == path
    && hosts[host].legacy.value.digest == DigestOf(Look(box, LegacyBuild))
  }

  predicate LegacyForeign(box: map<Name, Value>, hosts: map<Host, HostState>, host: Host, path: Path) {
    Look(box, LegacyBuild) != Null && !LegacyOwned(box, hosts, host, path)
  }

  /** An entry that is neither what would be written nor covered by its receipt. */
  predicate Foreign(box: map<Name, Value>, hosts: map<Host, HostState>, host: Host, path: Path,
                    want: map<Name, Value>, n: Name)
  {
    && n in want && Look(box, n) != Null && Look(box, n) != want[n]
    && !Owned(box, hosts, host, path, n)
  }

  predicate Blocked(box: map<Name, Value>, hosts: map<Host, HostState>, host: Host, path: Path,
                          want: map<Name, Value>)
  {
    LegacyForeign(box, hosts, host, path) || exists n :: n in want && Foreign(box, hosts, host, path, want, n)
  }

  /** What an install writes for each server: an object per name, whatever the checkout. */
  predicate IsWant(want: map<Name, Value>) {
    want.Keys == {Knowledge, Build, Research, Learning} && forall n | n in want :: want[n] != Null
  }

  // ----- what one call does to the files

  function Changed(box: map<Name, Value>, want: map<Name, Value>): set<Name> {
    set n | n in want && Look(box, n) != want[n]
  }

  function InstallStatus(d: Disk, host: Host, path: Path, want: map<Name, Value>, dryRun: bool): Status {
    var config := Load(d.configs, path);
    if config.None? || d.state.Unsupported? then Raised
    else if !BoxOk(config.value, host) then NotAnObject
    else
      var box, hosts := Box(config.value, host), Hosts(d.state);
      if Blocked(box, hosts, host, path, want) then Conflict
      else if dryRun then WouldChange
      else if Changed(box, want) == {} && !LegacyOwned(box, hosts, host, path) then AlreadyConfigured
      else Configured
  }

  /** The container without the legacy entry, when that is ours. */
  function Swept(box: map<Name, Value>, hosts: map<Host, HostState>, host: Host, path: Path): map<Name, Value> {
    if LegacyOwned(box, hosts, host, path) then box - {LegacyBuild} else box
  }

  function InstalledConfig(config: map<Key, Member>, hosts: map<Host, HostState>, host: Host, path: Path,
                           want: map<Name, Value>): map<Key, Member>
  {
    var box := Box(config, host);
    var base := config[ContainerKey(host) := Object(Swept(box, hosts, host, path) + want)];
    if host == Opencode && config == map[] then base[SchemaKey := SchemaAddress] else base
  }

  function NewReceipts(box: map<Name, Value>, path: Path, want: map<Name, Value>): map<Name, Receipt> {
    map n | n in Changed(box, want) :: Receipt(true, path, DigestOf(want[n]))
  }

  function InstalledHosts(config: map<Key, Member>, hosts: map<Host, HostState>, host: Host, path: Path,
                          want: map<Name, Value>): map<Host, HostState>
  {
    hosts[host := HostState(Servers(hosts, host) + NewReceipts(Box(config, host), path, want), None)]
  }

  /** The backup is taken once and never again. */
  function BackedUp(d: Disk, path: Path): map<Path, File> {
    if path in d.configs && path !in d.backups then d.backups[path := d.configs[path]] else d.backups
  }

  /** How far the three writes of a call got. */
  datatype Cut = AfterBackup | AfterConfig | Whole

  function InstallDisk(d: Disk, host: Host, path: Path, want: map<Name, Value>, cut: Cut): Disk
    requires InstallStatus(d, host, path, want, false) == Configured
  {
    var config, hosts := Load(d.configs, path).value, Hosts(d.state);
    var backed := d.(backups := BackedUp(d, path));
    if cut == AfterBackup then backed
    else
      var written := backed.(configs := d.configs[path := Config(InstalledConfig(config, hosts, host, path, want))]);
      if cut == AfterConfig then written
      else written.(state := V2(InstalledHosts(config, hosts, host, path, want)))
  }

  function Managed(box: map<Name, Value>): set<Name> {
    set n | n in {Knowledge, Build, Research, Learning} && Look(box, n) != Null
  }

  /** What an uninstall takes out of the container. */
  function Present(box: map<Name, Value>): set<Name> {
    Managed(box) + if Look(box, LegacyBuild) != Null then {LegacyBuild} else {}
  }

  /** An entry without a matching receipt. */
  predicate NotOurs(box: map<Name, Value>, servers: map<Name, Receipt>, path: Path, n: Name) {
    Look(box, n) != Null && !(n in servers && servers[n] == Receipt(true, path, DigestOf(Look(box, n))))
  }

  function RemovalStatus(d: Disk, host: Host, path: Path, dryRun: bool): Removal {
    var config := Load(d.configs, path);
    if config.None? || d.state.Unsupported? then RemovalRaised
    else
      var box, hosts := Box(config.value, host), Hosts(d.state);
      if LegacyForeign(box, hosts, host, path) || exists n :: n in NAMES && NotOurs(box, Servers(hosts, host), path, n)
      then Refused
      else if dryRun then WouldRemove
      else if Present(box) == {} then NotManaged
      else Removed
  }

  function RemovedConfig(config: map<Key, Member>, host: Host): map<Key, Member> {
    var left := Box(config, host) - Present(Box(config, host));
    if left == map[] then config - {ContainerKey(host)} else config[ContainerKey(host) := Object(left)]
  }

  function RemovedHosts(config: map<Key, Member>, hosts: map<Host, HostState>, host: Host): map<Host, HostState> {
    var left := Servers(hosts, host) - Managed(Box(config, host));
    if host !in hosts then hosts
    else if left == map[] then hosts - {host}
    else hosts[host := hosts[host].(servers := left)]
  }

  function RemovalDisk(d: Disk, host: Host, path: Path, cut: Cut): Disk
    requires RemovalStatus(d, host, path, false) == Removed
  {
    var config, hosts := Load(d.configs, path).value, Hosts(d.state);
    if cut == AfterBackup then d
    else
      var written := d.(configs := d.configs[path := Config(RemovedConfig(config, host))]);
      if cut == AfterConfig then written else written.(state := V2(RemovedHosts(config, hosts, host)))
  }

  // ----- the calls, by files and receipts

  /** The value under a name in the host's container of a file, Null when there is none. */
  function EntryIn(d: Disk, host: Host, path: Path, n: Name): Value {
    var key := if host == Opencode then Mcp else McpServers;
    if path in d.configs && d.configs[path].Config? && key in d.configs[path].members
       && d.configs[path].members[key].Object? && n in d.configs[path].members[key].entries
    then d.configs[path].members[key].entries[n] else Null
  }

  function TextOf(v: Value): string {
    if v.Null? then "null" else v.text
  }

  /** The receipt of one of the four entries, and of the old one, under either version. */
  function ReceiptOf(d: Disk, host: Host, n: Name): Option<Receipt> {
    if d.state.V2? && host in d.state.hosts && n in d.state.hosts[host].servers
    then Some(d.state.hosts[host].servers[n]) else None
  }

  function LegacyReceiptOf(d: Disk, host: Host): Option<Receipt> {
    if d.state.V2? && host in d.state.hosts then d.state.hosts[host].legacy
    else if d.state.V1? && host in d.state.single then d.state.single[host]
    else None
  }

  /** The entry is there and its receipt does not say that the installer wrote this value here. */
  predicate UserOwned(d: Disk, host: Host, path: Path, n: Name) {
    && EntryIn(d, host, path, n) != Null
    && ReceiptOf(d, host, n) != Some(Receipt(true, path, Digest(TextOf(EntryIn(d, host, path, n)))))
  }

  predicate UserOwnedLegacy(d: Disk, host: Host, path: Path) {
    && EntryIn(d, host, path, LegacyBuild) != Null
    && (LegacyReceiptOf(d, host).None? || LegacyReceiptOf(d, host).value.path != path
        || LegacyReceiptOf(d, host).value.digest != Digest(TextOf(EntryIn(d, host, path, LegacyBuild))))
  }

  predicate Unreadable(d: Disk, path: Path) {
    (path in d.configs && d.configs[path].Malformed?) || d.state.Unsupported?
  }

  predicate NoObject(d: Disk, host: Host, path: Path) {
    var key := if host == Opencode then Mcp else McpServers;
    path in d.configs && d.configs[path].Config? && key in d.configs[path].members
    && !d.configs[path].members[key].Object?
  }

  /** What an install answers. */
  ghost predicate StatusWritten(d: Disk, host: Host, path: Path, want: map<Name, Value>, dryRun: bool, status: Status) {
    var readable := !Unreadable(d, path) && !NoObject(d, host, path);
    var blocked := UserOwnedLegacy(d, host, path)
                   || exists n :: n in {Knowledge, Build, Research, Learning} && n in want
                                  && EntryIn(d, host, path, n) != want[n] && UserOwned(d, host, path, n);
    var placed := EntryIn(d, host, path, LegacyBuild) == Null
                  && forall n | n in want :: EntryIn(d, host, path, n) == want[n];
    && (status == Raised <==> Unreadable(d, path))
    && (status == NotAnObject <==> !Unreadable(d, path) && NoObject(d, host, path))
    && (status == Conflict <==> readable && blocked)
    && (status == WouldChange <==> readable && !blocked && dryRun)
    && (status == AlreadyConfigured <==> readable && !blocked && !dryRun && placed)
    && (status == Configured <==> readable && !blocked && !dryRun && !placed)
  }

  /** What an install that goes through leaves: the first version of the file kept as its backup, the
      four entries as desired, the old one gone, and everything else as it was. */
  ghost predicate ConfiguredAs(d: Disk, host: Host, path: Path, want: map<Name, Value>, d': Disk) {
    var key := if host == Opencode then Mcp else McpServers;
    var members := if path in d.configs && d.configs[path].Config? then d.configs[path].members else map[];
    && d'.backups == (if path in d.configs && path !in d.backups then d.backups[path := d.configs[path]] else d.backups)
    && d'.configs.Keys == d.configs.Keys + {path}
    && (forall p | p in d.configs && p != path :: d'.configs[p] == d.configs[p])
    && d'.configs[path].Config?
    && (forall k | k != key && !(k == SchemaKey && host == Opencode && members == map[]) ::
          && (k in d'.configs[path].members <==> k in members)
          && (k in members ==> d'.configs[path].members[k] == members[k]))
    && (host == Opencode && members == map[] ==>
          SchemaKey in d'.configs[path].members && d'.configs[path].members[SchemaKey] == SchemaAddress)
    && (forall n :: EntryPlaced(d, host, path, want, d', n))
    && ReceiptsTaken(d, host, path, want, d')
  }

  /** A receipt for each entry that was written; the others as they were, the old one gone. */
  ghost predicate ReceiptsTaken(d: Disk, host: Host, path: Path, want: map<Name, Value>, d': Disk) {
    d'.state.V2? && forall h, n :: ReceiptTaken(d, host, path, want, d', h, n)
  }

  ghost predicate ReceiptTaken(d: Disk, host: Host, path: Path, want: map<Name, Value>, d': Disk, h: Host, n: Name) {
    && ReceiptOf(d', h, n) ==
       (if h == host && n in want && EntryIn(d, host, path, n) != want[n]
        then Some(Receipt(true, path, Digest(TextOf(want[n])))) else ReceiptOf(d, h, n))
    && LegacyReceiptOf(d', h) == if h == host then None else LegacyReceiptOf(d, h)
  }

  ghost predicate EntryPlaced(d: Disk, host: Host, path: Path, want: map<Name, Value>, d': Disk, n: Name) {
    EntryIn(d', host, path, n) ==
      if n in want then want[n] else if n == LegacyBuild then Null else EntryIn(d, host, path, n)
  }

  lemma EntryIsLook(d: Disk, host: Host, path: Path, n: Name)
    requires Load(d.configs, path).Some?
    ensures EntryIn(d, host, path, n) == Look(Box(Load(d.configs, path).value, host), n)
  {
  }

  lemma ReceiptIsServers(d: Disk, host: Host, n: Name)
    ensures ReceiptOf(d, host, n)
            == if n in Servers(Hosts(d.state), host) then Some(Servers(Hosts(d.state), host)[n]) else None
    ensures LegacyReceiptOf(d, host)
            == if host in Hosts(d.state) then Hosts(d.state)[host].legacy else None
  {
  }

  lemma OwnedIsReceipted(d: Disk, host: Host, path: Path, n: Name)
    requires Load(d.configs, path).Some?
    ensures var box, hosts := Box(Load(d.configs, path).value, host), Hosts(d.state);
            && (UserOwned(d, host, path, n) <==> NotOurs(box, Servers(hosts, host), path, n))
            && (UserOwned(d, host, path, n) <==> Look(box, n) != Null && !Owned(box, hosts, host, path, n))
            && (UserOwnedLegacy(d, host, path) <==> LegacyForeign(box, hosts, host, path))
  {
    EntryIsLook(d, host, path, n);
    EntryIsLook(d, host, path, LegacyBuild);
    ReceiptIsServers(d, host, n);
  }

  lemma NoneChanged(box: map<Name, Value>, want: map<Name, Value>)
    ensures Changed(box, want) == {} <==> forall n | n in want :: Look(box, n) == want[n]
  {
    if Changed(box, want) == {} {
      forall n | n in want ensures Look(box, n) == want[n] {
        assert n !in Changed(box, want);
      }
    }
  }

  lemma StatusIsWritten(d: Disk, host: Host, path: Path, want: map<Name, Value>, dryRun: bool)
    requires IsWant(want)
    ensures StatusWritten(d, host, path, want, dryRun, InstallStatus(d, host, path, want, dryRun))
  {
    if Load(d.configs, path).Some? {
      var box, hosts := Box(Load(d.configs, path).value, host), Hosts(d.state);
      forall n ensures EntryIn(d, host, path, n) == Look(box, n) {
        EntryIsLook(d, host, path, n);
      }
      forall n | n in want
        ensures Foreign(box, hosts, host, path, want, n)
                <==> EntryIn(d, host, path, n) != want[n] && UserOwned(d, host, path, n)
      {
        OwnedIsReceipted(d, host, path, n);
      }
      OwnedIsReceipted(d, host, path, LegacyBuild);
      NoneChanged(box, want);
    }
  }

  lemma BoxInstalled(config: map<Key, Member>, hosts: map<Host, HostState>, host: Host, path: Path,
                     want: map<Name, Value>, n: Name)
    requires IsWant(want) && !LegacyForeign(Box(config, host), hosts, host, path)
    ensures Look(Box(InstalledConfig(config, hosts, host, path, want), host), n)
            == if n in want then want[n] else if n == LegacyBuild then Null else Look(Box(config, host), n)
  {
  }

  /** The receipts that an install adds, by their place in the old and new receipts. */
  lemma ServersInstalled(config: map<Key, Member>, hosts: map<Host, HostState>, host: Host, path: Path,
                         want: map<Name, Value>, n: Name)
    requires IsWant(want)
    ensures var box, servers := Box(config, host), Servers(InstalledHosts(config, hosts, host, path, want), host);
            && (n in servers <==> (n in want && Look(box, n) != want[n]) || n in Servers(hosts, host))
            && (n in servers ==>
                  servers[n] == if n in want && Look(box, n) != want[n]
                                then Receipt(true, path, Digest(TextOf(want[n])))
                                else Servers(hosts, host)[n])
  {
  }

  lemma ReceiptInstalled(d: Disk, host: Host, path: Path, want: map<Name, Value>, d': Disk, h: Host, n: Name)
    requires IsWant(want) && InstallStatus(d, host, path, want, false) == Configured
    requires d'.state == V2(InstalledHosts(Load(d.configs, path).value, Hosts(d.state), host, path, want))
    ensures ReceiptTaken(d, host, path, want, d', h, n)
  {
    EntryIsLook(d, host, path, n);
    ReceiptIsServers(d, h, n);
    ReceiptIsServers(d', h, n);
    ServersInstalled(Load(d.configs, path).value, Hosts(d.state), host, path, want, n);
  }

  lemma EntryInstalled(d: Disk, host: Host, path: Path, want: map<Name, Value>, d': Disk, n: Name)
    requires IsWant(want) && InstallStatus(d, host, path, want, false) == Configured
    requires var config := InstalledConfig(Load(d.configs, path).value, Hosts(d.state), host, path, want);
             d'.configs == d.configs[path := Config(config)]
    ensures EntryPlaced(d, host, path, want, d', n)
  {
    EntryIsLook(d, host, path, n);
    EntryIsLook(d', host, path, n);
    BoxInstalled(Load(d.configs, path).value, Hosts(d.state), host, path, want, n);
  }

  lemma DiskIsWritten(d: Disk, host: Host, path: Path, want: map<Name, Value>)
    requires IsWant(want) && InstallStatus(d, host, path, want, false) == Configured
    ensures ConfiguredAs(d, host, path, want, InstallDisk(d, host, path, want, Whole))
  {
    var d' := InstallDisk(d, host, path, want, Whole);
    forall n ensures EntryPlaced(d, host, path, want, d', n) {
      EntryInstalled(d, host, path, want, d', n);
    }
    forall h, n ensures ReceiptTaken(d, host, path, want, d', h, n) {
      ReceiptInstalled(d, host, path, want, d', h, n);
    }
  }

  /** What an uninstall answers. */
  ghost predicate RemovalWritten(d: Disk, host: Host, path: Path, dryRun: bool, result: Removal) {
    var refused := UserOwnedLegacy(d, host, path)
                   || exists n :: n in {Knowledge, Build, Research, Learning} && UserOwned(d, host, path, n);
    var nothing := forall n | n in {Knowledge, Build, Research, Learning, LegacyBuild} ::
                     EntryIn(d, host, path, n) == Null;
    && (result == RemovalRaised <==> Unreadable(d, path))
    && (result == Refused <==> !Unreadable(d, path) && refused)
    && (result == WouldRemove <==> !Unreadable(d, path) && !refused && dryRun)
    && (result == NotManaged <==> !Unreadable(d, path) && !refused && !dryRun && nothing)
    && (result == Removed <==> !Unreadable(d, path) && !refused && !dryRun && !nothing)
  }

  /** What an uninstall that goes through leaves: none of the five entries, and everything else as it
      was; no backup is touched. */
  ghost predicate RemovedAs(d: Disk, host: Host, path: Path, d': Disk) {
    var key := if host == Opencode then Mcp else McpServers;
    && d'.backups == d.backups && d'.configs.Keys == d.configs.Keys && path in d.configs && d.configs[path].Config?
    && (forall p | p in d.configs && p != path :: d'.configs[p] == d.configs[p])
    && d'.configs[path].Config?
    && (forall k | k != key ::
          && (k in d'.configs[path].members <==> k in d.configs[path].members)
          && (k in d.configs[path].members ==> d'.configs[path].members[k] == d.configs[path].members[k]))
    && (key in d'.configs[path].members ==>
          d'.configs[path].members[key].Object? && d'.configs[path].members[key].entries != map[])
    && (forall n :: EntryRemoved(d, host, path, d', n))
    && d'.state.V2? && forall h, n :: ReceiptRemoved(d, host, path, d', h, n)
  }

  ghost predicate EntryRemoved(d: Disk, host: Host, path: Path, d': Disk, n: Name) {
    EntryIn(d', host, path, n) ==
      if n in {Knowledge, Build, Research, Learning, LegacyBuild} then Null else EntryIn(d, host, path, n)
  }

  ghost predicate ReceiptRemoved(d: Disk, host: Host, path: Path, d': Disk, h: Host, n: Name) {
    && ReceiptOf(d', h, n) ==
       (if h == host && n in {Knowledge, Build, Research, Learning} && EntryIn(d, host, path, n) != Null then None
        else ReceiptOf(d, h, n))
    && (h != host ==> LegacyReceiptOf(d', h) == LegacyReceiptOf(d, h))
  }

  lemma RemovalIsWritten(d: Disk, host: Host, path: Path, dryRun: bool)
    ensures RemovalWritten(d, host, path, dryRun, RemovalStatus(d, host, path, dryRun))
  {
    if Load(d.configs, path).Some? {
      var box, hosts := Box(Load(d.configs, path).value, host), Hosts(d.state);
      forall n
        ensures EntryIn(d, host, path, n) == Look(box, n)
        ensures UserOwned(d, host, path, n) <==> NotOurs(box, Servers(hosts, host), path, n)
      {
        EntryIsLook(d, host, path, n);
        OwnedIsReceipted(d, host, path, n);
      }
      OwnedIsReceipted(d, host, path, LegacyBuild);
      assert forall n :: n in NAMES <==> n in {Knowledge, Build, Research, Learning} by {
        assert NAMES[0] == Knowledge && NAMES[1] == Build && NAMES[2] == Research && NAMES[3] == Learning;
      }
      PresentIsSome(box);
    }
  }

  lemma PresentIsSome(box: map<Name, Value>)
    ensures Present(box) == {} <==>
              forall n | n in {Knowledge, Build, Research, Learning, LegacyBuild} :: Look(box, n) == Null
  {
    if Present(box) == {} {
      forall n | n in {Knowledge, Build, Research, Learning, LegacyBuild} ensures Look(box, n) == Null {
        assert n !in Present(box);
      }
    }
  }

  lemma EntryIsRemoved(d: Disk, host: Host, path: Path, d': Disk, n: Name)
    requires RemovalStatus(d, host, path, false) == Removed && d' == RemovalDisk(d, host, path, Whole)
    ensures EntryRemoved(d, host, path, d', n)
  {
    var config := Load(d.configs, path).value;
    EntryIsLook(d, host, path, n);
    EntryIsLook(d', host, path, n);
    assert Box(RemovedConfig(config, host), host) == Box(config, host) - Present(Box(config, host));
  }

  lemma ServersRemoved(config: map<Key, Member>, hosts: map<Host, HostState>, host: Host, h: Host, n: Name)
    ensures var after := RemovedHosts(config, hosts, host);
            && (n in Servers(after, h) <==> n in Servers(hosts, h) && !(h == host && n in Managed(Box(config, host))))
            && (n in Servers(after, h) ==> Servers(after, h)[n] == Servers(hosts, h)[n])
            && (h != host ==> (h in after <==> h in hosts) && (h in after ==> after[h] == hosts[h]))
  {
  }

  lemma ReceiptIsRemoved(d: Disk, host: Host, path: Path, d': Disk, h: Host, n: Name)
    requires RemovalStatus(d, host, path, false) == Removed && d' == RemovalDisk(d, host, path, Whole)
    ensures ReceiptRemoved(d, host, path, d', h, n)
  {
    EntryIsLook(d, host, path, n);
    ReceiptIsServers(d, h, n);
    ReceiptIsServers(d', h, n);
    ServersRemoved(Load(d.configs, path).value, Hosts(d.state), host, h, n);
  }

  lemma FileRemoved(d: Disk, host: Host, path: Path)
    requires RemovalStatus(d, host, path, false) == Removed
    ensures path in d.configs && d.configs[path].Config?
    ensures var d', key := RemovalDisk(d, host, path, Whole), ContainerKey(host);
            key in d'.configs[path].members ==>
              d'.configs[path].members[key].Object? && d'.configs[path].members[key].entries != map[]
  {
    PresentIsSome(Box(Load(d.configs, path).value, host));
  }

  lemma RemovalDiskIsWritten(d: Disk, host: Host, path: Path)
    requires RemovalStatus(d, host, path, false) == Removed
    ensures RemovedAs(d, host, path, RemovalDisk(d, host, path, Whole))
  {
    var d' := RemovalDisk(d, host, path, Whole);
    FileRemoved(d, host, path);
    forall n ensures EntryRemoved(d, host, path, d', n) {
      EntryIsRemoved(d, host, path, d', n);
    }
    forall h, n ensures ReceiptRemoved(d, host, path, d', h, n) {
      ReceiptIsRemoved(d, host, path, d', h, n);
    }
  }

  // ----- the calls

  /** Foreign, as the loop over the four names decides it. */
  predicate Unreceipted(box: map<Name, Value>, servers: map<Name, Receipt>, path: Path, want: map<Name, Value>,
                        n: Name)
  {
    && Look(box, n) != Null && Look(box, n) != Look(want, n)
    && !(n in servers && servers[n] == Receipt(true, path, DigestOf(Look(box, n))))
  }

  /** The container and the receipts after the loop has passed these names. */
  function Filled(box: map<Name, Value>, names: seq<Name>, want: map<Name, Value>): map<Name, Value> {
    if names == [] then box
    else
      var n, r := names[|names| - 1], Filled(box, names[..|names| - 1], want);
      if Look(box, n) != Look(want, n) then r[n := Look(want, n)] else r
  }

  function Taken(box: map<Name, Value>, servers: map<Name, Receipt>, names: seq<Name>, path: Path,
                 want: map<Name, Value>): map<Name, Receipt>
  {
    if names == [] then servers
    else
      var n, r := names[|names| - 1], Taken(box, servers, names[..|names| - 1], path, want);
      if Look(box, n) != Look(want, n) then r[n := Receipt(true, path, DigestOf(Look(want, n)))] else r
  }

  lemma {:induction false} FilledAt(box: map<Name, Value>, names: seq<Name>, want: map<Name, Value>, n: Name)
    requires Look(want, n) != Null || n !in names
    ensures n in Filled(box, names, want) <==> n in box || n in names
    ensures Look(Filled(box, names, want), n) == if n in names then Look(want, n) else Look(box, n)
  {
    if names != [] {
      var k := |names| - 1;
      assert names == names[..k] + [names[k]];
      FilledAt(box, names[..k], want, n);
    }
  }

  lemma {:induction false} TakenAt(box: map<Name, Value>, servers: map<Name, Receipt>, names: seq<Name>, path: Path,
                                   want: map<Name, Value>, n: Name)
    ensures var r := Taken(box, servers, names, path, want);
            && (n in r <==> n in servers || (n in names && Look(box, n) != Look(want, n)))
            && (n in r ==> r[n] == if n in names && Look(box, n) != Look(want, n)
                                   then Receipt(true, path, DigestOf(Look(want, n))) else servers[n])
  {
    if names != [] {
      var k := |names| - 1;
      assert names == names[..k] + [names[k]];
      TakenAt(box, servers, names[..k], path, want, n);
    }
  }

  /** All of the desired entries, each an object. */
  ghost predicate NamesOf(names: seq<Name>, want: map<Name, Value>) {
    && (forall n :: n in names <==> n in want)
    && (forall n | n in want :: want[n] != Null)
  }

  predicate Distinct(names: seq<Name>) {
    forall i, j | 0 <= i < j < |names| :: names[i] != names[j]
  }

  /** Over all the names, the loop overwrites the container with the desired entries, and takes
      receipts for exactly those that differed. */
  lemma FilledAll(box: map<Name, Value>, names: seq<Name>, want: map<Name, Value>)
    requires NamesOf(names, want)
    ensures Filled(box, names, want) == box + want
  {
    var r := Filled(box, names, want);
    forall n ensures n in r <==> n in box || n in want
             ensures n in r ==> r[n] == if n in want then want[n] else box[n]
    {
      FilledAt(box, names, want, n);
    }
  }

  lemma TakenAll(box: map<Name, Value>, servers: map<Name, Receipt>, names: seq<Name>, path: Path, want: map<Name,
                 Value>)
    requires NamesOf(names, want)
    ensures Taken(box, servers, names, path, want) == servers + NewReceipts(box, path, want)
  {
    var taken := Taken(box, servers, names, path, want);
    forall n ensures n in taken <==> n in servers || n in Changed(box, want)
             ensures n in taken ==>
                       taken[n] == if n in Changed(box, want) then NewReceipts(box, path, want)[n] else servers[n]
    {
      TakenAt(box, servers, names, path, want, n);
    }
  }

  lemma NothingChanged(box: map<Name, Value>, names: seq<Name>, want: map<Name, Value>)
    requires NamesOf(names, want)
    ensures Changed(box, want) == {} <==> forall n | n in names :: Look(box, n) == Look(want, n)
  {
    if Changed(box, want) == {} {
      forall n | n in names ensures Look(box, n) == Look(want, n) {
        assert n !in Changed(box, want);
      }
    }
  }

  /** One more name: it is judged and written as if the loop had not written anything. */
  lemma PassName(box: map<Name, Value>, servers: map<Name, Receipt>, names: seq<Name>, path: Path,
                 want: map<Name, Value>, i: nat)
    requires i < |names| && Distinct(names)
    ensures var n, a, b := names[i], Filled(box, names[..i], want), Taken(box, servers, names[..i], path, want);
            && Look(a, n) == Look(box, n) && (n in b <==> n in servers) && (n in b ==> b[n] == servers[n])
            && Filled(box, names[..i + 1], want) == (if Look(box, n) != Look(want, n) then a[n := Look(want, n)] else a)
            && Taken(box, servers, names[..i + 1], path, want)
               == (if Look(box, n) != Look(want, n) then b[n := Receipt(true, path, DigestOf(Look(want, n)))] else b)
  {
    assert names[..i + 1][..i] == names[..i] && names[..i + 1][i] == names[i];
    assert names[i] !in names[..i];
    FilledAt(box, names[..i], want, names[i]);
    TakenAt(box, servers, names[..i], path, want, names[i]);
  }

  /** The loop of an install: entries are written and receipts taken name by name, up to the first
      entry that is not ours; every name is judged as if the loop had written nothing. */
  method Configure(box: map<Name, Value>, servers: map<Name, Receipt>, names: seq<Name>, path: Path, want: map<Name,
                   Value>)
    returns (container: map<Name, Value>, receipts: map<Name, Receipt>, installed: nat, culprit: Option<nat>)
    requires Distinct(names)
    ensures culprit.Some? ==> culprit.value < |names| && Unreceipted(box, servers, path, want, names[culprit.value])
    ensures forall j | 0 <= j < (if culprit.Some? then culprit.value else |names|) ::
              !Unreceipted(box, servers, path, want, names[j])
    ensures culprit.None? ==> container == Filled(box, names, want)
    ensures culprit.None? ==> receipts == Taken(box, servers, names, path, want)
    ensures culprit.None? ==> (installed == 0 <==> forall n | n in names :: Look(box, n) == Look(want, n))
  {
    container, receipts, installed, culprit := box, servers, 0, None;
    for i := 0 to |names|
      invariant container == Filled(box, names[..i], want)
      invariant receipts == Taken(box, servers, names[..i], path, want)
      invariant forall j | 0 <= j < i :: !Unreceipted(box, servers, path, want, names[j])
      invariant installed == 0 <==> forall j | 0 <= j < i :: Look(box, names[j]) == Look(want, names[j])
    {
      var n := names[i];
      PassName(box, servers, names, path, want, i);
      var current, desired := Look(container, n), Look(want, n);
      if current != desired {
        if current != Null && !(n in receipts && receipts[n] == Receipt(true, path, DigestOf(current))) {
          culprit := Some(i);
          return;
        }
        container := container[n := desired];
        receipts := receipts[n := Receipt(true, path, DigestOf(desired))];
        installed := installed + 1;
      }
    }
    assert names[..|names|] == names;
  }

  /** The loop of an uninstall: present entries are dropped with their receipts, up to the first one
      that is not ours. */
  method Strip(box: map<Name, Value>, servers: map<Name, Receipt>, names: seq<Name>, path: Path)
    returns (container: map<Name, Value>, receipts: map<Name, Receipt>, refused: bool)
    requires Distinct(names)
    ensures refused <==> exists n :: n in names && NotOurs(box, servers, path, n)
    ensures !refused ==> container == box - set n | n in names && Look(box, n) != Null
    ensures !refused ==> receipts == servers - set n | n in names && Look(box, n) != Null
  {
    container, receipts, refused := box, servers, false;
    ghost var gone: set<Name> := {};
    for i := 0 to |names|
      invariant gone == set n | n in names[..i] && Look(box, n) != Null
      invariant container == box - gone && receipts == servers - gone
      invariant forall j | 0 <= j < i :: !NotOurs(box, servers, path, names[j])
    {
      var n := names[i];
      assert names[..i + 1] == names[..i] + [n];
      assert n !in gone;
      var current := Look(container, n);
      if current != Null {
        if !(n in receipts && receipts[n] == Receipt(true, path, DigestOf(current))) {
          assert NotOurs(box, servers, path, n);
          refused := true;
          return;
        }
        container, receipts, gone := container - {n}, receipts - {n}, gone + {n};
      }
    }
    assert names[..|names|] == names;
  }

  lemma CoveringNames(want: map<Name, Value>)
    requires IsWant(want)
    ensures NamesOf(NAMES, want) && Distinct(NAMES)
  {
  }

  /** The legacy entry is not one of the four, so dropping it changes no judgement about them. */
  lemma SweepKeeps(box: map<Name, Value>, hosts: map<Host, HostState>, host: Host, path: Path,
                   want: map<Name, Value>)
    requires IsWant(want)
    ensures var swept := box - {LegacyBuild};
            && (forall n | n in want ::
                  && (Foreign(box, hosts, host, path, want, n)
                      <==> Unreceipted(swept, Servers(hosts, host), path, want, n))
                  && (Foreign(box, hosts, host, path, want, n)
                      <==> Unreceipted(box, Servers(hosts, host), path, want, n)))
            && Changed(swept, want) == Changed(box, want)
            && NewReceipts(swept, path, want) == NewReceipts(box, path, want)
  {
  }

  lemma SweptParts(box: map<Name, Value>, swept: map<Name, Value>, servers: map<Name, Receipt>, path: Path)
    requires swept == if Look(box, LegacyBuild) != Null then box - {LegacyBuild} else box
    ensures forall n | n in NAMES :: NotOurs(swept, servers, path, n) <==> NotOurs(box, servers, path, n)
    ensures (set n | n in NAMES && Look(swept, n) != Null) == Managed(box)
    ensures swept - Managed(box) == box - Present(box)
  {
  }

  lemma WholeInstall(d: Disk, host: Host, path: Path, want: map<Name, Value>, container: map<Name, Value>,
                     servers: map<Name, Receipt>)
    requires InstallStatus(d, host, path, want, false) == Configured
    requires var config, hosts := Load(d.configs, path).value, Hosts(d.state);
             var box := Box(config, host);
             && container == Swept(box, hosts, host, path) + want
             && servers == Servers(hosts, host) + NewReceipts(box, path, want)
    ensures var config := Load(d.configs, path).value;
            var base := config[ContainerKey(host) := Object(container)];
            var full := if host == Opencode && config == map[] then base[SchemaKey := SchemaAddress] else base;
            InstallDisk(d, host, path, want, Whole)
            == Disk(d.configs[path := Config(full)], BackedUp(d, path),
                    V2(Hosts(d.state)[host := HostState(servers, None)]))
  {
  }

  /** Which entry blocks an install: the legacy one first, else the first of the four in order. */
  ghost predicate Blocks(box: map<Name, Value>, hosts: map<Host, HostState>, host: Host, path: Path,
                         want: map<Name, Value>, names: seq<Name>, culprit: Name)
  {
    if culprit == LegacyBuild then LegacyForeign(box, hosts, host, path)
    else exists i :: 0 <= i < |names| && names[i] == culprit && Foreign(box, hosts, host, path, want, names[i])
                     && forall j | 0 <= j < i :: !Foreign(box, hosts, host, path, want, names[j])
  }

  /** The loop's verdict on the swept container is the verdict on the loaded one. */
  lemma LoopVerdict(box: map<Name, Value>, swept: map<Name, Value>, hosts: map<Host, HostState>, host: Host, path: Path,
                    want: map<Name, Value>, names: seq<Name>, wrong: Option<nat>)
    requires IsWant(want) && NamesOf(names, want)
    requires swept == box || swept == box - {LegacyBuild}
    requires !LegacyForeign(box, hosts, host, path)
    requires wrong.Some? ==>
               wrong.value < |names| && Unreceipted(swept, Servers(hosts, host), path, want, names[wrong.value])
    requires forall j | 0 <= j < (if wrong.Some? then wrong.value else |names|) ::
               !Unreceipted(swept, Servers(hosts, host), path, want, names[j])
    ensures wrong.Some? <==> Blocked(box, hosts, host, path, want)
    ensures wrong.Some? ==> Blocks(box, hosts, host, path, want, names, names[wrong.value])
  {
    SweepKeeps(box, hosts, host, path, want);
    forall j | 0 <= j < |names|
      ensures Foreign(box, hosts, host, path, want, names[j])
              <==> Unreceipted(swept, Servers(hosts, host), path, want, names[j])
    {
      assert names[j] in want;
    }
    if wrong.Some? {
      assert names[wrong.value] in want;
    }
  }

  /** The decisions of an install on the loaded files, before anything is written. */
  method Draft(box: map<Name, Value>, hosts: map<Host, HostState>, host: Host, path: Path, want: map<Name, Value>,
               names: seq<Name>)
    returns (container: map<Name, Value>, servers: map<Name, Receipt>, idle: bool, culprit: Option<Name>)
    requires IsWant(want) && NamesOf(names, want) && Distinct(names)
    ensures culprit.Some? <==> Blocked(box, hosts, host, path, want)
    ensures culprit.Some? ==> Blocks(box, hosts, host, path, want, names, culprit.value)
    ensures culprit.None? ==>
              container == Swept(box, hosts, host, path) + want
    ensures culprit.None? ==> servers == Servers(hosts, host) + NewReceipts(box, path, want)
    ensures culprit.None? ==> (idle <==> Changed(box, want) == {} && !LegacyOwned(box, hosts, host, path))
  {
    container, servers := box, Servers(hosts, host);
    var removedLegacy := false;
    if Look(container, LegacyBuild) != Null {
      if !LegacyOwned(container, hosts, host, path) {
        return container, servers, false, Some(LegacyBuild);
      }
      container := container - {LegacyBuild};
      removedLegacy := true;
    }
    SweepKeeps(box, hosts, host, path, want);
    ghost var container0 := container;
    FilledAll(container, names, want);
    TakenAll(container, servers, names, path, want);
    var installed, wrong;
    container, servers, installed, wrong := Configure(container, servers, names, path, want);
    LoopVerdict(box, container0, hosts, host, path, want, names, wrong);
    if wrong.Some? {
      return container, servers, false, Some(names[wrong.value]);
    }
    NothingChanged(container0, names, want);
    return container, servers, installed == 0 && !removedLegacy, None;
  }

  class HostFiles {
    var configs: map<Path, File>
    var backups: map<Path, File>
    var state: StateFile

    ghost function Now(): Disk
      reads this
    {
      Disk(configs, backups, state)
    }

    /** Everything an install decides before its first write. */
    method Judge(host: Host, path: Path, want: map<Name, Value>, dryRun: bool)
      returns (status: Status, culprit: Option<Name>, container: map<Name, Value>, servers: map<Name, Receipt>)
      requires IsWant(want)
      ensures status == InstallStatus(Now(), host, path, want, dryRun)
      ensures culprit.Some? <==> status == Conflict
      ensures status == Conflict ==>
                Blocks(Box(Load(configs, path).value, host), Hosts(state), host, path, want, NAMES, culprit.value)
      ensures status == Configured ==>
                var box, hosts := Box(Load(configs, path).value, host), Hosts(state);
                && container == Swept(box, hosts, host, path) + want
                && servers == Servers(hosts, host) + NewReceipts(box, path, want)
    {
      container, servers, culprit := map[], map[], None;
      var loaded := Load(configs, path);
      if loaded.None? || state.Unsupported? {
        status := Raised;
      } else if !BoxOk(loaded.value, host) {
        status := NotAnObject;
      } else {
        var idle;
        CoveringNames(want);
        container, servers, idle, culprit := Draft(Box(loaded.value, host), Hosts(state), host, path, want, NAMES);
        status := if culprit.Some? then Conflict else if dryRun then WouldChange
                  else if idle then AlreadyConfigured else Configured;
      }
    }

    /** install_host: a call either writes backup, configuration and receipts, or nothing. */
    method Install(host: Host, path: Path, want: map<Name, Value>, dryRun: bool)
      returns (status: Status, culprit: Option<Name>)
      requires IsWant(want)
      modifies this
      ensures StatusWritten(old(Now()), host, path, want, dryRun, status)
      ensures if status == Configured then ConfiguredAs(old(Now()), host, path, want, Now()) else Now() == old(Now())
      ensures status == Configured && path in old(configs) ==>
                path in backups
                && backups[path] == if path in old(backups) then old(backups)[path] else old(configs)[path]
      ensures forall p | p != path || p !in old(configs) ::
                (p in backups <==> p in old(backups)) && (p in backups ==> backups[p] == old(backups)[p])
      ensures status == InstallStatus(old(Now()), host, path, want, dryRun)
      ensures Now() == if status == Configured then InstallDisk(old(Now()), host, path, want, Whole) else old(Now())
      ensures culprit.Some? <==> status == Conflict
      ensures status == Conflict ==>
                Blocks(Box(Load(old(configs), path).value, host), Hosts(old(state)), host, path, want, NAMES,
                       culprit.value)
    {
      ghost var d := Now();
      status, culprit := Perform(host, path, want, dryRun);
      StatusIsWritten(d, host, path, want, dryRun);
      if status == Configured {
        DiskIsWritten(d, host, path, want);
      }
    }

    method Perform(host: Host, path: Path, want: map<Name, Value>, dryRun: bool)
      returns (status: Status, culprit: Option<Name>)
      requires IsWant(want)
      modifies this
      ensures status == InstallStatus(old(Now()), host, path, want, dryRun)
      ensures Now() == if status == Configured then InstallDisk(old(Now()), host, path, want, Whole) else old(Now())
      ensures culprit.Some? <==> status == Conflict
      ensures status == Conflict ==>
                Blocks(Box(Load(old(configs), path).value, host), Hosts(old(state)), host, path, want, NAMES,
                       culprit.value)
    {
      var container, servers;
      status, culprit, container, servers := Judge(host, path, want, dryRun);
      if status == Configured {
        WholeInstall(Now(), host, path, want, container, servers);
        if path in configs && path !in backups {
          backups := backups[path := configs[path]];
        }
        var config := Load(configs, path).value;
        var base := config[ContainerKey(host) := Object(container)];
        var addressed := if host == Opencode && config == map[] then base[SchemaKey := SchemaAddress] else base;
        configs := configs[path := Config(addressed)];
        state := V2(Hosts(state)[host := HostState(servers, None)]);
      }
    }

    /** uninstall_host: it removes everything it finds under its names, or nothing. */
    method Uninstall(host: Host, path: Path, dryRun: bool) returns (result: Removal)
      modifies this
      ensures RemovalWritten(old(Now()), host, path, dryRun, result)
      ensures if result == Removed then RemovedAs(old(Now()), host, path, Now()) else Now() == old(Now())
      ensures result == RemovalStatus(old(Now()), host, path, dryRun)
      ensures Now() == if result == Removed then RemovalDisk(old(Now()), host, path, Whole) else old(Now())
    {
      ghost var d := Now();
      result := Remove(host, path, dryRun);
      RemovalIsWritten(d, host, path, dryRun);
      if result == Removed {
        RemovalDiskIsWritten(d, host, path);
      }
    }

    method Remove(host: Host, path: Path, dryRun: bool) returns (result: Removal)
      modifies this
      ensures result == RemovalStatus(old(Now()), host, path, dryRun)
      ensures Now() == if result == Removed then RemovalDisk(old(Now()), host, path, Whole) else old(Now())
    {
      var loaded := Load(configs, path);
      if loaded.None? || state.Unsupported? {
        return RemovalRaised;
      }
      var config, hosts := loaded.value, Hosts(state);
      var box := Box(config, host);
      if LegacyForeign(box, hosts, host, path) {
        return Refused;
      }
      var swept := if Look(box, LegacyBuild) != Null then box - {LegacyBuild} else box;
      var container, receipts, refused := Strip(swept, Servers(hosts, host), NAMES, path);
      SweptParts(box, swept, Servers(hosts, host), path);
      if refused {
        return Refused;
      }
      if dryRun {
        return WouldRemove;
      }
      if Present(box) == {} {
        return NotManaged;
      }
      configs := configs[path := Config(if container == map[] then config - {ContainerKey(host)}
                                        else config[ContainerKey(host) := Object(container)])];
      state := V2(if host !in hosts then hosts
                  else if receipts == map[] then hosts - {host}
                  else hosts[host := hosts[host].(servers := receipts)]);
      return Removed;
    }
  }
}
