/**
 onedriveui/config.py: what each problem that `validate` lists says of the configuration, and which
 configurations have none.
 */
module ConfigProblems {
  import opened Basics
  import opened ConfigNames
  import opened Units
  import opened ConfigRules
  import opened ConfigClamp
  import opened ConfigRepairs

  // ---------------------------------------------------------------------------------------------
  // Lists of checks

  lemma InIf(bad: bool, q: Problem, p: Problem)
    ensures p in If(bad, q) <==> bad && p == q
  {
  }

  lemma {:induction false} InMore(parts: seq<seq<Problem>>, part: seq<Problem>, p: Problem)
    ensures p in Join(parts + [part]) <==> p in Join(parts) || p in part
  {
    JoinMore(parts, part);
  }

  lemma InTwo(a: seq<Problem>, b: seq<Problem>, p: Problem)
    ensures p in Join([a, b]) <==> p in a || p in b
  {
    InJoin([a, b], p);
    var parts := [a, b];
    assert p in Join(parts) <==> p in parts[0] || p in parts[1];
  }

  lemma InThree(a: seq<Problem>, b: seq<Problem>, c: seq<Problem>, p: Problem)
    ensures p in Join([a, b, c]) <==> p in a || p in b || p in c
  {
    hide Join;
    InTwo(a, b, p);
    InMore([a, b], c, p);
    assert [a, b] + [c] == [a, b, c];
  }

  lemma InFour(a: seq<Problem>, b: seq<Problem>, c: seq<Problem>, d: seq<Problem>, p: Problem)
    ensures p in Join([a, b, c, d]) <==> p in a || p in b || p in c || p in d
  {
    hide Join;
    InThree(a, b, c, p);
    InMore([a, b, c], d, p);
    assert [a, b, c] + [d] == [a, b, c, d];
  }

  lemma InFive(a: seq<Problem>, b: seq<Problem>, c: seq<Problem>, d: seq<Problem>, e: seq<Problem>, p: Problem)
    ensures p in Join([a, b, c, d, e]) <==> p in a || p in b || p in c || p in d || p in e
  {
    hide Join;
    InFour(a, b, c, d, p);
    InMore([a, b, c, d], e, p);
    assert [a, b, c, d] + [e] == [a, b, c, d, e];
  }

  // ---------------------------------------------------------------------------------------------
  // What the problems of one section say

  ghost predicate AdvancedWrong(p: Problem, a: Advanced) {
    match p
    case BadPorts => !FreePorts(a.ports)
    case LogDaysTooFew => a.keepLogsDays < 1
    case TickNotPositive => a.tickActive < 1 || a.tickIdle < 1
    case TickNotFaster => a.tickIdle < a.tickActive
    case _ => false
  }

  lemma AdvancedSays(a: Advanced, p: Problem)
    ensures p in Join(AdvancedChecks(a)) <==> AdvancedWrong(p, a)
  {
    assert PortsOk(a.ports) <==> FreePorts(a.ports);
    hide Join, If, PortsOk, FreePorts;
    var c := AdvancedChecks(a);
    InFour(c[0], c[1], c[2], c[3], p);
    InIf(!PortsOk(a.ports), BadPorts, p);
    InIf(a.keepLogsDays < 1, LogDaysTooFew, p);
    InIf(a.tickActive < 1 || a.tickIdle < 1, TickNotPositive, p);
    InIf(a.tickActive > a.tickIdle, TickNotFaster, p);
  }

  ghost predicate MountWrong(p: Problem, m: Mount) {
    match p
    case TransfersTooMany => 4 < m.transfers
    case TransfersTooFew => m.transfers < 1
    case CheckersTooMany => 8 < m.checkers
    case CheckersTooFew => m.checkers < 1
    case PollTooSlow => m.dirCacheTime <= m.pollInterval
    case PollTooFew => m.pollInterval < 1
    case StreamsNotZero => m.readChunkStreams != 0
    case TpslimitNotPositive => m.tpslimit <= 0.0
    case CacheTooSmall => m.cacheMaxSize < 1
    case ReadChunkTooSmall => m.readChunkSize < 1
    case ArgBanned(arg) => arg in m.extraArgs && Lower(Token(arg)) == "--inplace"
    case ArgIsBackend(arg) => arg in m.extraArgs && ("--onedrive-" <= Token(arg) || "--drive-" <= Token(arg))
    case _ => false
  }

  ghost predicate ArgWrong(p: Problem, arg: string) {
    || (p == ArgBanned(arg) && Lower(Token(arg)) == "--inplace")
    || (p == ArgIsBackend(arg) && ("--onedrive-" <= Token(arg) || "--drive-" <= Token(arg)))
  }

  lemma ArgSays(arg: string, p: Problem)
    ensures p in Join(ArgChecks(arg)) <==> ArgWrong(p, arg)
  {
    hide Join, Token, Lower;
    var c := ArgChecks(arg);
    InThree(c[0], c[1], c[2], p);
  }

  lemma {:induction false} ArgsSay(args: seq<string>, p: Problem)
    ensures p in ArgProblems(args) <==> exists arg :: arg in args && ArgWrong(p, arg)
  {
    hide ArgChecks, Join, ArgWrong;
    if args != [] {
      var n := |args| - 1;
      ArgsSay(args[..n], p);
      ArgSays(args[n], p);
      assert args == args[..n] + [args[n]];
    }
  }

  lemma ArgsWrong(m: Mount, p: Problem)
    ensures p in ArgProblems(m.extraArgs) <==> (p.ArgBanned? || p.ArgIsBackend?) && MountWrong(p, m)
  {
    hide ArgProblems, Token, Lower;
    ArgsSay(m.extraArgs, p);
    if p.ArgBanned? || p.ArgIsBackend? {
      assert (exists arg :: arg in m.extraArgs && ArgWrong(p, arg)) <==> p.arg in m.extraArgs && ArgWrong(p, p.arg);
    }
  }

  lemma MountSays(m: Mount, p: Problem)
    ensures p in Join(MountChecks(m)) <==> MountWrong(p, m)
  {
    ArgsWrong(m, p);
    NumbersSay(m, p);
    hide Join, If, ArgProblems, Token, Lower;
    var c := MountChecks(m);
    InMore(c[..10], c[10], p);
    assert c == c[..10] + [c[10]];
  }

  lemma NumbersSay(m: Mount, p: Problem)
    ensures p in Join(MountChecks(m)[..10]) <==> !p.ArgBanned? && !p.ArgIsBackend? && MountWrong(p, m)
  {
    ThreadsSay(m, p);
    hide Join, If, ArgProblems, Token, Lower;
    var c := MountChecks(m);
    InPrefix(c, 5, p);
    InPrefix(c, 6, p);
    InPrefix(c, 7, p);
    InPrefix(c, 8, p);
    InPrefix(c, 9, p);
    ChunksSay(m, p);
    hide MountChecks;
  }

  lemma ChunksSay(m: Mount, p: Problem)
    ensures |MountChecks(m)| == 11
    ensures var c := MountChecks(m);
      p in c[5] || p in c[6] || p in c[7] || p in c[8] || p in c[9] <==>
        && (p.PollTooFew? || p.StreamsNotZero? || p.TpslimitNotPositive? || p.CacheTooSmall? || p.ReadChunkTooSmall?)
        && MountWrong(p, m)
  {
    hide If, ArgProblems, Token, Lower;
    InIf(m.pollInterval < 1, PollTooFew, p);
    InIf(m.readChunkStreams != 0, StreamsNotZero, p);
    InIf(m.tpslimit <= 0.0, TpslimitNotPositive, p);
    InIf(m.cacheMaxSize < 1, CacheTooSmall, p);
    InIf(m.readChunkSize < 1, ReadChunkTooSmall, p);
  }

  lemma ThreadsSay(m: Mount, p: Problem)
    ensures p in Join(MountChecks(m)[..5]) <==>
      && (p.TransfersTooMany? || p.TransfersTooFew? || p.CheckersTooMany? || p.CheckersTooFew? || p.PollTooSlow?)
      && MountWrong(p, m)
  {
    hide Join, If, ArgProblems, Token, Lower;
    var c := MountChecks(m);
    InIf(m.transfers > MAX_TRANSFERS, TransfersTooMany, p);
    InIf(m.transfers < 1, TransfersTooFew, p);
    InIf(m.checkers > MAX_CHECKERS, CheckersTooMany, p);
    InIf(m.checkers < 1, CheckersTooFew, p);
    InIf(m.pollInterval >= m.dirCacheTime, PollTooSlow, p);
    InFive(c[0], c[1], c[2], c[3], c[4], p);
    assert c[..5] == [c[0], c[1], c[2], c[3], c[4]];
  }

  lemma InPrefix(c: seq<seq<Problem>>, i: nat, p: Problem)
    requires i < |c|
    ensures p in Join(c[..i + 1]) <==> p in Join(c[..i]) || p in c[i]
  {
    hide Join;
    InMore(c[..i], c[i], p);
    assert c[..i + 1] == c[..i] + [c[i]];
  }

  ghost predicate BackendWrong(p: Problem, b: Backend, personal: bool) {
    match p
    case ChunkSizeUnreadable => ParseSize(b.chunkSize) == NotASize
    case ChunkSizeNotMultiple =>
      ParseSize(b.chunkSize) != NotASize
      && !exists n: int :: ParseSize(b.chunkSize) == Size(n) && n > 0 && n % 327_680 == 0
    case CutoffUnreadable => ParseSize(b.uploadCutoff) == NotASize
    case NoVersionsOnPersonal => personal && b.noVersions
    case HardDeleteOnPersonal => personal && b.hardDelete
    case _ => false
  }

  lemma BackendSays(b: Backend, personal: bool, p: Problem)
    ensures p in Join(BackendChecks(b, personal)) <==> BackendWrong(p, b, personal)
  {
    hide Join, ParseSize;
    var c := BackendChecks(b, personal);
    InFive(c[0], c[1], c[2], c[3], c[4], p);
    var size := ParseSize(b.chunkSize);
    assert ChunkSizeOk(b.chunkSize) ==> size == Size(size.value);
  }

  /** A path with its home directory; a blank one stands for its default. */
  function Place(text: string, byDefault: string, world: World): string {
    match world.expand(if text == "" then byDefault else text)
    case Returned(path) => path
    case Threw => ""
  }

  /** A blank sync root, or a blank offline folder, is judged as its default is. */
  lemma BlankMeansDefault(acc: Account, world: World)
    ensures var given := acc.(syncRoot := if acc.syncRoot == "" then "~/OneDrive" else acc.syncRoot,
      offline := acc.offline.(localPath := if acc.offline.localPath == "" then "~/OneDrive-Offline"
                                           else acc.offline.localPath));
      && CheckThrows(acc, world) == CheckThrows(given, world)
      && Join(OwnChecks(acc, world)) == Join(OwnChecks(given, world))
  {
    var given := acc.(syncRoot := RootText(acc), offline := acc.offline.(localPath := OfflineText(acc.offline)));
    assert RootText(given) == RootText(acc) && OfflineText(given.offline) == OfflineText(acc.offline);
    hide RootText, OfflineText, Expanded, If, OneOf;
    assert PathChecks(acc, world) == PathChecks(given, world);
    assert ChoiceChecks(acc) == ChoiceChecks(given);
    assert OfflineChecks(acc.offline, world) == OfflineChecks(given.offline, world);
    hide Join, MountChecks, BackendChecks, ChoiceChecks, BandwidthChecks, SafetyChecks, FilesChecks;
    hide OnDemandChecks, VaultChecks, UiChecks, PathThrows, PathChecks, OfflineChecks;
    assert OwnChecks(acc, world) == OwnChecks(given, world);
  }

  ghost predicate PathWrong(p: Problem, acc: Account, world: World) {
    var root := Place(acc.syncRoot, "~/OneDrive", world);
    var offline := Place(acc.offline.localPath, "~/OneDrive-Offline", world);
    match p
    case RootRelative => !world.absolute(root)
    case RootUnderMount => world.underMount(root) == Returned(true)
    case OfflineEnabled => acc.offline.enabled
    case OfflineNotDisjoint =>
      acc.offline.enabled && (offline == root || world.within(offline, root) || world.within(root, offline))
    case OfflineUnderMount => acc.offline.enabled && world.underMount(offline) == Returned(true)
    case _ => false
  }

  lemma PathSays(acc: Account, world: World, p: Problem)
    ensures p in Join(PathChecks(acc, world)) <==> PathWrong(p, acc, world)
  {
    hide Join;
    var c := PathChecks(acc, world);
    InFive(c[0], c[1], c[2], c[3], c[4], p);
  }

  ghost predicate BandwidthWrong(p: Problem, b: Bandwidth) {
    match p
    case DownloadOutOfRange => b.downloadKb.Some? && !(50 <= b.downloadKb.value <= 100_000)
    case UploadOutOfRange => b.uploadKb.Some? && !(50 <= b.uploadKb.value <= 100_000)
    case PercentOutOfRange => !(1 <= b.autoPercent <= 100)
    case DownloadUnset => b.limitDownload && b.downloadKb == None
    case UploadUnset => b.uploadMode == "limit" && b.uploadKb == None
    case _ => false
  }

  lemma BandwidthSays(b: Bandwidth, p: Problem)
    ensures p in Join(BandwidthChecks(b)) <==> BandwidthWrong(p, b)
  {
    hide Join;
    var c := BandwidthChecks(b);
    InFive(c[0], c[1], c[2], c[3], c[4], p);
  }

  ghost predicate LimitWrong(p: Problem, s: Safety, f: Files, d: OnDemand, v: Vault, u: Ui) {
    match p
    case MassDeleteOutOfRange => !(0 <= s.massDelete <= 100_000)
    case RefusalTurnedOff => !s.refuseUnderMount
    case DiskSpaceNegative => s.minDisk < 0 || s.warnDisk < 0
    case FileTooLarge => 250_000_000_000 < f.maxBytes
    case RelPathTooLong => 400 < f.maxRelChars
    case TotalPathTooLong => 520 < f.maxTotalChars
    case HydrateOutOfRange => !(1 <= d.hydrate <= 4)
    case FreeUpTooSoon => d.freeUpDays.Some? && d.freeUpDays.value < 1
    case VaultLockNotOffered => v.lockMinutes !in {20, 60, 120, 240}
    case VaultWarnNegative => v.warnMinutes < 0
    case WidthTooSmall => u.width < 200
    case RowsTooFew => u.rows < 1
    case _ => false
  }

  lemma SafetySays(s: Safety, p: Problem)
    ensures p in Join(SafetyChecks(s)) <==>
      || (p == MassDeleteOutOfRange && !(0 <= s.massDelete <= 100_000))
      || (p == RefusalTurnedOff && !s.refuseUnderMount)
      || (p == DiskSpaceNegative && (s.minDisk < 0 || s.warnDisk < 0))
  {
    hide Join;
    InThree(SafetyChecks(s)[0], SafetyChecks(s)[1], SafetyChecks(s)[2], p);
  }

  lemma FilesSay(f: Files, p: Problem)
    ensures p in Join(FilesChecks(f)) <==>
      || (p == FileTooLarge && 250_000_000_000 < f.maxBytes) || (p == RelPathTooLong && 400 < f.maxRelChars)
      || (p == TotalPathTooLong && 520 < f.maxTotalChars)
  {
    hide Join;
    InThree(FilesChecks(f)[0], FilesChecks(f)[1], FilesChecks(f)[2], p);
  }

  lemma PairsSay(d: OnDemand, v: Vault, u: Ui, p: Problem)
    ensures p in Join(OnDemandChecks(d)) <==>
      || (p == HydrateOutOfRange && !(1 <= d.hydrate <= 4))
      || (p == FreeUpTooSoon && d.freeUpDays.Some? && d.freeUpDays.value < 1)
    ensures p in Join(VaultChecks(v)) <==>
      || (p == VaultLockNotOffered && v.lockMinutes !in {20, 60, 120, 240})
      || (p == VaultWarnNegative && v.warnMinutes < 0)
    ensures p in Join(UiChecks(u)) <==> (p == WidthTooSmall && u.width < 200) || (p == RowsTooFew && u.rows < 1)
  {
    hide Join;
    InTwo(OnDemandChecks(d)[0], OnDemandChecks(d)[1], p);
    InTwo(VaultChecks(v)[0], VaultChecks(v)[1], p);
    InTwo(UiChecks(u)[0], UiChecks(u)[1], p);
  }

  lemma LimitsSay(s: Safety, f: Files, d: OnDemand, v: Vault, u: Ui, p: Problem)
    ensures p in Join(SafetyChecks(s)) || p in Join(FilesChecks(f)) || p in Join(OnDemandChecks(d))
            || p in Join(VaultChecks(v)) || p in Join(UiChecks(u))
       <==> LimitWrong(p, s, f, d, v, u)
  {
    hide Join, SafetyChecks, FilesChecks, OnDemandChecks, VaultChecks, UiChecks;
    SafetySays(s, p);
    FilesSay(f, p);
    PairsSay(d, v, u, p);
  }

  ghost predicate OfflineWrong(p: Problem, o: Offline, world: World) {
    match p
    case ScheduleTooFew => o.schedule < 1
    case MaxDeleteOutOfRange => !(0 <= o.maxDelete <= 100)
    case MaxLockUnreadable => LockMinutes(o.maxLock, world) == None
    case MaxLockTooShort => exists t :: LockMinutes(o.maxLock, world) == Some(t) && t < 2.0
    case CheckFilenameBlank => o.checkAccess && Blank(o.checkFilename)
    case _ => false
  }

  lemma OfflineSays(o: Offline, world: World, p: Problem)
    ensures p in Join(OfflineChecks(o, world)) <==> OfflineWrong(p, o, world)
  {
    BlankIff(o.checkFilename);
    hide Join, LockMinutes, Strip;
    var c := OfflineChecks(o, world);
    InFive(c[0], c[1], c[2], c[3], c[4], p);
    var minutes := LockMinutes(o.maxLock, world);
    assert minutes.Some? ==> minutes == Some(minutes.value);
  }

  /** A value outside its enumeration, under the key of that enumeration. */
  ghost predicate ChoiceWrong(p: Problem, a: Account) {
    || Outside(p, Key(AccountHead, Kind), a.kind, KINDS)
    || Outside(p, Key(BackendHead, LinkScope), a.backend.linkScope, SCOPES)
    || Outside(p, Key(BackendHead, LinkType), a.backend.linkType, LINK_TYPES)
    || Outside(p, Key(BackendHead, MetadataPermissions), a.backend.metadataPermissions, PERMISSIONS)
    || Outside(p, Key(BandwidthHead, UploadMode), a.bandwidth.uploadMode, UPLOAD_MODES)
    || Outside(p, Key(FilesHead, NamePolicy), a.files.namePolicy, NAME_POLICIES)
    || Outside(p, Key(ConflictsHead, Policy), a.modes.conflicts, CONFLICT_POLICIES)
    || Outside(p, Key(SelectiveHead, Mode), a.modes.selective, SELECTIVE_MODES)
    || Outside(p, Key(KfmHead, Method), a.modes.kfm, KFM_METHODS)
    || Outside(p, Key(OfflineHead, ConflictResolve), a.offline.resolve, RESOLVES)
    || Outside(p, Key(OfflineHead, ConflictLoser), a.offline.loser, LOSERS)
    || Outside(p, Key(SharingHead, DefaultScope), a.modes.sharingScope, SCOPES)
    || Outside(p, Key(SharingHead, DefaultType), a.modes.sharingType, LINK_TYPES)
    || Outside(p, Key(VaultHead, VaultBackend), a.vault.backend, VAULT_BACKENDS)
  }

  ghost predicate Outside(p: Problem, key: Dotted, value: string, allowed: seq<string>) {
    p == NotAChoice(key, value) && value !in allowed
  }

  lemma InOneOf(key: Dotted, value: string, allowed: seq<string>, p: Problem)
    ensures p in OneOf(key, value, allowed) <==> Outside(p, key, value, allowed)
  {
  }

  lemma ChoicesSay(a: Account, p: Problem)
    ensures p in Join(ChoiceChecks(a)) <==> ChoiceWrong(p, a)
  {
    assert p !in Join([]);
    hide Join, OneOf, Outside, KINDS, SCOPES, LINK_TYPES, PERMISSIONS, UPLOAD_MODES, NAME_POLICIES, CONFLICT_POLICIES;
    hide SELECTIVE_MODES, KFM_METHODS, RESOLVES, LOSERS, VAULT_BACKENDS;
    forall key, value, allowed ensures p in OneOf(key, value, allowed) <==> Outside(p, key, value, allowed) {
      InOneOf(key, value, allowed, p);
    }
    var c := ChoiceChecks(a);
    InSeven([], c[..7], p);
    InSeven(c[..7], c[7..], p);
    assert [] + c[..7] == c[..7] && c == c[..7] + c[7..];
  }

  /** The last seven of a list of checks. */
  lemma InSeven(before: seq<seq<Problem>>, c: seq<seq<Problem>>, p: Problem)
    requires |c| == 7
    ensures p in Join(before + c) <==>
      || p in Join(before) || p in c[0] || p in c[1] || p in c[2] || p in c[3] || p in c[4] || p in c[5] || p in c[6]
  {
    hide Join;
    var all, n := before + c, |before|;
    InPrefix(all, n, p);
    InPrefix(all, n + 1, p);
    InPrefix(all, n + 2, p);
    InPrefix(all, n + 3, p);
    InPrefix(all, n + 4, p);
    InPrefix(all, n + 5, p);
    InPrefix(all, n + 6, p);
    assert all[..n] == before && all[..n + 7] == all;
  }

  // ---------------------------------------------------------------------------------------------
  // What the problems of an account, and of the configuration, say

  ghost predicate AccountWrong(p: Problem, a: Account, world: World) {
    || (p == RemoteEmpty && a.remote == "")
    || (p == RemoteHasColon(a.remote) && ':' in a.remote)
    || MountWrong(p, a.mount)
    || BackendWrong(p, a.backend, a.kind == "personal" || a.driveType == Some("personal"))
    || PathWrong(p, a, world) || ChoiceWrong(p, a) || BandwidthWrong(p, a.bandwidth)
    || LimitWrong(p, a.safety, a.files, a.onDemand, a.vault, a.ui) || OfflineWrong(p, a.offline, world)
  }

  lemma OwnSays(a: Account, world: World, p: Problem)
    ensures p in Join(OwnChecks(a, world)) <==> AccountWrong(p, a, world)
  {
    hide Join, If, MountChecks, BackendChecks, PathChecks, ChoiceChecks, BandwidthChecks, SafetyChecks, FilesChecks;
    hide OnDemandChecks, VaultChecks, OfflineChecks, UiChecks, MountWrong, BackendWrong, PathWrong, ChoiceWrong;
    hide BandwidthWrong, LimitWrong, OfflineWrong;
    var c := OwnChecks(a, world);
    InIf(a.remote == "", RemoteEmpty, p);
    InIf(a.remote != "" && ':' in a.remote, RemoteHasColon(a.remote), p);
    MountSays(a.mount, p);
    BackendSays(a.backend, PersonalDrive(a), p);
    PathSays(a, world, p);
    ChoicesSay(a, p);
    BandwidthSays(a.bandwidth, p);
    LimitsSay(a.safety, a.files, a.onDemand, a.vault, a.ui, p);
    OfflineSays(a.offline, world, p);
    InThirteen(c, p);
  }

  lemma InThirteen(c: seq<seq<Problem>>, p: Problem)
    requires |c| == 13
    ensures p in Join(c) <==>
      || p in c[0] || p in c[1] || p in c[2] || p in c[3] || p in c[4] || p in c[5] || p in c[6] || p in c[7]
      || p in c[8] || p in c[9] || p in c[10] || p in c[11] || p in c[12]
  {
    assert p !in Join([]);
    hide Join;
    InPrefix(c, 0, p);
    InPrefix(c, 1, p);
    InPrefix(c, 2, p);
    InPrefix(c, 3, p);
    InPrefix(c, 4, p);
    InPrefix(c, 5, p);
    assert c[..0] == [] && c == c[..6] + c[6..];
    InSeven(c[..6], c[6..], p);
  }

  predicate EarlierId(accounts: seq<Account>, i: nat, id: string)
    requires i <= |accounts|
  {
    exists j :: 0 <= j < i && accounts[j].id == id
  }

  predicate EarlierRoot(accounts: seq<Account>, i: nat, root: string, world: World)
    requires i <= |accounts|
  {
    exists j :: 0 <= j < i && accounts[j].enabled && Root(accounts[j], world) == root
  }

  predicate EarlierRemote(accounts: seq<Account>, i: nat, remote: string)
    requires i <= |accounts|
  {
    exists j :: 0 <= j < i && accounts[j].enabled && accounts[j].remote == remote
  }

  /** Two accounts that may not both be there, reported at the later one. */
  ghost predicate ClashWrong(p: Problem, accounts: seq<Account>, i: nat, world: World)
    requires i < |accounts|
  {
    var a := accounts[i];
    match p
    case IdEmpty => a.id == ""
    case IdRepeated(id) => id == a.id && id != "" && EarlierId(accounts, i, id)
    case RootShared(root) => a.enabled && root == Root(a, world) && EarlierRoot(accounts, i, root, world)
    case RemoteShared(remote) =>
      a.enabled && remote == a.remote && remote != "" && EarlierRemote(accounts, i, remote)
    case _ => false
  }

  lemma BeforeHas(accounts: seq<Account>, i: nat, id: string, root: string, remote: string, world: World)
    requires i < |accounts|
    ensures HasId(accounts[..i], id) <==> EarlierId(accounts, i, id)
    ensures HasRoot(accounts[..i], root, world) <==> EarlierRoot(accounts, i, root, world)
    ensures HasRemote(accounts[..i], remote) <==> EarlierRemote(accounts, i, remote)
  {
    hide Root;
    var before := accounts[..i];
    assert forall j :: 0 <= j < i ==> before[j] == accounts[j] && before[j] in before;
    assert forall b :: b in before ==> exists j :: 0 <= j < i && accounts[j] == b;
  }

  lemma ClashSays(accounts: seq<Account>, i: nat, world: World, p: Problem)
    requires i < |accounts|
    ensures p in Join(ClashChecks(accounts[..i], accounts[i], world)) <==> ClashWrong(p, accounts, i, world)
  {
    hide Join, Root, If, HasId, HasRoot, HasRemote, EarlierId, EarlierRoot, EarlierRemote;
    var before, a := accounts[..i], accounts[i];
    var root := Root(a, world);
    BeforeHas(accounts, i, a.id, root, a.remote, world);
    var c := ClashChecks(before, a, world);
    InFour(c[0], c[1], c[2], c[3], p);
    InIf(a.id == "", IdEmpty, p);
    InIf(a.id != "" && HasId(before, a.id), IdRepeated(a.id), p);
    InIf(a.enabled && HasRoot(before, root, world), RootShared(root), p);
    InIf(a.enabled && a.remote != "" && HasRemote(before, a.remote), RemoteShared(a.remote), p);
  }

  ghost predicate SomeWrong(p: Problem, accounts: seq<Account>, world: World) {
    exists i :: 0 <= i < |accounts| && (ClashWrong(p, accounts, i, world) || AccountWrong(p, accounts[i], world))
  }

  lemma {:induction false} AccountsSay(accounts: seq<Account>, world: World, p: Problem)
    ensures p in AccountsProblems(accounts, world) <==> SomeWrong(p, accounts, world)
  {
    hide Join, ClashChecks, OwnChecks, AccountWrong, ClashWrong;
    if accounts != [] {
      var n := |accounts| - 1;
      AccountsSay(accounts[..n], world, p);
      ClashSays(accounts, n, world, p);
      OwnSays(accounts[n], world, p);
      forall i | 0 <= i < n ensures ClashWrong(p, accounts[..n], i, world) <==> ClashWrong(p, accounts, i, world) {
        SameClash(accounts, n, i, world, p);
      }
    }
  }

  lemma SameClash(accounts: seq<Account>, n: nat, i: nat, world: World, p: Problem)
    requires i < n <= |accounts|
    ensures ClashWrong(p, accounts[..n], i, world) <==> ClashWrong(p, accounts, i, world)
  {
    hide Root;
    assert forall j :: 0 <= j < n ==> accounts[..n][j] == accounts[j];
  }

  /** The problem is one of this configuration. */
  ghost predicate Wrong(p: Problem, c: Config, world: World) {
    || (p == WrongSchema && c.schemaVersion != 1)
    || AppWrong(p, c.app, c.advanced) || AdvancedWrong(p, c.advanced) || SomeWrong(p, c.accounts, world)
    || (p.ActiveUnknown? && c.app.active == Some(p.id) && p.id != ""
        && forall i :: 0 <= i < |c.accounts| ==> c.accounts[i].id != p.id)
  }

  ghost predicate AppWrong(p: Problem, app: App, adv: Advanced) {
    || Outside(p, Key(AppHead, Theme), app.theme, THEMES)
    || Outside(p, Key(AppHead, AccentSource), app.accentSource, ACCENTS)
    || Outside(p, Key(AppHead, Animations), app.animations, ANIMATIONS)
    || Outside(p, Key(AppHead, AutostartMethod), app.autostartMethod, AUTOSTARTS)
    || Outside(p, Key(AdvancedHead, LogLevel), adv.logLevel, LOG_LEVELS)
  }

  lemma AppSays(app: App, adv: Advanced, p: Problem)
    ensures p in Join(AppChecks(app, adv)) <==> AppWrong(p, app, adv)
  {
    hide Join, OneOf, Outside, THEMES, ACCENTS, ANIMATIONS, AUTOSTARTS, LOG_LEVELS;
    var c := AppChecks(app, adv);
    InFive(c[0], c[1], c[2], c[3], c[4], p);
    InOneOf(Key(AppHead, Theme), app.theme, THEMES, p);
    InOneOf(Key(AppHead, AccentSource), app.accentSource, ACCENTS, p);
    InOneOf(Key(AppHead, Animations), app.animations, ANIMATIONS, p);
    InOneOf(Key(AppHead, AutostartMethod), app.autostartMethod, AUTOSTARTS, p);
    InOneOf(Key(AdvancedHead, LogLevel), adv.logLevel, LOG_LEVELS, p);
  }

  /** `validate` lists exactly the problems there are. */
  lemma ListedIffWrong(c: Config, world: World, p: Problem)
    requires Validated(c, world).Returned?
    ensures p in Validated(c, world).value <==> Wrong(p, c, world)
  {
    hide Join, If, AppChecks, AdvancedChecks, AccountsProblems, AppWrong, AdvancedWrong, SomeWrong;
    var checks := Checks(c, world);
    InFive(checks[0], checks[1], checks[2], checks[3], checks[4], p);
    InIf(c.schemaVersion != CONFIG_SCHEMA_VERSION, WrongSchema, p);
    AppSays(c.app, c.advanced, p);
    AdvancedSays(c.advanced, p);
    AccountsSay(c.accounts, world, p);
    ActiveSays(c, p);
  }

  lemma ActiveSays(c: Config, p: Problem)
    ensures var id := if c.app.active.Some? then c.app.active.value else "";
      p in If(!ActiveOk(c.app.active, c.accounts), ActiveUnknown(id)) <==>
        p.ActiveUnknown? && c.app.active == Some(p.id) && p.id != ""
        && forall i :: 0 <= i < |c.accounts| ==> c.accounts[i].id != p.id
  {
    forall id ensures HasId(c.accounts, id) <==> exists i :: 0 <= i < |c.accounts| && c.accounts[i].id == id {
    }
  }

  /** A configuration is accepted exactly when nothing is wrong with it. */
  lemma AcceptedIff(c: Config, world: World)
    ensures Validated(c, world) == Returned([])
       <==> Validated(c, world).Returned? && forall p :: !Wrong(p, c, world)
  {
    hide Wrong, Validated;
    if Validated(c, world).Returned? {
      var found := Validated(c, world).value;
      forall p ensures p in found <==> Wrong(p, c, world) {
        ListedIffWrong(c, world, p);
      }
      if found != [] {
        assert found[0] in found;
      }
    }
  }
}
