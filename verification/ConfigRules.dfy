/**
 onedriveui/config.py: what `clamp` repairs and what `validate` refuses.  The records hold the keys
 that either of them reads.
 */
module ConfigRules {
  import opened Basics
  import opened ConfigNames
  import opened Units

  // ---------------------------------------------------------------------------------------------
  // The configuration

  datatype App = App(theme: string, accentSource: string, animations: string, autostartMethod: string,
                     active: Option<string>)

  datatype Advanced = Advanced(logLevel: string, ports: seq<int>, keepLogsDays: int, tickIdle: int, tickActive: int)

  datatype Mount = Mount(transfers: int, checkers: int, readChunkStreams: int, dirCacheTime: int, pollInterval: int,
                         cacheMaxSize: int, readChunkSize: int, tpslimit: real, extraArgs: seq<string>)

  datatype Backend = Backend(chunkSize: string, uploadCutoff: string, noVersions: bool, hardDelete: bool,
                             linkScope: string, linkType: string, metadataPermissions: string)

  datatype Bandwidth = Bandwidth(limitDownload: bool, downloadKb: Option<int>, uploadMode: string,
                                 uploadKb: Option<int>, autoPercent: int)

  datatype Safety = Safety(massDelete: int, refuseUnderMount: bool, minDisk: int, warnDisk: int)

  datatype Files = Files(namePolicy: string, maxBytes: int, maxRelChars: int, maxTotalChars: int)

  datatype OnDemand = OnDemand(hydrate: int, freeUpDays: Option<int>)

  datatype Vault = Vault(backend: string, lockMinutes: int, warnMinutes: int)

  datatype Offline = Offline(enabled: bool, localPath: string, schedule: int, maxDelete: int, resolve: string,
                             loser: string, checkAccess: bool, checkFilename: string, maxLock: string)

  datatype Ui = Ui(width: int, rows: int)

  /** The sections of which only an enumerated key is read. */
  datatype Modes = Modes(conflicts: string, selective: string, kfm: string, sharingScope: string, sharingType: string)

  datatype Account = Account(id: string, remote: string, kind: string, driveType: Option<string>, syncRoot: string,
                             enabled: bool, mount: Mount, backend: Backend, bandwidth: Bandwidth, safety: Safety,
                             files: Files, onDemand: OnDemand, vault: Vault, offline: Offline, ui: Ui, modes: Modes)

  datatype Config = Config(schemaVersion: int, app: App, advanced: Advanced, accounts: seq<Account>)

  /**
   What the rules ask of the machine: home directories, live mounts, and Python's `float`.  Looking a
   path up raises where the path cannot be one, as with a null character in it.
   */
  datatype World = World(expand: string -> Outcome<string>, absolute: string -> bool,
                         within: (string, string) -> bool, underMount: string -> Outcome<bool>,
                         otherFloat: string -> Option<real>)

  // ---------------------------------------------------------------------------------------------
  // Enumerations and limits

  const THEMES := ["system", "light", "dark"]
  const ACCENTS := ["onedrive", "system"]
  const ANIMATIONS := ["system", "on", "off"]
  const AUTOSTARTS := ["systemd", "xdg"]
  const LOG_LEVELS := ["DEBUG", "INFO", "WARNING"]
  const KINDS := ["personal", "business"]
  const SCOPES := ["anonymous", "organization", "users"]
  const LINK_TYPES := ["view", "edit", "embed"]
  const PERMISSIONS := ["off", "read", "read,write"]
  const UPLOAD_MODES := ["none", "auto", "limit"]
  const NAME_POLICIES := ["windows", "rclone"]
  const CONFLICT_POLICIES := ["ask", "keep_both"]
  const SELECTIVE_MODES := ["all", "subset"]
  const KFM_METHODS := ["move", "symlink"]
  const RESOLVES := ["newer", "older", "larger", "smaller", "none"]
  const LOSERS := ["num", "pathname", "delete"]
  const VAULT_BACKENDS := ["gocryptfs"]

  const CONFIG_SCHEMA_VERSION := 1
  const MAX_TRANSFERS := 4
  const MAX_CHECKERS := 8
  const DEFAULT_TPSLIMIT := 8.0
  const CHUNK_MULTIPLE := 327_680
  const DEFAULT_CHUNK_SIZE := "10M"
  const DEFAULT_PORTS := [17800, 17899]
  const FLOOR_KB := 50
  const CEIL_KB := 100_000
  const MAX_FILE_BYTES := 250_000_000_000
  const MAX_REL_CHARS := 400
  const MAX_TOTAL_CHARS := 520
  const MAX_LOCK_MIN := 2.0
  const DEFAULT_MAX_LOCK := "2m"

  predicate PortsOk(ports: seq<int>) {
    && |ports| == 2 && 1024 <= ports[0] <= ports[1] <= 65535
    && !(ports[0] <= 5572 <= ports[1]) && !(ports[0] <= 5573 <= ports[1]) && !(ports[0] <= 53682 <= ports[1])
  }

  /** `arg.split("=", 1)[0].strip()`. */
  function Token(arg: string): string {
    Strip(BeforeEquals(arg))
  }

  function BeforeEquals(arg: string): string {
    if arg == "" || arg[0] == '=' then "" else [arg[0]] + BeforeEquals(arg[1..])
  }

  predicate Inplace(token: string) {
    Lower(token) == "--inplace"
  }

  predicate BannedArg(arg: string) {
    Inplace(Token(arg)) || "--onedrive-" <= Token(arg) || "--drive-" <= Token(arg)
  }

  predicate ChunkSizeOk(text: string) {
    var size := ParseSize(text);
    size.Size? && size.value > 0 && size.value % CHUNK_MULTIPLE == 0
  }

  predicate PersonalDrive(acc: Account) {
    acc.kind == "personal" || acc.driveType == Some("personal")
  }

  predicate LockMinutesOk(minutes: int) {
    minutes == 20 || minutes == 60 || minutes == 120 || minutes == 240
  }

  /** Python's `float`: no text is no number, plain digits are a whole one, anything else is the machine's to say. */
  function FloatOf(text: string, world: World): Option<real> {
    if text == "" then None
    else if Run(text) == |text| then
      RunDigits(text, |text|);
      assert text[..|text|] == text;
      Some(NumberOf(text) as real)
    else world.otherFloat(text)
  }

  /** `_lock_minutes`. */
  function LockMinutes(text: string, world: World): Option<real> {
    var raw := Lower(Strip(text));
    if raw == "" then None
    else
      var last, body := raw[|raw| - 1], raw[..|raw| - 1];
      var number := if last == 's' || last == 'm' || last == 'h' then FloatOf(body, world) else FloatOf(raw, world);
      if number.None? then None
      else if last == 's' then Some(number.value / 60.0)
      else if last == 'h' then Some(number.value * 60.0)
      else Some(number.value)
  }

  predicate MaxLockOk(text: string, world: World) {
    var minutes := LockMinutes(text, world);
    minutes.Some? && minutes.value >= MAX_LOCK_MIN
  }

  // ---------------------------------------------------------------------------------------------
  // validate

  /** One entry of the problems list.  Those before `WrongSchema` are the ones `clamp` can repair. */
  datatype Problem =
    | BadPorts | LogDaysTooFew | TickNotPositive | TickNotFaster
    | TransfersTooMany | TransfersTooFew | CheckersTooMany | CheckersTooFew | PollTooSlow | PollTooFew
    | StreamsNotZero | TpslimitNotPositive | CacheTooSmall | ReadChunkTooSmall
    | ArgBanned(arg: string) | ArgIsBackend(arg: string)
    | ChunkSizeUnreadable | ChunkSizeNotMultiple | NoVersionsOnPersonal | HardDeleteOnPersonal
    | OfflineEnabled | OfflineNotDisjoint | OfflineUnderMount
    | DownloadOutOfRange | UploadOutOfRange | PercentOutOfRange
    | MassDeleteOutOfRange | RefusalTurnedOff | DiskSpaceNegative
    | FileTooLarge | RelPathTooLong | TotalPathTooLong
    | HydrateOutOfRange | FreeUpTooSoon | VaultLockNotOffered | VaultWarnNegative
    | ScheduleTooFew | MaxDeleteOutOfRange | MaxLockUnreadable | MaxLockTooShort
    | WidthTooSmall | RowsTooFew
    | WrongSchema | NotAChoice(key: Dotted, value: string)
    | IdEmpty | IdRepeated(id: string) | RootShared(root: string) | RemoteShared(remote: string)
    | RemoteEmpty | RemoteHasColon(remote: string)
    | CutoffUnreadable | RootRelative | RootUnderMount
    | DownloadUnset | UploadUnset | CheckFilenameBlank | ActiveUnknown(id: string)

  predicate Repairable(p: Problem) {
    match p
    case WrongSchema | NotAChoice(_, _) => false
    case IdEmpty | IdRepeated(_) | RootShared(_) | RemoteShared(_) | RemoteEmpty | RemoteHasColon(_) => false
    case CutoffUnreadable | RootRelative | RootUnderMount => false
    case DownloadUnset | UploadUnset | CheckFilenameBlank | ActiveUnknown(_) => false
    case _ => true
  }

  function If(bad: bool, p: Problem): seq<Problem> {
    if bad then [p] else []
  }

  /** The problems that several checks append, in turn. */
  function Join(parts: seq<seq<Problem>>): seq<Problem> {
    if parts == [] then [] else Join(parts[..|parts| - 1]) + parts[|parts| - 1]
  }

  function OneOf(key: Dotted, value: string, allowed: seq<string>): seq<Problem> {
    If(value !in allowed, NotAChoice(key, value))
  }

  function AppChecks(app: App, adv: Advanced): seq<seq<Problem>> {
    [
      OneOf(Key(AppHead, Theme), app.theme, THEMES),
      OneOf(Key(AppHead, AccentSource), app.accentSource, ACCENTS),
      OneOf(Key(AppHead, Animations), app.animations, ANIMATIONS),
      OneOf(Key(AppHead, AutostartMethod), app.autostartMethod, AUTOSTARTS),
      OneOf(Key(AdvancedHead, LogLevel), adv.logLevel, LOG_LEVELS)]
  }

  function AdvancedChecks(adv: Advanced): seq<seq<Problem>> {
    [
      If(!PortsOk(adv.ports), BadPorts),
      If(adv.keepLogsDays < 1, LogDaysTooFew),
      If(adv.tickActive < 1 || adv.tickIdle < 1, TickNotPositive),
      If(adv.tickActive > adv.tickIdle, TickNotFaster)]
  }

  function ArgChecks(arg: string): seq<seq<Problem>> {
    [
      If(Inplace(Token(arg)), ArgBanned(arg)),
      If("--onedrive-" <= Token(arg), ArgIsBackend(arg)),
      If("--drive-" <= Token(arg), ArgIsBackend(arg))]
  }

  function ArgProblems(args: seq<string>): seq<Problem> {
    if args == [] then [] else ArgProblems(args[..|args| - 1]) + Join(ArgChecks(args[|args| - 1]))
  }

  function MountChecks(m: Mount): seq<seq<Problem>> {
    [
      If(m.transfers > MAX_TRANSFERS, TransfersTooMany),
      If(m.transfers < 1, TransfersTooFew),
      If(m.checkers > MAX_CHECKERS, CheckersTooMany),
      If(m.checkers < 1, CheckersTooFew),
      If(m.pollInterval >= m.dirCacheTime, PollTooSlow),
      If(m.pollInterval < 1, PollTooFew),
      If(m.readChunkStreams != 0, StreamsNotZero),
      If(m.tpslimit <= 0.0, TpslimitNotPositive),
      If(m.cacheMaxSize < 1, CacheTooSmall),
      If(m.readChunkSize < 1, ReadChunkTooSmall),
      ArgProblems(m.extraArgs)]
  }

  function BackendChecks(b: Backend, personal: bool): seq<seq<Problem>> {
    [
      If(ParseSize(b.chunkSize).NotASize?, ChunkSizeUnreadable),
      If(!ParseSize(b.chunkSize).NotASize? && !ChunkSizeOk(b.chunkSize), ChunkSizeNotMultiple),
      If(ParseSize(b.uploadCutoff).NotASize?, CutoffUnreadable),
      If(personal && b.noVersions, NoVersionsOnPersonal),
      If(personal && b.hardDelete, HardDeleteOnPersonal)]
  }

  function RootText(acc: Account): string {
    if acc.syncRoot == "" then "~/OneDrive" else acc.syncRoot
  }

  function OfflineText(o: Offline): string {
    if o.localPath == "" then "~/OneDrive-Offline" else o.localPath
  }

  /** The path with its home directory, where that does not raise. */
  function Expanded(text: string, world: World): string {
    if world.expand(text).Returned? then world.expand(text).value else ""
  }

  predicate UnderMount(path: string, world: World) {
    world.underMount(path).Returned? && world.underMount(path).value
  }

  /** Expanding the path or comparing it with the mounts raises. */
  predicate PathThrows(text: string, world: World) {
    world.expand(text).Threw? || world.underMount(world.expand(text).value).Threw?
  }

  function Root(acc: Account, world: World): string {
    Expanded(RootText(acc), world)
  }

  function PathChecks(acc: Account, world: World): seq<seq<Problem>> {
    var root, offline := Root(acc, world), Expanded(OfflineText(acc.offline), world);
    [
      If(!world.absolute(root), RootRelative),
      If(UnderMount(root, world), RootUnderMount),
      If(acc.offline.enabled, OfflineEnabled),
      If(acc.offline.enabled && (offline == root || world.within(offline, root) || world.within(root, offline)),
         OfflineNotDisjoint),
      If(acc.offline.enabled && UnderMount(offline, world), OfflineUnderMount)]
  }

  function ChoiceChecks(acc: Account): seq<seq<Problem>> {
    [
      OneOf(Key(AccountHead, Kind), acc.kind, KINDS),
      OneOf(Key(BackendHead, LinkScope), acc.backend.linkScope, SCOPES),
      OneOf(Key(BackendHead, LinkType), acc.backend.linkType, LINK_TYPES),
      OneOf(Key(BackendHead, MetadataPermissions), acc.backend.metadataPermissions, PERMISSIONS),
      OneOf(Key(BandwidthHead, UploadMode), acc.bandwidth.uploadMode, UPLOAD_MODES),
      OneOf(Key(FilesHead, NamePolicy), acc.files.namePolicy, NAME_POLICIES),
      OneOf(Key(ConflictsHead, Policy), acc.modes.conflicts, CONFLICT_POLICIES),
      OneOf(Key(SelectiveHead, Mode), acc.modes.selective, SELECTIVE_MODES),
      OneOf(Key(KfmHead, Method), acc.modes.kfm, KFM_METHODS),
      OneOf(Key(OfflineHead, ConflictResolve), acc.offline.resolve, RESOLVES),
      OneOf(Key(OfflineHead, ConflictLoser), acc.offline.loser, LOSERS),
      OneOf(Key(SharingHead, DefaultScope), acc.modes.sharingScope, SCOPES),
      OneOf(Key(SharingHead, DefaultType), acc.modes.sharingType, LINK_TYPES),
      OneOf(Key(VaultHead, VaultBackend), acc.vault.backend, VAULT_BACKENDS)]
  }

  predicate RateOk(kb: Option<int>) {
    kb.None? || FLOOR_KB <= kb.value <= CEIL_KB
  }

  function BandwidthChecks(b: Bandwidth): seq<seq<Problem>> {
    [
      If(!RateOk(b.downloadKb), DownloadOutOfRange),
      If(!RateOk(b.uploadKb), UploadOutOfRange),
      If(!(1 <= b.autoPercent <= 100), PercentOutOfRange),
      If(b.limitDownload && b.downloadKb.None?, DownloadUnset),
      If(b.uploadMode == "limit" && b.uploadKb.None?, UploadUnset)]
  }

  function SafetyChecks(s: Safety): seq<seq<Problem>> {
    [
      If(!(0 <= s.massDelete <= 100_000), MassDeleteOutOfRange),
      If(!s.refuseUnderMount, RefusalTurnedOff),
      If(s.minDisk < 0 || s.warnDisk < 0, DiskSpaceNegative)]
  }

  /** Only the upper bounds: the lower bounds of `clamp` are not validated. */
  function FilesChecks(f: Files): seq<seq<Problem>> {
    [
      If(f.maxBytes > MAX_FILE_BYTES, FileTooLarge),
      If(f.maxRelChars > MAX_REL_CHARS, RelPathTooLong),
      If(f.maxTotalChars > MAX_TOTAL_CHARS, TotalPathTooLong)]
  }

  function OnDemandChecks(d: OnDemand): seq<seq<Problem>> {
    [
      If(!(1 <= d.hydrate <= MAX_TRANSFERS), HydrateOutOfRange),
      If(d.freeUpDays.Some? && d.freeUpDays.value < 1, FreeUpTooSoon)]
  }

  function VaultChecks(v: Vault): seq<seq<Problem>> {
    [
      If(!LockMinutesOk(v.lockMinutes), VaultLockNotOffered),
      If(v.warnMinutes < 0, VaultWarnNegative)]
  }

  function OfflineChecks(o: Offline, world: World): seq<seq<Problem>> {
    var minutes := LockMinutes(o.maxLock, world);
    [
      If(o.schedule < 1, ScheduleTooFew),
      If(!(0 <= o.maxDelete <= 100), MaxDeleteOutOfRange),
      If(minutes.None?, MaxLockUnreadable),
      If(minutes.Some? && minutes.value < MAX_LOCK_MIN, MaxLockTooShort),
      If(o.checkAccess && Strip(o.checkFilename) == "", CheckFilenameBlank)]
  }

  function UiChecks(u: Ui): seq<seq<Problem>> {
    [
      If(u.width < 200, WidthTooSmall),
      If(u.rows < 1, RowsTooFew)]
  }

  /** What is wrong with one account, whatever the others are. */
  function OwnChecks(acc: Account, world: World): seq<seq<Problem>> {
    [
      If(acc.remote == "", RemoteEmpty),
      If(acc.remote != "" && ':' in acc.remote, RemoteHasColon(acc.remote)),
      Join(MountChecks(acc.mount)),
      Join(BackendChecks(acc.backend, PersonalDrive(acc))),
      Join(PathChecks(acc, world)),
      Join(ChoiceChecks(acc)),
      Join(BandwidthChecks(acc.bandwidth)),
      Join(SafetyChecks(acc.safety)),
      Join(FilesChecks(acc.files)),
      Join(OnDemandChecks(acc.onDemand)),
      Join(VaultChecks(acc.vault)),
      Join(OfflineChecks(acc.offline, world)),
      Join(UiChecks(acc.ui))]
  }

  predicate HasId(accounts: seq<Account>, id: string) {
    exists a :: a in accounts && a.id == id
  }

  predicate HasRoot(accounts: seq<Account>, root: string, world: World) {
    exists a :: a in accounts && a.enabled && Root(a, world) == root
  }

  predicate HasRemote(accounts: seq<Account>, remote: string) {
    exists a :: a in accounts && a.enabled && a.remote == remote
  }

  /** What is wrong between an account and those before it. */
  function ClashChecks(before: seq<Account>, acc: Account, world: World): seq<seq<Problem>> {
    [
      If(acc.id == "", IdEmpty),
      If(acc.id != "" && HasId(before, acc.id), IdRepeated(acc.id)),
      If(acc.enabled && HasRoot(before, Root(acc, world), world), RootShared(Root(acc, world))),
      If(acc.enabled && acc.remote != "" && HasRemote(before, acc.remote), RemoteShared(acc.remote))]
  }

  function AccountsProblems(accounts: seq<Account>, world: World): seq<Problem> {
    if accounts == [] then []
    else
      var before, acc := accounts[..|accounts| - 1], accounts[|accounts| - 1];
      AccountsProblems(before, world) + Join(ClashChecks(before, acc, world)) + Join(OwnChecks(acc, world))
  }

  predicate ActiveOk(active: Option<string>, accounts: seq<Account>) {
    active.None? || active.value == "" || HasId(accounts, active.value)
  }

  function Checks(c: Config, world: World): seq<seq<Problem>> {
    [
      If(c.schemaVersion != CONFIG_SCHEMA_VERSION, WrongSchema),
      Join(AppChecks(c.app, c.advanced)),
      Join(AdvancedChecks(c.advanced)),
      AccountsProblems(c.accounts, world),
      If(!ActiveOk(c.app.active, c.accounts), ActiveUnknown(if c.app.active.Some? then c.app.active.value else ""))]
  }

  predicate Overflows(text: string) {
    ParseSize(text).Overflow?
  }

  predicate ChunkOverflows(acc: Account) {
    Overflows(acc.backend.chunkSize)
  }

  predicate RootThrows(acc: Account, world: World) {
    PathThrows(RootText(acc), world)
  }

  /** A size that overflows, or a path that cannot be looked up; the offline path only where it is used. */
  predicate CheckThrows(acc: Account, world: World) {
    || ChunkOverflows(acc) || Overflows(acc.backend.uploadCutoff) || RootThrows(acc, world)
    || (acc.offline.enabled && PathThrows(OfflineText(acc.offline), world))
  }

  /** `validate`, without the exception that carries the problems; what else raises comes first. */
  function Validated(c: Config, world: World): Outcome<seq<Problem>> {
    if exists a :: a in c.accounts && CheckThrows(a, world) then Threw else Returned(Join(Checks(c, world)))
  }

  // ---------------------------------------------------------------------------------------------
  // clamp

  function Max(a: int, b: int): int {
    if b > a then b else a
  }

  function Min(a: int, b: int): int {
    if b < a then b else a
  }

  function Within(lo: int, x: int, hi: int): int {
    Min(Max(lo, x), hi)
  }

  function ClampAdvanced(a: Advanced): Advanced {
    var idle := Max(1, a.tickIdle);
    a.(keepLogsDays := Max(1, a.keepLogsDays), tickIdle := idle, tickActive := Within(1, a.tickActive, idle),
       ports := if PortsOk(a.ports) then a.ports else DEFAULT_PORTS)
  }

  function SafeArgs(args: seq<string>): seq<string> {
    if args == [] then []
    else
      var n := |args| - 1;
      SafeArgs(args[..n]) + if BannedArg(args[n]) then [] else [args[n]]
  }

  function ClampMount(m: Mount): Mount {
    var cache := Max(2, m.dirCacheTime);
    Mount(Within(1, m.transfers, MAX_TRANSFERS), Within(1, m.checkers, MAX_CHECKERS), 0, cache,
          Within(1, m.pollInterval, cache - 1), Max(1, m.cacheMaxSize), Max(1, m.readChunkSize),
          if m.tpslimit <= 0.0 then DEFAULT_TPSLIMIT else m.tpslimit, SafeArgs(m.extraArgs))
  }

  function ClampBackend(b: Backend, personal: bool): Backend {
    b.(chunkSize := if ChunkSizeOk(b.chunkSize) then b.chunkSize else DEFAULT_CHUNK_SIZE,
       noVersions := b.noVersions && !personal, hardDelete := b.hardDelete && !personal)
  }

  function ClampRate(kb: Option<int>): Option<int> {
    if kb.None? then None else Some(Within(FLOOR_KB, kb.value, CEIL_KB))
  }

  function ClampBandwidth(b: Bandwidth): Bandwidth {
    b.(downloadKb := ClampRate(b.downloadKb), uploadKb := ClampRate(b.uploadKb),
       autoPercent := Within(1, b.autoPercent, 100))
  }

  function ClampSafety(s: Safety): Safety {
    Safety(Within(0, s.massDelete, 100_000), true, Max(0, s.minDisk), Max(0, s.warnDisk))
  }

  function ClampFiles(f: Files): Files {
    f.(maxBytes := Within(1, f.maxBytes, MAX_FILE_BYTES), maxRelChars := Within(1, f.maxRelChars, MAX_REL_CHARS),
       maxTotalChars := Within(1, f.maxTotalChars, MAX_TOTAL_CHARS))
  }

  function ClampOnDemand(d: OnDemand): OnDemand {
    OnDemand(Within(1, d.hydrate, MAX_TRANSFERS),
             if d.freeUpDays.Some? && d.freeUpDays.value < 1 then None else d.freeUpDays)
  }

  /** `min(VAULT_LOCK_MINUTES, key=distance)`: of two equally near, the first. */
  function NearestLock(m: int): int {
    if m <= 40 then 20 else if m <= 90 then 60 else if m <= 180 then 120 else 240
  }

  function ClampVault(v: Vault): Vault {
    v.(lockMinutes := if LockMinutesOk(v.lockMinutes) then v.lockMinutes else NearestLock(v.lockMinutes),
       warnMinutes := Max(0, v.warnMinutes))
  }

  function ClampOffline(o: Offline, world: World): Offline {
    o.(enabled := false, schedule := Max(1, o.schedule), maxDelete := Within(0, o.maxDelete, 100),
       maxLock := if MaxLockOk(o.maxLock, world) then o.maxLock else DEFAULT_MAX_LOCK)
  }

  function ClampUi(u: Ui): Ui {
    Ui(Max(200, u.width), Max(1, u.rows))
  }

  function ClampAccount(a: Account, world: World): Account {
    a.(mount := ClampMount(a.mount), backend := ClampBackend(a.backend, PersonalDrive(a)),
       bandwidth := ClampBandwidth(a.bandwidth), safety := ClampSafety(a.safety), files := ClampFiles(a.files),
       onDemand := ClampOnDemand(a.onDemand), vault := ClampVault(a.vault), offline := ClampOffline(a.offline, world),
       ui := ClampUi(a.ui))
  }

  function ClampAccounts(accounts: seq<Account>, world: World): (clamped: seq<Account>)
    ensures |clamped| == |accounts|
  {
    if accounts == [] then []
    else
      var n := |accounts| - 1;
      ClampAccounts(accounts[..n], world) + [ClampAccount(accounts[n], world)]
  }

  function Clamped(c: Config, world: World): Config {
    c.(advanced := ClampAdvanced(c.advanced), accounts := ClampAccounts(c.accounts, world))
  }

  /** `clamp`. */
  function ClampResult(c: Config, world: World): Outcome<Config> {
    if exists a :: a in c.accounts && ChunkOverflows(a) then Threw else Returned(Clamped(c, world))
  }
}
