/**
 onedriveui/config.py: the keys that `clamp` and `validate` read, as a layout of the documents, and
 how the rules see a document that fits it.
 */
module ConfigSchema {
  import opened Basics
  import opened ConfigNames
  import opened ConfigCodec
  import R = ConfigRules

  const APP: Schema := map[
    Theme := Declared(HStr, Str("system"), R.THEMES),
    AccentSource := Declared(HStr, Str("onedrive"), R.ACCENTS),
    Animations := Declared(HStr, Str("system"), R.ANIMATIONS),
    AutostartMethod := Declared(HStr, Str("systemd"), R.AUTOSTARTS),
    ActiveAccountId := Declared(HOptional(HStr), Null, [])]

  const ADVANCED: Schema := map[
    LogLevel := Declared(HStr, Str("INFO"), R.LOG_LEVELS),
    RcPortRange := Declared(HList(HInt), Arr([Int(17800), Int(17899)]), []),
    KeepLogsDays := Declared(HInt, Int(14), []),
    TickIdleMs := Declared(HInt, Int(2000), []),
    TickActiveMs := Declared(HInt, Int(400), [])]

  const SCALARS: Schema := map[
    Id := Declared(HStr, Str("onedrive"), []),
    Remote := Declared(HStr, Str("onedrive"), []),
    Kind := Declared(HStr, Str("personal"), R.KINDS),
    DriveType := Declared(HOptional(HStr), Null, []),
    SyncRoot := Declared(HStr, Str("~/OneDrive"), []),
    Enabled := Declared(HBool, Bool(true), [])]

  const MOUNT: Schema := map[
    CacheMaxSize := Declared(HInt, Int(50), []),
    PollInterval := Declared(HInt, Int(60), []),
    DirCacheTime := Declared(HInt, Int(3600), []),
    ReadChunkSize := Declared(HInt, Int(32), []),
    ReadChunkStreams := Declared(HInt, Int(0), []),
    Transfers := Declared(HInt, Int(4), []),
    Checkers := Declared(HInt, Int(8), []),
    TpsLimit := Declared(HFloat, Float(8.0), []),
    ExtraArgs := Declared(HList(HStr), Arr([]), [])]

  const BACKEND: Schema := map[
    ChunkSize := Declared(HStr, Str("10M"), []),
    UploadCutoff := Declared(HStr, Str("off"), []),
    NoVersions := Declared(HBool, Bool(false), []),
    HardDelete := Declared(HBool, Bool(false), []),
    LinkScope := Declared(HStr, Str("anonymous"), R.SCOPES),
    LinkType := Declared(HStr, Str("view"), R.LINK_TYPES),
    MetadataPermissions := Declared(HStr, Str("off"), R.PERMISSIONS)]

  const ON_DEMAND: Schema := map[
    AutoFreeUpDays := Declared(HOptional(HInt), Null, []),
    HydrateConcurrency := Declared(HInt, Int(3), [])]

  const BANDWIDTH: Schema := map[
    LimitDownload := Declared(HBool, Bool(false), []),
    DownloadKb := Declared(HOptional(HInt), Null, []),
    UploadMode := Declared(HStr, Str("none"), R.UPLOAD_MODES),
    UploadKb := Declared(HOptional(HInt), Null, []),
    AutoPercent := Declared(HInt, Int(70), [])]

  const SAFETY: Schema := map[
    MassDeleteThreshold := Declared(HInt, Int(200), []),
    MinDiskSpace := Declared(HInt, Int(500), []),
    WarningMinDiskSpace := Declared(HInt, Int(2048), []),
    RefusePathsUnderMount := Declared(HBool, Bool(true), [])]

  const FILES: Schema := map[
    NamePolicy := Declared(HStr, Str("windows"), R.NAME_POLICIES),
    MaxFileBytes := Declared(HInt, Int(R.MAX_FILE_BYTES), []),
    MaxRelPathChars := Declared(HInt, Int(R.MAX_REL_CHARS), []),
    MaxTotalPathChars := Declared(HInt, Int(R.MAX_TOTAL_CHARS), [])]

  const CONFLICTS: Schema := map[
    Policy := Declared(HStr, Str("ask"), R.CONFLICT_POLICIES)]

  const SELECTIVE: Schema := map[
    Mode := Declared(HStr, Str("all"), R.SELECTIVE_MODES)]

  const KFM: Schema := map[
    Method := Declared(HStr, Str("move"), R.KFM_METHODS)]

  const OFFLINE: Schema := map[
    Enabled := Declared(HBool, Bool(false), []),
    LocalPath := Declared(HStr, Str("~/OneDrive-Offline"), []),
    ScheduleMinutes := Declared(HInt, Int(15), []),
    MaxDeletePercent := Declared(HInt, Int(25), []),
    ConflictResolve := Declared(HStr, Str("newer"), R.RESOLVES),
    ConflictLoser := Declared(HStr, Str("pathname"), R.LOSERS),
    CheckAccess := Declared(HBool, Bool(true), []),
    CheckFilename := Declared(HStr, Str("RCLONE_TEST"), []),
    MaxLock := Declared(HStr, Str("2m"), [])]

  const SHARING: Schema := map[
    DefaultScope := Declared(HStr, Str("anonymous"), R.SCOPES),
    DefaultType := Declared(HStr, Str("view"), R.LINK_TYPES)]

  const VAULT: Schema := map[
    VaultBackend := Declared(HStr, Str("gocryptfs"), R.VAULT_BACKENDS),
    AutoLockMinutes := Declared(HInt, Int(20), []),
    WarnBeforeMinutes := Declared(HInt, Int(5), [])]

  const UI: Schema := map[
    ActivityCenterWidth := Declared(HInt, Int(360), []),
    ActivityRows := Declared(HInt, Int(50), [])]

  function PartSchema(head: Name): Schema {
    match head
    case MountHead => MOUNT
    case BackendHead => BACKEND
    case OnDemandHead => ON_DEMAND
    case BandwidthHead => BANDWIDTH
    case SafetyHead => SAFETY
    case FilesHead => FILES
    case ConflictsHead => CONFLICTS
    case SelectiveHead => SELECTIVE
    case KfmHead => KFM
    case OfflineHead => OFFLINE
    case SharingHead => SHARING
    case VaultHead => VAULT
    case UiHead => UI
    case _ => map[]
  }

  const HEADS := {
    MountHead, BackendHead, OnDemandHead, BandwidthHead, SafetyHead, FilesHead, ConflictsHead, SelectiveHead, KfmHead,
    OfflineHead, SharingHead, VaultHead, UiHead}

  const PARTS: map<Name, Schema> := map head | head in HEADS :: PartSchema(head)

  const LAYOUT := Layout(APP, ADVANCED, SCALARS, PARTS)

  // ---------------------------------------------------------------------------------------------
  // The layout is well formed

  predicate IsScalar(n: Name) {
    n.Id? || n.Remote? || n.Kind? || n.DriveType? || n.SyncRoot? || n.Enabled?
  }

  lemma ScalarKeys()
    ensures forall n :: n in SCALARS ==> IsScalar(n)
    ensures IsText(SCALARS, Id) && IsText(SCALARS, Remote)
  {
  }

  lemma PartKeys()
    ensures forall h :: h in HEADS ==> !IsScalar(h)
  {
  }

  lemma PartAt(head: Name)
    ensures head in PARTS <==> head in HEADS
    ensures head in HEADS ==> PARTS[head] == PartSchema(head)
  {
    hide HEADS, PartSchema;
  }

  lemma LayoutIsOk()
    ensures LayoutOk(LAYOUT)
  {
    hide APP, ADVANCED, SCALARS, PARTS, IsText, IsScalar, HEADS;
    ScalarKeys();
    PartKeys();
    forall head | head in PARTS ensures head in HEADS {
      PartAt(head);
    }
  }

  // ---------------------------------------------------------------------------------------------
  // What the rules read.  The last branch of each is for sections that do not fit.

  function IntAt(s: Section, n: Name): int {
    if n in s && s[n].Int? then s[n].i else 0
  }

  function StrAt(s: Section, n: Name): string {
    if n in s && s[n].Str? then s[n].s else ""
  }

  function BoolAt(s: Section, n: Name): bool {
    n in s && s[n] == Bool(true)
  }

  function RealAt(s: Section, n: Name): real {
    if n in s && s[n].Float? then s[n].f else 0.0
  }

  function OptIntAt(s: Section, n: Name): Option<int> {
    if n in s && s[n].Int? then Some(s[n].i) else None
  }

  function OptStrAt(s: Section, n: Name): Option<string> {
    if n in s && s[n].Str? then Some(s[n].s) else None
  }

  function Items(s: Section, n: Name): seq<Json> {
    if n in s && s[n].Arr? then s[n].items else []
  }

  function Ints(items: seq<Json>): seq<int> {
    seq(|items|, i requires 0 <= i < |items| => if items[i].Int? then items[i].i else 0)
  }

  function Strs(items: seq<Json>): seq<string> {
    seq(|items|, i requires 0 <= i < |items| => if items[i].Str? then items[i].s else "")
  }

  function AppOf(s: Section): R.App {
    R.App(StrAt(s, Theme), StrAt(s, AccentSource), StrAt(s, Animations), StrAt(s, AutostartMethod),
          OptStrAt(s, ActiveAccountId))
  }

  function AdvancedOf(s: Section): R.Advanced {
    R.Advanced(StrAt(s, LogLevel), Ints(Items(s, RcPortRange)), IntAt(s, KeepLogsDays), IntAt(s, TickIdleMs),
               IntAt(s, TickActiveMs))
  }

  function MountOf(s: Section): R.Mount {
    R.Mount(IntAt(s, Transfers), IntAt(s, Checkers), IntAt(s, ReadChunkStreams), IntAt(s, DirCacheTime),
            IntAt(s, PollInterval), IntAt(s, CacheMaxSize), IntAt(s, ReadChunkSize), RealAt(s, TpsLimit),
            Strs(Items(s, ExtraArgs)))
  }

  function BackendOf(s: Section): R.Backend {
    R.Backend(StrAt(s, ChunkSize), StrAt(s, UploadCutoff), BoolAt(s, NoVersions), BoolAt(s, HardDelete),
              StrAt(s, LinkScope), StrAt(s, LinkType), StrAt(s, MetadataPermissions))
  }

  function OnDemandOf(s: Section): R.OnDemand {
    R.OnDemand(IntAt(s, HydrateConcurrency), OptIntAt(s, AutoFreeUpDays))
  }

  function BandwidthOf(s: Section): R.Bandwidth {
    R.Bandwidth(BoolAt(s, LimitDownload), OptIntAt(s, DownloadKb), StrAt(s, UploadMode), OptIntAt(s, UploadKb),
                IntAt(s, AutoPercent))
  }

  function SafetyOf(s: Section): R.Safety {
    R.Safety(IntAt(s, MassDeleteThreshold), BoolAt(s, RefusePathsUnderMount), IntAt(s, MinDiskSpace),
             IntAt(s, WarningMinDiskSpace))
  }

  function FilesOf(s: Section): R.Files {
    R.Files(StrAt(s, NamePolicy), IntAt(s, MaxFileBytes), IntAt(s, MaxRelPathChars), IntAt(s, MaxTotalPathChars))
  }

  function VaultOf(s: Section): R.Vault {
    R.Vault(StrAt(s, VaultBackend), IntAt(s, AutoLockMinutes), IntAt(s, WarnBeforeMinutes))
  }

  function OfflineOf(s: Section): R.Offline {
    R.Offline(BoolAt(s, Enabled), StrAt(s, LocalPath), IntAt(s, ScheduleMinutes), IntAt(s, MaxDeletePercent),
              StrAt(s, ConflictResolve), StrAt(s, ConflictLoser), BoolAt(s, CheckAccess), StrAt(s, CheckFilename),
              StrAt(s, MaxLock))
  }

  function UiOf(s: Section): R.Ui {
    R.Ui(IntAt(s, ActivityCenterWidth), IntAt(s, ActivityRows))
  }

  function Part(e: Entry, head: Name): Section {
    if head in e.sections then e.sections[head] else map[]
  }

  function ModesOf(e: Entry): R.Modes {
    R.Modes(StrAt(Part(e, ConflictsHead), Policy), StrAt(Part(e, SelectiveHead), Mode), StrAt(Part(e, KfmHead), Method),
            StrAt(Part(e, SharingHead), DefaultScope), StrAt(Part(e, SharingHead), DefaultType))
  }

  /** One account as the rules see it. */
  function Seen(e: Entry): R.Account {
    var s := e.scalars;
    R.Account(StrAt(s, Id), StrAt(s, Remote), StrAt(s, Kind), OptStrAt(s, DriveType), StrAt(s, SyncRoot),
              BoolAt(s, Enabled), MountOf(Part(e, MountHead)), BackendOf(Part(e, BackendHead)),
              BandwidthOf(Part(e, BandwidthHead)), SafetyOf(Part(e, SafetyHead)), FilesOf(Part(e, FilesHead)),
              OnDemandOf(Part(e, OnDemandHead)), VaultOf(Part(e, VaultHead)), OfflineOf(Part(e, OfflineHead)),
              UiOf(Part(e, UiHead)), ModesOf(e))
  }

  function SeenAll(entries: seq<Entry>): seq<R.Account> {
    seq(|entries|, i requires 0 <= i < |entries| => Seen(entries[i]))
  }

  /** A document as the rules see it. */
  function RulesOf(d: Document): R.Config {
    R.Config(d.schemaVersion, AppOf(d.app), AdvancedOf(d.advanced), SeenAll(d.accounts))
  }

  /** An enumerated key has been read as one of its values. */
  lemma ChoiceRead(schema: Schema, s: Section, n: Name)
    requires SectionFits(schema, s) && n in schema && schema[n].hint == HStr && schema[n].choices != []
    ensures StrAt(s, n) in schema[n].choices
  {
    assert Fits(schema[n], s[n]);
  }
}
