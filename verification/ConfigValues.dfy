/**
 onedriveui/config.py: the values of a configuration under their dotted keys.  They are the values of
 the document it was read from, and `clamp` reports exactly those that it changes.
 */
module ConfigValues {
  import opened Basics
  import opened ConfigNames
  import opened ConfigCodec
  import opened ConfigSchema
  import R = ConfigRules
  import O = ConfigObject
  import C = ConfigClamp

  // ---------------------------------------------------------------------------------------------
  // Values

  function Texts(texts: seq<string>): Json {
    Arr(seq(|texts|, i requires 0 <= i < |texts| => Str(texts[i])))
  }

  function Numbers(numbers: seq<int>): Json {
    Arr(seq(|numbers|, i requires 0 <= i < |numbers| => Int(numbers[i])))
  }

  function OrNull(number: Option<int>): Json {
    match number
    case None => Null
    case Some(n) => Int(n)
  }

  function TextOrNull(text: Option<string>): Json {
    match text
    case None => Null
    case Some(s) => Str(s)
  }

  function AppValue(a: R.App, name: Name): Option<Json> {
    match name
    case Theme => Some(Str(a.theme))
    case AccentSource => Some(Str(a.accentSource))
    case Animations => Some(Str(a.animations))
    case AutostartMethod => Some(Str(a.autostartMethod))
    case ActiveAccountId => Some(TextOrNull(a.active))
    case _ => None
  }

  function AdvancedValue(a: R.Advanced, name: Name): Option<Json> {
    match name
    case LogLevel => Some(Str(a.logLevel))
    case RcPortRange => Some(Numbers(a.ports))
    case KeepLogsDays => Some(Int(a.keepLogsDays))
    case TickIdleMs => Some(Int(a.tickIdle))
    case TickActiveMs => Some(Int(a.tickActive))
    case _ => None
  }

  function ScalarValue(a: R.Account, name: Name): Option<Json> {
    match name
    case Id => Some(Str(a.id))
    case Remote => Some(Str(a.remote))
    case Kind => Some(Str(a.kind))
    case DriveType => Some(TextOrNull(a.driveType))
    case SyncRoot => Some(Str(a.syncRoot))
    case Enabled => Some(Bool(a.enabled))
    case _ => None
  }

  function MountValue(m: R.Mount, name: Name): Option<Json> {
    match name
    case Transfers => Some(Int(m.transfers))
    case Checkers => Some(Int(m.checkers))
    case ReadChunkStreams => Some(Int(m.readChunkStreams))
    case DirCacheTime => Some(Int(m.dirCacheTime))
    case PollInterval => Some(Int(m.pollInterval))
    case CacheMaxSize => Some(Int(m.cacheMaxSize))
    case ReadChunkSize => Some(Int(m.readChunkSize))
    case TpsLimit => Some(Float(m.tpslimit))
    case ExtraArgs => Some(Texts(m.extraArgs))
    case _ => None
  }

  function BackendValue(b: R.Backend, name: Name): Option<Json> {
    match name
    case ChunkSize => Some(Str(b.chunkSize))
    case UploadCutoff => Some(Str(b.uploadCutoff))
    case NoVersions => Some(Bool(b.noVersions))
    case HardDelete => Some(Bool(b.hardDelete))
    case LinkScope => Some(Str(b.linkScope))
    case LinkType => Some(Str(b.linkType))
    case MetadataPermissions => Some(Str(b.metadataPermissions))
    case _ => None
  }

  function BandwidthValue(b: R.Bandwidth, name: Name): Option<Json> {
    match name
    case LimitDownload => Some(Bool(b.limitDownload))
    case DownloadKb => Some(OrNull(b.downloadKb))
    case UploadMode => Some(Str(b.uploadMode))
    case UploadKb => Some(OrNull(b.uploadKb))
    case AutoPercent => Some(Int(b.autoPercent))
    case _ => None
  }

  function SafetyValue(s: R.Safety, name: Name): Option<Json> {
    match name
    case MassDeleteThreshold => Some(Int(s.massDelete))
    case RefusePathsUnderMount => Some(Bool(s.refuseUnderMount))
    case MinDiskSpace => Some(Int(s.minDisk))
    case WarningMinDiskSpace => Some(Int(s.warnDisk))
    case _ => None
  }

  function FilesValue(f: R.Files, name: Name): Option<Json> {
    match name
    case NamePolicy => Some(Str(f.namePolicy))
    case MaxFileBytes => Some(Int(f.maxBytes))
    case MaxRelPathChars => Some(Int(f.maxRelChars))
    case MaxTotalPathChars => Some(Int(f.maxTotalChars))
    case _ => None
  }

  function OnDemandValue(d: R.OnDemand, name: Name): Option<Json> {
    match name
    case HydrateConcurrency => Some(Int(d.hydrate))
    case AutoFreeUpDays => Some(OrNull(d.freeUpDays))
    case _ => None
  }

  function VaultValue(v: R.Vault, name: Name): Option<Json> {
    match name
    case VaultBackend => Some(Str(v.backend))
    case AutoLockMinutes => Some(Int(v.lockMinutes))
    case WarnBeforeMinutes => Some(Int(v.warnMinutes))
    case _ => None
  }

  function OfflineValue(o: R.Offline, name: Name): Option<Json> {
    match name
    case Enabled => Some(Bool(o.enabled))
    case LocalPath => Some(Str(o.localPath))
    case ScheduleMinutes => Some(Int(o.schedule))
    case MaxDeletePercent => Some(Int(o.maxDelete))
    case ConflictResolve => Some(Str(o.resolve))
    case ConflictLoser => Some(Str(o.loser))
    case CheckAccess => Some(Bool(o.checkAccess))
    case CheckFilename => Some(Str(o.checkFilename))
    case MaxLock => Some(Str(o.maxLock))
    case _ => None
  }

  function UiValue(u: R.Ui, name: Name): Option<Json> {
    match name
    case ActivityCenterWidth => Some(Int(u.width))
    case ActivityRows => Some(Int(u.rows))
    case _ => None
  }

  /** The sections of which only an enumerated key is read. */
  function ModeValue(m: R.Modes, head: Name, name: Name): Option<Json> {
    match head
    case ConflictsHead => if name.Policy? then Some(Str(m.conflicts)) else None
    case SelectiveHead => if name.Mode? then Some(Str(m.selective)) else None
    case KfmHead => if name.Method? then Some(Str(m.kfm)) else None
    case SharingHead =>
      if name.DefaultScope? then Some(Str(m.sharingScope))
      else if name.DefaultType? then Some(Str(m.sharingType)) else None
    case _ => None
  }

  /** What an account has under a key of a section; its own keys are those of `AccountHead`. */
  function ValueUnder(a: R.Account, head: Name, name: Name): Option<Json> {
    match head
    case AccountHead => ScalarValue(a, name)
    case MountHead => MountValue(a.mount, name)
    case BackendHead => BackendValue(a.backend, name)
    case BandwidthHead => BandwidthValue(a.bandwidth, name)
    case SafetyHead => SafetyValue(a.safety, name)
    case FilesHead => FilesValue(a.files, name)
    case OnDemandHead => OnDemandValue(a.onDemand, name)
    case VaultHead => VaultValue(a.vault, name)
    case OfflineHead => OfflineValue(a.offline, name)
    case UiHead => UiValue(a.ui, name)
    case _ => ModeValue(a.modes, head, name)
  }

  // ---------------------------------------------------------------------------------------------
  // The values are those of the document

  /** A fitting section has a value of the declared type under each key of its schema. */
  lemma IntUnder(schema: Schema, s: Section, name: Name)
    requires SectionFits(schema, s) && name in schema && schema[name].hint == HInt
    ensures name in s && Some(Int(IntAt(s, name))) == Some(s[name])
  {
    assert Fits(schema[name], s[name]);
  }

  lemma TextUnder(schema: Schema, s: Section, name: Name)
    requires SectionFits(schema, s) && name in schema && schema[name].hint == HStr
    ensures name in s && Some(Str(StrAt(s, name))) == Some(s[name])
  {
    assert Fits(schema[name], s[name]);
  }

  lemma BoolUnder(schema: Schema, s: Section, name: Name)
    requires SectionFits(schema, s) && name in schema && schema[name].hint == HBool
    ensures name in s && Some(Bool(BoolAt(s, name))) == Some(s[name])
  {
    assert Fits(schema[name], s[name]);
  }

  lemma RealUnder(schema: Schema, s: Section, name: Name)
    requires SectionFits(schema, s) && name in schema && schema[name].hint == HFloat
    ensures name in s && Some(Float(RealAt(s, name))) == Some(s[name])
  {
    assert Fits(schema[name], s[name]);
  }

  lemma OptionUnder(schema: Schema, s: Section, name: Name)
    requires SectionFits(schema, s) && name in schema
    ensures schema[name].hint == HOptional(HInt) ==> name in s && Some(OrNull(OptIntAt(s, name))) == Some(s[name])
    ensures schema[name].hint == HOptional(HStr) ==> name in s && Some(TextOrNull(OptStrAt(s, name))) == Some(s[name])
  {
    assert Fits(schema[name], s[name]);
  }

  lemma ListUnder(schema: Schema, s: Section, name: Name)
    requires SectionFits(schema, s) && name in schema
    ensures schema[name].hint == HList(HInt) ==> name in s && Some(Numbers(Ints(Items(s, name)))) == Some(s[name])
    ensures schema[name].hint == HList(HStr) ==> name in s && Some(Texts(Strs(Items(s, name)))) == Some(s[name])
  {
    assert Fits(schema[name], s[name]);
    hide Texts, Numbers, Strs, Ints;
    if schema[name].hint == HList(HInt) {
      NumbersOf(s[name].items);
    }
    if schema[name].hint == HList(HStr) {
      TextsOf(s[name].items);
    }
  }

  lemma TextsOf(items: seq<Json>)
    requires forall x :: x in items ==> x.Str?
    ensures Texts(Strs(items)) == Arr(items)
  {
    forall i | 0 <= i < |items| ensures items[i].Str? {
      assert items[i] in items;
    }
  }

  lemma NumbersOf(items: seq<Json>)
    requires forall x :: x in items ==> x.Int?
    ensures Numbers(Ints(items)) == Arr(items)
  {
    forall i | 0 <= i < |items| ensures items[i].Int? {
      assert items[i] in items;
    }
  }

  lemma AppHints()
    ensures APP.Keys == {Theme, AccentSource, Animations, AutostartMethod, ActiveAccountId}
    ensures APP[Theme].hint == APP[AccentSource].hint == APP[Animations].hint == HStr
    ensures APP[AutostartMethod].hint == HStr
    ensures APP[ActiveAccountId].hint == HOptional(HStr)
  {
  }

  lemma AppUnder(s: Section, name: Name)
    requires SectionFits(APP, s) && name in APP
    ensures name in s && AppValue(AppOf(s), name) == Some(s[name])
  {
    AppHints();
    hide APP, SectionFits, HasType, Fits, WellDeclared, Plain, IntAt, StrAt, BoolAt, RealAt, OptIntAt, OptStrAt;
    hide Items, Ints, Strs, Texts, Numbers, OrNull, TextOrNull;
    match name {
      case Theme | AccentSource | Animations | AutostartMethod => TextUnder(APP, s, name);
      case ActiveAccountId => OptionUnder(APP, s, name);
    }
  }

  lemma AdvancedHints()
    ensures ADVANCED.Keys == {LogLevel, RcPortRange, KeepLogsDays, TickIdleMs, TickActiveMs}
    ensures ADVANCED[LogLevel].hint == HStr
    ensures ADVANCED[RcPortRange].hint == HList(HInt)
    ensures ADVANCED[KeepLogsDays].hint == ADVANCED[TickIdleMs].hint == ADVANCED[TickActiveMs].hint == HInt
  {
  }

  lemma AdvancedUnder(s: Section, name: Name)
    requires SectionFits(ADVANCED, s) && name in ADVANCED
    ensures name in s && AdvancedValue(AdvancedOf(s), name) == Some(s[name])
  {
    AdvancedHints();
    hide ADVANCED, SectionFits, HasType, Fits, WellDeclared, Plain, IntAt, StrAt, BoolAt, RealAt, OptIntAt, OptStrAt;
    hide Items, Ints, Strs, Texts, Numbers, OrNull, TextOrNull;
    match name {
      case LogLevel => TextUnder(ADVANCED, s, name);
      case RcPortRange => ListUnder(ADVANCED, s, name);
      case KeepLogsDays | TickIdleMs | TickActiveMs => IntUnder(ADVANCED, s, name);
    }
  }

  lemma ScalarHints()
    ensures SCALARS.Keys == {Id, Remote, Kind, SyncRoot, DriveType, Enabled}
    ensures SCALARS[Id].hint == SCALARS[Remote].hint == SCALARS[Kind].hint == SCALARS[SyncRoot].hint == HStr
    ensures SCALARS[DriveType].hint == HOptional(HStr)
    ensures SCALARS[Enabled].hint == HBool
  {
  }

  lemma SeenScalars(e: Entry)
    ensures var a, s := Seen(e), e.scalars;
      && a.id == StrAt(s, Id) && a.remote == StrAt(s, Remote) && a.kind == StrAt(s, Kind)
      && a.driveType == OptStrAt(s, DriveType) && a.syncRoot == StrAt(s, SyncRoot) && a.enabled == BoolAt(s, Enabled)
  {
    hide MountOf, BackendOf, BandwidthOf, SafetyOf, FilesOf, OnDemandOf, VaultOf, OfflineOf, UiOf, ModesOf, Part;
    hide StrAt, OptStrAt, BoolAt;
  }

  lemma ScalarUnder(e: Entry, name: Name)
    requires SectionFits(SCALARS, e.scalars) && name in SCALARS
    ensures name in e.scalars && ScalarValue(Seen(e), name) == Some(e.scalars[name])
  {
    var s := e.scalars;
    SeenScalars(e);
    hide Seen;
    ScalarHints();
    hide SCALARS, SectionFits, HasType, Fits, WellDeclared, Plain, IntAt, StrAt, BoolAt, RealAt, OptIntAt, OptStrAt;
    hide Items, Ints, Strs, Texts, Numbers, OrNull, TextOrNull;
    match name {
      case Id | Remote | Kind | SyncRoot => TextUnder(SCALARS, s, name);
      case DriveType => OptionUnder(SCALARS, s, name);
      case Enabled => BoolUnder(SCALARS, s, name);
    }
  }

  lemma MountHints()
    ensures MOUNT.Keys
         == {Transfers, Checkers, ReadChunkStreams, DirCacheTime, PollInterval, CacheMaxSize, ReadChunkSize, TpsLimit,
             ExtraArgs}
    ensures MOUNT[Transfers].hint == MOUNT[Checkers].hint == MOUNT[ReadChunkStreams].hint == HInt
    ensures MOUNT[DirCacheTime].hint == MOUNT[PollInterval].hint == MOUNT[CacheMaxSize].hint == HInt
    ensures MOUNT[ReadChunkSize].hint == HInt
    ensures MOUNT[TpsLimit].hint == HFloat
    ensures MOUNT[ExtraArgs].hint == HList(HStr)
  {
  }

  lemma MountUnder(s: Section, name: Name)
    requires SectionFits(MOUNT, s) && name in MOUNT
    ensures name in s && MountValue(MountOf(s), name) == Some(s[name])
  {
    MountHints();
    hide MOUNT, SectionFits, HasType, Fits, WellDeclared, Plain, IntAt, StrAt, BoolAt, RealAt, OptIntAt, OptStrAt;
    hide Items, Ints, Strs, Texts, Numbers, OrNull, TextOrNull;
    match name {
      case Transfers | Checkers | ReadChunkStreams | DirCacheTime | PollInterval | CacheMaxSize
           | ReadChunkSize => IntUnder(MOUNT, s, name);
      case TpsLimit => RealUnder(MOUNT, s, name);
      case ExtraArgs => ListUnder(MOUNT, s, name);
    }
  }

  lemma BackendHints()
    ensures BACKEND.Keys
         == {ChunkSize, UploadCutoff, LinkScope, LinkType, MetadataPermissions, NoVersions, HardDelete}
    ensures BACKEND[ChunkSize].hint == BACKEND[UploadCutoff].hint == BACKEND[LinkScope].hint == HStr
    ensures BACKEND[LinkType].hint == BACKEND[MetadataPermissions].hint == HStr
    ensures BACKEND[NoVersions].hint == BACKEND[HardDelete].hint == HBool
  {
  }

  lemma BackendUnder(s: Section, name: Name)
    requires SectionFits(BACKEND, s) && name in BACKEND
    ensures name in s && BackendValue(BackendOf(s), name) == Some(s[name])
  {
    BackendHints();
    hide BACKEND, SectionFits, HasType, Fits, WellDeclared, Plain, IntAt, StrAt, BoolAt, RealAt, OptIntAt, OptStrAt;
    hide Items, Ints, Strs, Texts, Numbers, OrNull, TextOrNull;
    match name {
      case ChunkSize | UploadCutoff | LinkScope | LinkType | MetadataPermissions => TextUnder(BACKEND, s, name);
      case NoVersions | HardDelete => BoolUnder(BACKEND, s, name);
    }
  }

  lemma BandwidthHints()
    ensures BANDWIDTH.Keys == {LimitDownload, DownloadKb, UploadKb, UploadMode, AutoPercent}
    ensures BANDWIDTH[LimitDownload].hint == HBool
    ensures BANDWIDTH[DownloadKb].hint == BANDWIDTH[UploadKb].hint == HOptional(HInt)
    ensures BANDWIDTH[UploadMode].hint == HStr
    ensures BANDWIDTH[AutoPercent].hint == HInt
  {
  }

  lemma BandwidthUnder(s: Section, name: Name)
    requires SectionFits(BANDWIDTH, s) && name in BANDWIDTH
    ensures name in s && BandwidthValue(BandwidthOf(s), name) == Some(s[name])
  {
    BandwidthHints();
    hide BANDWIDTH, SectionFits, HasType, Fits, WellDeclared, Plain, IntAt, StrAt, BoolAt, RealAt, OptIntAt, OptStrAt;
    hide Items, Ints, Strs, Texts, Numbers, OrNull, TextOrNull;
    match name {
      case LimitDownload => BoolUnder(BANDWIDTH, s, name);
      case DownloadKb | UploadKb => OptionUnder(BANDWIDTH, s, name);
      case UploadMode => TextUnder(BANDWIDTH, s, name);
      case AutoPercent => IntUnder(BANDWIDTH, s, name);
    }
  }

  lemma SafetyHints()
    ensures SAFETY.Keys == {MassDeleteThreshold, MinDiskSpace, WarningMinDiskSpace, RefusePathsUnderMount}
    ensures SAFETY[MassDeleteThreshold].hint == SAFETY[MinDiskSpace].hint == HInt
    ensures SAFETY[WarningMinDiskSpace].hint == HInt
    ensures SAFETY[RefusePathsUnderMount].hint == HBool
  {
  }

  lemma SafetyUnder(s: Section, name: Name)
    requires SectionFits(SAFETY, s) && name in SAFETY
    ensures name in s && SafetyValue(SafetyOf(s), name) == Some(s[name])
  {
    SafetyHints();
    hide SAFETY, SectionFits, HasType, Fits, WellDeclared, Plain, IntAt, StrAt, BoolAt, RealAt, OptIntAt, OptStrAt;
    hide Items, Ints, Strs, Texts, Numbers, OrNull, TextOrNull;
    match name {
      case MassDeleteThreshold | MinDiskSpace | WarningMinDiskSpace => IntUnder(SAFETY, s, name);
      case RefusePathsUnderMount => BoolUnder(SAFETY, s, name);
    }
  }

  lemma FilesHints()
    ensures FILES.Keys == {NamePolicy, MaxFileBytes, MaxRelPathChars, MaxTotalPathChars}
    ensures FILES[NamePolicy].hint == HStr
    ensures FILES[MaxFileBytes].hint == FILES[MaxRelPathChars].hint == FILES[MaxTotalPathChars].hint == HInt
  {
  }

  lemma FilesUnder(s: Section, name: Name)
    requires SectionFits(FILES, s) && name in FILES
    ensures name in s && FilesValue(FilesOf(s), name) == Some(s[name])
  {
    FilesHints();
    hide FILES, SectionFits, HasType, Fits, WellDeclared, Plain, IntAt, StrAt, BoolAt, RealAt, OptIntAt, OptStrAt;
    hide Items, Ints, Strs, Texts, Numbers, OrNull, TextOrNull;
    match name {
      case NamePolicy => TextUnder(FILES, s, name);
      case MaxFileBytes | MaxRelPathChars | MaxTotalPathChars => IntUnder(FILES, s, name);
    }
  }

  lemma OnDemandHints()
    ensures ON_DEMAND.Keys == {HydrateConcurrency, AutoFreeUpDays}
    ensures ON_DEMAND[HydrateConcurrency].hint == HInt
    ensures ON_DEMAND[AutoFreeUpDays].hint == HOptional(HInt)
  {
  }

  lemma OnDemandUnder(s: Section, name: Name)
    requires SectionFits(ON_DEMAND, s) && name in ON_DEMAND
    ensures name in s && OnDemandValue(OnDemandOf(s), name) == Some(s[name])
  {
    OnDemandHints();
    hide ON_DEMAND, SectionFits, HasType, Fits, WellDeclared, Plain, IntAt, StrAt, BoolAt, RealAt, OptIntAt, OptStrAt;
    hide Items, Ints, Strs, Texts, Numbers, OrNull, TextOrNull;
    match name {
      case HydrateConcurrency => IntUnder(ON_DEMAND, s, name);
      case AutoFreeUpDays => OptionUnder(ON_DEMAND, s, name);
    }
  }

  lemma VaultHints()
    ensures VAULT.Keys == {VaultBackend, AutoLockMinutes, WarnBeforeMinutes}
    ensures VAULT[VaultBackend].hint == HStr
    ensures VAULT[AutoLockMinutes].hint == VAULT[WarnBeforeMinutes].hint == HInt
  {
  }

  lemma VaultUnder(s: Section, name: Name)
    requires SectionFits(VAULT, s) && name in VAULT
    ensures name in s && VaultValue(VaultOf(s), name) == Some(s[name])
  {
    VaultHints();
    hide VAULT, SectionFits, HasType, Fits, WellDeclared, Plain, IntAt, StrAt, BoolAt, RealAt, OptIntAt, OptStrAt;
    hide Items, Ints, Strs, Texts, Numbers, OrNull, TextOrNull;
    match name {
      case VaultBackend => TextUnder(VAULT, s, name);
      case AutoLockMinutes | WarnBeforeMinutes => IntUnder(VAULT, s, name);
    }
  }

  lemma OfflineHints()
    ensures OFFLINE.Keys
         == {Enabled, CheckAccess, LocalPath, ConflictResolve, ConflictLoser, CheckFilename, MaxLock, ScheduleMinutes,
             MaxDeletePercent}
    ensures OFFLINE[Enabled].hint == OFFLINE[CheckAccess].hint == HBool
    ensures OFFLINE[LocalPath].hint == OFFLINE[ConflictResolve].hint == OFFLINE[ConflictLoser].hint == HStr
    ensures OFFLINE[CheckFilename].hint == OFFLINE[MaxLock].hint == HStr
    ensures OFFLINE[ScheduleMinutes].hint == OFFLINE[MaxDeletePercent].hint == HInt
  {
  }

  lemma OfflineUnder(s: Section, name: Name)
    requires SectionFits(OFFLINE, s) && name in OFFLINE
    ensures name in s && OfflineValue(OfflineOf(s), name) == Some(s[name])
  {
    OfflineHints();
    hide OFFLINE, SectionFits, HasType, Fits, WellDeclared, Plain, IntAt, StrAt, BoolAt, RealAt, OptIntAt, OptStrAt;
    hide Items, Ints, Strs, Texts, Numbers, OrNull, TextOrNull;
    match name {
      case Enabled | CheckAccess => BoolUnder(OFFLINE, s, name);
      case LocalPath | ConflictResolve | ConflictLoser | CheckFilename | MaxLock => TextUnder(OFFLINE, s, name);
      case ScheduleMinutes | MaxDeletePercent => IntUnder(OFFLINE, s, name);
    }
  }

  lemma UiHints()
    ensures UI.Keys == {ActivityCenterWidth, ActivityRows}
    ensures UI[ActivityCenterWidth].hint == UI[ActivityRows].hint == HInt
  {
  }

  lemma UiUnder(s: Section, name: Name)
    requires SectionFits(UI, s) && name in UI
    ensures name in s && UiValue(UiOf(s), name) == Some(s[name])
  {
    UiHints();
    hide UI, SectionFits, HasType, Fits, WellDeclared, Plain, IntAt, StrAt, BoolAt, RealAt, OptIntAt, OptStrAt;
    hide Items, Ints, Strs, Texts, Numbers, OrNull, TextOrNull;
    match name {
      case ActivityCenterWidth | ActivityRows => IntUnder(UI, s, name);
    }
  }

  lemma ModesUnder(e: Entry, head: Name, name: Name)
    requires head in {ConflictsHead, SelectiveHead, KfmHead, SharingHead} && name in PartSchema(head)
    requires SectionFits(PartSchema(head), Part(e, head))
    ensures name in Part(e, head) && ModeValue(ModesOf(e), head, name) == Some(Part(e, head)[name])
  {
    hide PartSchema, SectionFits, StrAt, Part, WellDeclared, Plain, Fits, HasType;
    ModeKeys(head, name);
    TextUnder(PartSchema(head), Part(e, head), name);
  }

  lemma ModeHints()
    ensures CONFLICTS.Keys == {Policy} && CONFLICTS[Policy].hint == HStr
    ensures SELECTIVE.Keys == {Mode} && SELECTIVE[Mode].hint == HStr
    ensures KFM.Keys == {Method} && KFM[Method].hint == HStr
  {
  }

  lemma SharingHints()
    ensures SHARING.Keys == {DefaultScope, DefaultType}
    ensures SHARING[DefaultScope].hint == SHARING[DefaultType].hint == HStr
  {
  }

  lemma ModeKeys(head: Name, name: Name)
    requires head in {ConflictsHead, SelectiveHead, KfmHead, SharingHead} && name in PartSchema(head)
    ensures PartSchema(head)[name].hint == HStr
    ensures match head
            case ConflictsHead => name == Policy
            case SelectiveHead => name == Mode
            case KfmHead => name == Method
            case _ => name == DefaultScope || name == DefaultType
  {
    ModeHints();
    SharingHints();
    hide CONFLICTS, SELECTIVE, KFM, SHARING, MOUNT, BACKEND, BANDWIDTH, SAFETY, FILES, ON_DEMAND, VAULT, OFFLINE, UI;
    hide WellDeclared, Plain, Fits, HasType;
  }

  lemma PartIsRead(e: Entry, head: Name)
    requires EntryFits(LAYOUT, e) && head in HEADS
    ensures SectionFits(PartSchema(head), Part(e, head))
  {
    PartAt(head);
    hide PARTS, HEADS, PartSchema, SCALARS, SectionFits;
  }

  lemma SeenParts(e: Entry)
    ensures var a := Seen(e);
      && a.mount == MountOf(Part(e, MountHead)) && a.backend == BackendOf(Part(e, BackendHead))
      && a.bandwidth == BandwidthOf(Part(e, BandwidthHead)) && a.safety == SafetyOf(Part(e, SafetyHead))
      && a.files == FilesOf(Part(e, FilesHead)) && a.onDemand == OnDemandOf(Part(e, OnDemandHead))
      && a.vault == VaultOf(Part(e, VaultHead)) && a.offline == OfflineOf(Part(e, OfflineHead))
      && a.ui == UiOf(Part(e, UiHead)) && a.modes == ModesOf(e)
  {
    hide MountOf, BackendOf, BandwidthOf, SafetyOf, FilesOf, OnDemandOf, VaultOf, OfflineOf, UiOf, ModesOf, Part;
    hide StrAt, OptStrAt, BoolAt;
  }

  lemma PartUnder(e: Entry, head: Name, name: Name)
    requires head in HEADS && name in PartSchema(head) && SectionFits(PartSchema(head), Part(e, head))
    ensures name in Part(e, head) && ValueUnder(Seen(e), head, name) == Some(Part(e, head)[name])
  {
    SeenParts(e);
    hide Seen, SectionFits, MountValue, BackendValue, BandwidthValue, SafetyValue, FilesValue, OnDemandValue;
    hide VaultValue, OfflineValue, UiValue, ModeValue, MountOf, BackendOf, BandwidthOf, SafetyOf, FilesOf, OnDemandOf;
    hide VaultOf, OfflineOf, UiOf, ModesOf, Part, ScalarValue, MOUNT, BACKEND, BANDWIDTH, SAFETY, FILES, ON_DEMAND;
    hide VAULT, OFFLINE, UI, CONFLICTS, SELECTIVE, KFM, SHARING, WellDeclared, Plain, Fits, HasType;
    var s := Part(e, head);
    match head {
      case MountHead => MountUnder(s, name);
      case BackendHead => BackendUnder(s, name);
      case BandwidthHead => BandwidthUnder(s, name);
      case SafetyHead => SafetyUnder(s, name);
      case FilesHead => FilesUnder(s, name);
      case OnDemandHead => OnDemandUnder(s, name);
      case VaultHead => VaultUnder(s, name);
      case OfflineHead => OfflineUnder(s, name);
      case UiHead => UiUnder(s, name);
      case ConflictsHead | SelectiveHead | KfmHead | SharingHead => ModesUnder(e, head, name);
    }
  }

  /** An account that was read has under each key of each section the value that the document gave it. */
  lemma ValuesAreRead(e: Entry, head: Name, name: Name)
    requires EntryFits(LAYOUT, e)
    ensures name in SCALARS ==> name in e.scalars && ValueUnder(Seen(e), AccountHead, name) == Some(e.scalars[name])
    ensures head in HEADS && name in PartSchema(head) ==>
      name in Part(e, head) && ValueUnder(Seen(e), head, name) == Some(Part(e, head)[name])
  {
    hide SCALARS, HEADS, PartSchema, EntryFits, Seen, Part, ValueUnder;
    if name in SCALARS {
      ScalarsAreRead(e, name);
    }
    if head in HEADS && name in PartSchema(head) {
      PartIsRead(e, head);
      PartUnder(e, head, name);
    }
  }

  lemma ScalarsAreRead(e: Entry, name: Name)
    requires EntryFits(LAYOUT, e) && name in SCALARS
    ensures name in e.scalars && ValueUnder(Seen(e), AccountHead, name) == Some(e.scalars[name])
  {
    hide SCALARS, PARTS, SectionFits, Seen, ScalarValue;
    ScalarUnder(e, name);
  }

  // ---------------------------------------------------------------------------------------------
  // What clamp reports

  lemma InNote<T>(head: Name, name: Name, was: T, value: T, key: Dotted)
    ensures key in O.Note(head, name, was, value) <==> key == Key(head, name) && was != value
  {
  }

  lemma TextsDiffer(a: seq<string>, b: seq<string>)
    ensures Texts(a) == Texts(b) <==> a == b
  {
    if Texts(a) == Texts(b) {
      var x, y := Texts(a).items, Texts(b).items;
      assert |a| == |x| == |y| == |b|;
      forall i | 0 <= i < |a| ensures a[i] == b[i] {
        assert x[i] == Str(a[i]) && y[i] == Str(b[i]);
      }
    }
  }

  lemma NumbersDiffer(a: seq<int>, b: seq<int>)
    ensures Numbers(a) == Numbers(b) <==> a == b
  {
    if Numbers(a) == Numbers(b) {
      var x, y := Numbers(a).items, Numbers(b).items;
      assert |a| == |x| == |y| == |b|;
      forall i | 0 <= i < |a| ensures a[i] == b[i] {
        assert x[i] == Int(a[i]) && y[i] == Int(b[i]);
      }
    }
  }

  lemma AdvancedReported(a: R.Advanced, b: R.Advanced, key: Dotted)
    requires a.logLevel == b.logLevel
    ensures key in O.AdvancedKeys(a, b) <==>
      key.Key? && key.head == AdvancedHead && AdvancedValue(a, key.name) != AdvancedValue(b, key.name)
  {
    NumbersDiffer(a.ports, b.ports);
    hide Numbers;
  }

  /** `b` is `a` but for what `clamp` may change. */
  ghost predicate OnlyClamped(a: R.Account, b: R.Account) {
    && b.id == a.id && b.remote == a.remote && b.kind == a.kind && b.driveType == a.driveType
    && b.syncRoot == a.syncRoot && b.enabled == a.enabled && b.modes == a.modes
    && b.backend == a.backend.(chunkSize := b.backend.chunkSize, noVersions := b.backend.noVersions,
                               hardDelete := b.backend.hardDelete)
    && b.bandwidth == a.bandwidth.(downloadKb := b.bandwidth.downloadKb, uploadKb := b.bandwidth.uploadKb,
                                   autoPercent := b.bandwidth.autoPercent)
    && b.files.namePolicy == a.files.namePolicy && b.vault.backend == a.vault.backend
    && b.offline == a.offline.(enabled := b.offline.enabled, schedule := b.offline.schedule,
                               maxDelete := b.offline.maxDelete, maxLock := b.offline.maxLock)
  }

  /** The account has another value under this key, which is one of this section. */
  ghost predicate DiffersAt(a: R.Account, b: R.Account, key: Dotted, head: Name) {
    key.Key? && key.head == head && ValueUnder(a, head, key.name) != ValueUnder(b, head, key.name)
  }

  lemma MountReported(a: R.Account, b: R.Account, key: Dotted)
    ensures key in O.MountKeys(a.mount, b.mount) <==> DiffersAt(a, b, key, MountHead)
  {
    MountNotes(a.mount, b.mount, key);
    hide O.MountKeys, MountValue;
  }

  ghost predicate ThreadNoted(a: R.Mount, b: R.Mount, key: Dotted) {
    || key in O.Note(MountHead, Transfers, a.transfers, b.transfers)
    || key in O.Note(MountHead, Checkers, a.checkers, b.checkers)
    || key in O.Note(MountHead, ReadChunkStreams, a.readChunkStreams, b.readChunkStreams)
    || key in O.Note(MountHead, DirCacheTime, a.dirCacheTime, b.dirCacheTime)
    || key in O.Note(MountHead, PollInterval, a.pollInterval, b.pollInterval)
  }

  lemma ThreadNotes(a: R.Mount, b: R.Mount, key: Dotted)
    ensures ThreadNoted(a, b, key) <==>
      && key.Key? && key.head == MountHead
      && key.name in {Transfers, Checkers, ReadChunkStreams, DirCacheTime, PollInterval}
      && MountValue(a, key.name) != MountValue(b, key.name)
  {
    InNote(MountHead, Transfers, a.transfers, b.transfers, key);
    InNote(MountHead, Checkers, a.checkers, b.checkers, key);
    InNote(MountHead, ReadChunkStreams, a.readChunkStreams, b.readChunkStreams, key);
    InNote(MountHead, DirCacheTime, a.dirCacheTime, b.dirCacheTime, key);
    InNote(MountHead, PollInterval, a.pollInterval, b.pollInterval, key);
    hide O.Note;
  }

  ghost predicate ChunkNoted(a: R.Mount, b: R.Mount, key: Dotted) {
    || key in O.Note(MountHead, CacheMaxSize, a.cacheMaxSize, b.cacheMaxSize)
    || key in O.Note(MountHead, ReadChunkSize, a.readChunkSize, b.readChunkSize)
    || key in O.Note(MountHead, TpsLimit, a.tpslimit, b.tpslimit)
    || key in O.Note(MountHead, ExtraArgs, a.extraArgs, b.extraArgs)
  }

  lemma ChunkNotes(a: R.Mount, b: R.Mount, key: Dotted)
    ensures ChunkNoted(a, b, key) <==>
      && key.Key? && key.head == MountHead && key.name in {CacheMaxSize, ReadChunkSize, TpsLimit, ExtraArgs}
      && MountValue(a, key.name) != MountValue(b, key.name)
  {
    InNote(MountHead, CacheMaxSize, a.cacheMaxSize, b.cacheMaxSize, key);
    InNote(MountHead, ReadChunkSize, a.readChunkSize, b.readChunkSize, key);
    InNote(MountHead, TpsLimit, a.tpslimit, b.tpslimit, key);
    InNote(MountHead, ExtraArgs, a.extraArgs, b.extraArgs, key);
    TextsDiffer(a.extraArgs, b.extraArgs);
    hide Texts, O.Note;
  }

  lemma MountNotes(a: R.Mount, b: R.Mount, key: Dotted)
    ensures key in O.MountKeys(a, b) <==>
      key.Key? && key.head == MountHead && MountValue(a, key.name) != MountValue(b, key.name)
  {
    MountKeysAre(a, b, key);
    ThreadNotes(a, b, key);
    ChunkNotes(a, b, key);
    hide O.MountKeys, ThreadNoted, ChunkNoted;
  }

  lemma MountKeysAre(a: R.Mount, b: R.Mount, key: Dotted)
    ensures key in O.MountKeys(a, b) <==> ThreadNoted(a, b, key) || ChunkNoted(a, b, key)
  {
    hide O.Note;
  }

  lemma BackendReported(a: R.Account, b: R.Account, key: Dotted)
    requires OnlyClamped(a, b)
    ensures key in O.BackendKeys(a.backend, b.backend) <==> DiffersAt(a, b, key, BackendHead)
  {
    BackendNotes(a, b, key);
    hide O.BackendKeys, BackendValue, OnlyClamped;
  }

  lemma BackendNotes(a: R.Account, b: R.Account, key: Dotted)
    requires OnlyClamped(a, b)
    ensures key in O.BackendKeys(a.backend, b.backend) <==>
      && key.Key? && key.head == BackendHead
      && BackendValue(a.backend, key.name) != BackendValue(b.backend, key.name)
  {
  }

  lemma ClampedOnly(a: R.Account, world: R.World)
    ensures OnlyClamped(a, R.ClampAccount(a, world))
  {
    hide R.ClampMount, R.ClampRate, R.Within, R.Max, R.ChunkSizeOk, R.MaxLockOk, R.LockMinutesOk, R.NearestLock;
  }

  ghost predicate BandwidthNoted(a: R.Account, b: R.Account, key: Dotted) {
    || key in O.Note(BandwidthHead, DownloadKb, a.bandwidth.downloadKb, b.bandwidth.downloadKb)
    || key in O.Note(BandwidthHead, UploadKb, a.bandwidth.uploadKb, b.bandwidth.uploadKb)
    || key in O.Note(BandwidthHead, AutoPercent, a.bandwidth.autoPercent, b.bandwidth.autoPercent)
  }

  lemma BandwidthReported(a: R.Account, b: R.Account, key: Dotted)
    requires OnlyClamped(a, b)
    ensures BandwidthNoted(a, b, key) <==> DiffersAt(a, b, key, BandwidthHead)
  {
    BandwidthNotes(a, b, key);
    hide BandwidthNoted, BandwidthValue, OnlyClamped;
  }

  lemma BandwidthNotes(a: R.Account, b: R.Account, key: Dotted)
    requires OnlyClamped(a, b)
    ensures BandwidthNoted(a, b, key) <==>
      && key.Key? && key.head == BandwidthHead
      && BandwidthValue(a.bandwidth, key.name) != BandwidthValue(b.bandwidth, key.name)
  {
    InNote(BandwidthHead, DownloadKb, a.bandwidth.downloadKb, b.bandwidth.downloadKb, key);
    InNote(BandwidthHead, UploadKb, a.bandwidth.uploadKb, b.bandwidth.uploadKb, key);
    InNote(BandwidthHead, AutoPercent, a.bandwidth.autoPercent, b.bandwidth.autoPercent, key);
    hide O.Note;
  }

  ghost predicate SafetyNoted(a: R.Account, b: R.Account, key: Dotted) {
    || key in O.Note(SafetyHead, MassDeleteThreshold, a.safety.massDelete, b.safety.massDelete)
    || key in O.Note(SafetyHead, RefusePathsUnderMount, a.safety.refuseUnderMount, b.safety.refuseUnderMount)
    || key in O.Note(SafetyHead, MinDiskSpace, a.safety.minDisk, b.safety.minDisk)
    || key in O.Note(SafetyHead, WarningMinDiskSpace, a.safety.warnDisk, b.safety.warnDisk)
  }

  lemma SafetyReported(a: R.Account, b: R.Account, key: Dotted)
    requires OnlyClamped(a, b)
    ensures SafetyNoted(a, b, key) <==> DiffersAt(a, b, key, SafetyHead)
  {
    SafetyNotes(a, b, key);
    hide SafetyNoted, SafetyValue, OnlyClamped;
  }

  lemma SafetyNotes(a: R.Account, b: R.Account, key: Dotted)
    requires OnlyClamped(a, b)
    ensures SafetyNoted(a, b, key) <==>
      && key.Key? && key.head == SafetyHead
      && SafetyValue(a.safety, key.name) != SafetyValue(b.safety, key.name)
  {
    InNote(SafetyHead, MassDeleteThreshold, a.safety.massDelete, b.safety.massDelete, key);
    InNote(SafetyHead, RefusePathsUnderMount, a.safety.refuseUnderMount, b.safety.refuseUnderMount, key);
    InNote(SafetyHead, MinDiskSpace, a.safety.minDisk, b.safety.minDisk, key);
    InNote(SafetyHead, WarningMinDiskSpace, a.safety.warnDisk, b.safety.warnDisk, key);
    hide O.Note;
  }

  ghost predicate FilesNoted(a: R.Account, b: R.Account, key: Dotted) {
    || key in O.Note(FilesHead, MaxFileBytes, a.files.maxBytes, b.files.maxBytes)
    || key in O.Note(FilesHead, MaxRelPathChars, a.files.maxRelChars, b.files.maxRelChars)
    || key in O.Note(FilesHead, MaxTotalPathChars, a.files.maxTotalChars, b.files.maxTotalChars)
  }

  lemma FilesReported(a: R.Account, b: R.Account, key: Dotted)
    requires OnlyClamped(a, b)
    ensures FilesNoted(a, b, key) <==> DiffersAt(a, b, key, FilesHead)
  {
    FilesNotes(a, b, key);
    hide FilesNoted, FilesValue, OnlyClamped;
  }

  lemma FilesNotes(a: R.Account, b: R.Account, key: Dotted)
    requires OnlyClamped(a, b)
    ensures FilesNoted(a, b, key) <==>
      && key.Key? && key.head == FilesHead
      && FilesValue(a.files, key.name) != FilesValue(b.files, key.name)
  {
    InNote(FilesHead, MaxFileBytes, a.files.maxBytes, b.files.maxBytes, key);
    InNote(FilesHead, MaxRelPathChars, a.files.maxRelChars, b.files.maxRelChars, key);
    InNote(FilesHead, MaxTotalPathChars, a.files.maxTotalChars, b.files.maxTotalChars, key);
    hide O.Note;
  }

  ghost predicate OnDemandNoted(a: R.Account, b: R.Account, key: Dotted) {
    || key in O.Note(OnDemandHead, HydrateConcurrency, a.onDemand.hydrate, b.onDemand.hydrate)
    || key in O.Note(OnDemandHead, AutoFreeUpDays, a.onDemand.freeUpDays, b.onDemand.freeUpDays)
  }

  lemma OnDemandReported(a: R.Account, b: R.Account, key: Dotted)
    requires OnlyClamped(a, b)
    ensures OnDemandNoted(a, b, key) <==> DiffersAt(a, b, key, OnDemandHead)
  {
    OnDemandNotes(a, b, key);
    hide OnDemandNoted, OnDemandValue, OnlyClamped;
  }

  lemma OnDemandNotes(a: R.Account, b: R.Account, key: Dotted)
    requires OnlyClamped(a, b)
    ensures OnDemandNoted(a, b, key) <==>
      && key.Key? && key.head == OnDemandHead
      && OnDemandValue(a.onDemand, key.name) != OnDemandValue(b.onDemand, key.name)
  {
    InNote(OnDemandHead, HydrateConcurrency, a.onDemand.hydrate, b.onDemand.hydrate, key);
    InNote(OnDemandHead, AutoFreeUpDays, a.onDemand.freeUpDays, b.onDemand.freeUpDays, key);
    hide O.Note;
  }

  ghost predicate VaultNoted(a: R.Account, b: R.Account, key: Dotted) {
    || key in O.Note(VaultHead, AutoLockMinutes, a.vault.lockMinutes, b.vault.lockMinutes)
    || key in O.Note(VaultHead, WarnBeforeMinutes, a.vault.warnMinutes, b.vault.warnMinutes)
  }

  lemma VaultReported(a: R.Account, b: R.Account, key: Dotted)
    requires OnlyClamped(a, b)
    ensures VaultNoted(a, b, key) <==> DiffersAt(a, b, key, VaultHead)
  {
    VaultNotes(a, b, key);
    hide VaultNoted, VaultValue, OnlyClamped;
  }

  lemma VaultNotes(a: R.Account, b: R.Account, key: Dotted)
    requires OnlyClamped(a, b)
    ensures VaultNoted(a, b, key) <==>
      && key.Key? && key.head == VaultHead
      && VaultValue(a.vault, key.name) != VaultValue(b.vault, key.name)
  {
    InNote(VaultHead, AutoLockMinutes, a.vault.lockMinutes, b.vault.lockMinutes, key);
    InNote(VaultHead, WarnBeforeMinutes, a.vault.warnMinutes, b.vault.warnMinutes, key);
    hide O.Note;
  }

  ghost predicate OfflineNoted(a: R.Account, b: R.Account, key: Dotted) {
    || key in O.Note(OfflineHead, Enabled, a.offline.enabled, b.offline.enabled)
    || key in O.Note(OfflineHead, ScheduleMinutes, a.offline.schedule, b.offline.schedule)
    || key in O.Note(OfflineHead, MaxDeletePercent, a.offline.maxDelete, b.offline.maxDelete)
    || key in O.Note(OfflineHead, MaxLock, a.offline.maxLock, b.offline.maxLock)
  }

  lemma OfflineReported(a: R.Account, b: R.Account, key: Dotted)
    requires OnlyClamped(a, b)
    ensures OfflineNoted(a, b, key) <==> DiffersAt(a, b, key, OfflineHead)
  {
    OfflineNotes(a, b, key);
    hide OfflineNoted, OfflineValue, OnlyClamped;
  }

  lemma OfflineNotes(a: R.Account, b: R.Account, key: Dotted)
    requires OnlyClamped(a, b)
    ensures OfflineNoted(a, b, key) <==>
      && key.Key? && key.head == OfflineHead
      && OfflineValue(a.offline, key.name) != OfflineValue(b.offline, key.name)
  {
    InNote(OfflineHead, Enabled, a.offline.enabled, b.offline.enabled, key);
    InNote(OfflineHead, ScheduleMinutes, a.offline.schedule, b.offline.schedule, key);
    InNote(OfflineHead, MaxDeletePercent, a.offline.maxDelete, b.offline.maxDelete, key);
    InNote(OfflineHead, MaxLock, a.offline.maxLock, b.offline.maxLock, key);
    hide O.Note;
  }

  ghost predicate UiNoted(a: R.Account, b: R.Account, key: Dotted) {
    || key in O.Note(UiHead, ActivityCenterWidth, a.ui.width, b.ui.width)
    || key in O.Note(UiHead, ActivityRows, a.ui.rows, b.ui.rows)
  }

  lemma UiReported(a: R.Account, b: R.Account, key: Dotted)
    requires OnlyClamped(a, b)
    ensures UiNoted(a, b, key) <==> DiffersAt(a, b, key, UiHead)
  {
    UiNotes(a, b, key);
    hide UiNoted, UiValue, OnlyClamped;
  }

  lemma UiNotes(a: R.Account, b: R.Account, key: Dotted)
    requires OnlyClamped(a, b)
    ensures UiNoted(a, b, key) <==>
      && key.Key? && key.head == UiHead
      && UiValue(a.ui, key.name) != UiValue(b.ui, key.name)
  {
    InNote(UiHead, ActivityCenterWidth, a.ui.width, b.ui.width, key);
    InNote(UiHead, ActivityRows, a.ui.rows, b.ui.rows, key);
    hide O.Note;
  }

  lemma PolicyReported(a: R.Account, b: R.Account, key: Dotted)
    ensures key in O.PolicyKeys(a, b) <==>
      BandwidthNoted(a, b, key) || SafetyNoted(a, b, key) || FilesNoted(a, b, key) || OnDemandNoted(a, b, key)
  {
    hide O.Note;
  }

  lemma RestReported(a: R.Account, b: R.Account, key: Dotted)
    ensures key in O.RestKeys(a, b) || key in O.Note(OfflineHead, Enabled, a.offline.enabled, b.offline.enabled) <==>
      VaultNoted(a, b, key) || OfflineNoted(a, b, key) || UiNoted(a, b, key)
  {
    hide O.Note;
  }

  lemma RestIsSame(a: R.Account, b: R.Account, head: Name, name: Name)
    requires OnlyClamped(a, b)
    ensures ScalarValue(a, name) == ScalarValue(b, name)
    ensures ModeValue(a.modes, head, name) == ModeValue(b.modes, head, name)
  {
  }

  ghost predicate DiffersInRest(a: R.Account, b: R.Account, key: Dotted) {
    || DiffersAt(a, b, key, BandwidthHead) || DiffersAt(a, b, key, SafetyHead) || DiffersAt(a, b, key, FilesHead)
    || DiffersAt(a, b, key, OnDemandHead) || DiffersAt(a, b, key, VaultHead) || DiffersAt(a, b, key, OfflineHead)
    || DiffersAt(a, b, key, UiHead)
  }

  lemma DiffersSomewhere(a: R.Account, b: R.Account, key: Dotted)
    requires OnlyClamped(a, b)
    ensures key.Key? && ValueUnder(a, key.head, key.name) != ValueUnder(b, key.head, key.name) <==>
      DiffersAt(a, b, key, MountHead) || DiffersAt(a, b, key, BackendHead) || DiffersInRest(a, b, key)
  {
    if key.Key? {
      RestIsSame(a, b, key.head, key.name);
    }
    hide OnlyClamped, ScalarValue, MountValue, BackendValue, BandwidthValue, SafetyValue, FilesValue, OnDemandValue;
    hide VaultValue, OfflineValue, UiValue, ModeValue;
  }

  lemma AccountReported(a: R.Account, b: R.Account, key: Dotted)
    requires OnlyClamped(a, b)
    ensures key in O.AccountKeys(a, b) <==>
      key.Key? && ValueUnder(a, key.head, key.name) != ValueUnder(b, key.head, key.name)
  {
    hide OnlyClamped, DiffersAt, ValueUnder, O.MountKeys, O.BackendKeys, O.PolicyKeys, O.RestKeys, O.Note;
    hide BandwidthNoted, SafetyNoted, FilesNoted, OnDemandNoted, VaultNoted, OfflineNoted, UiNoted;
    MountReported(a, b, key);
    BackendReported(a, b, key);
    PolicyReported(a, b, key);
    RestReported(a, b, key);
    BandwidthReported(a, b, key);
    SafetyReported(a, b, key);
    FilesReported(a, b, key);
    OnDemandReported(a, b, key);
    VaultReported(a, b, key);
    OfflineReported(a, b, key);
    UiReported(a, b, key);
    DiffersSomewhere(a, b, key);
  }

  /** Some account has another value there than before. */
  ghost predicate SomeMoved(was: seq<R.Account>, now: seq<R.Account>, head: Name, name: Name)
    requires |was| == |now|
  {
    exists i :: 0 <= i < |was| && ValueUnder(was[i], head, name) != ValueUnder(now[i], head, name)
  }

  lemma {:induction false} AccountsReported(accounts: seq<R.Account>, world: R.World, key: Dotted)
    ensures key in O.AccountsKeys(accounts, R.ClampAccounts(accounts, world)) <==>
      key.Key? && SomeMoved(accounts, R.ClampAccounts(accounts, world), key.head, key.name)
  {
    hide R.ClampAccount, O.AccountKeys, ValueUnder, OnlyClamped;
    if accounts != [] {
      var n := |accounts| - 1;
      AccountsReported(accounts[..n], world, key);
      ClampedOnly(accounts[n], world);
      AccountReported(accounts[n], R.ClampAccount(accounts[n], world), key);
      var clamped := R.ClampAccounts(accounts, world);
      assert clamped[..n] == R.ClampAccounts(accounts[..n], world) && clamped[n] == R.ClampAccount(accounts[n], world);
    }
  }

  /** `clamp` reports a key exactly when the value under it is another than before. */
  lemma ClampReports(c: R.Config, world: R.World, key: Dotted)
    ensures var d := R.Clamped(c, world);
      key in O.ClampKeys(c, world) <==>
        && key.Key?
        && (|| (key.head == AdvancedHead && AdvancedValue(c.advanced, key.name) != AdvancedValue(d.advanced, key.name))
            || SomeMoved(c.accounts, d.accounts, key.head, key.name))
  {
    AccountsReported(c.accounts, world, key);
    AdvancedReported(c.advanced, R.ClampAdvanced(c.advanced), key);
    hide R.ClampAccount, R.ClampAccounts, R.ClampAdvanced, O.AdvancedKeys, O.AccountsKeys, SomeMoved, AdvancedValue;
  }
}
