/**
 onedriveui/config.py: when `load` and `validate` raise, what `load` leaves for `validate` otherwise,
 what `save` and `load` do to an accepted configuration, and that the defaults are one.
 */
module ConfigLoad {
  import opened Basics
  import opened ConfigNames
  import opened Units
  import opened ConfigCodec
  import opened ConfigSchema
  import R = ConfigRules
  import C = ConfigClamp

  // ---------------------------------------------------------------------------------------------
  // Any JSON, read and clamped

  /** What neither the enumerations nor `clamp` can put right. */
  predicate NoSafeAnswer(p: R.Problem) {
    match p
    case IdEmpty | IdRepeated(_) | RootShared(_) | RemoteShared(_) | RemoteEmpty | RemoteHasColon(_) => true
    case CutoffUnreadable | RootRelative | RootUnderMount => true
    case DownloadUnset | UploadUnset | CheckFilenameBlank | ActiveUnknown(_) => true
    case _ => false
  }

  /** No key is outside its enumeration. */
  predicate Free(problems: seq<R.Problem>) {
    forall p :: p in problems ==> !p.NotAChoice? && !p.WrongSchema?
  }

  lemma FreeJoin(parts: seq<seq<R.Problem>>)
    requires forall i :: 0 <= i < |parts| ==> Free(parts[i])
    ensures Free(R.Join(parts))
  {
    forall p | p in R.Join(parts) ensures !p.NotAChoice? && !p.WrongSchema? {
      C.InJoin(parts, p);
    }
  }

  lemma {:induction false} FreeArgs(args: seq<string>)
    ensures Free(R.ArgProblems(args))
  {
    hide R.Join, R.Token, R.Inplace;
    if args != [] {
      var n := |args| - 1;
      FreeArgs(args[..n]);
      FreeJoin(R.ArgChecks(args[n]));
    }
  }

  lemma FreeMount(m: R.Mount)
    ensures Free(R.Join(R.MountChecks(m)))
  {
    FreeArgs(m.extraArgs);
    hide R.ArgProblems;
    FreeJoin(R.MountChecks(m));
  }

  lemma FreeBackend(b: R.Backend, personal: bool)
    ensures Free(R.Join(R.BackendChecks(b, personal)))
  {
    hide ParseSize, R.ChunkSizeOk;
    FreeJoin(R.BackendChecks(b, personal));
  }

  lemma FreePath(acc: R.Account, world: R.World)
    ensures Free(R.Join(R.PathChecks(acc, world))) && Free(R.Join(R.OfflineChecks(acc.offline, world)))
  {
    hide R.Join, R.Root, R.Expanded, R.UnderMount, R.LockMinutes, Strip;
    FreeJoin(R.PathChecks(acc, world));
    FreeJoin(R.OfflineChecks(acc.offline, world));
  }

  lemma FreePolicy(acc: R.Account)
    ensures Free(R.Join(R.BandwidthChecks(acc.bandwidth))) && Free(R.Join(R.SafetyChecks(acc.safety)))
    ensures Free(R.Join(R.FilesChecks(acc.files))) && Free(R.Join(R.OnDemandChecks(acc.onDemand)))
    ensures Free(R.Join(R.VaultChecks(acc.vault))) && Free(R.Join(R.UiChecks(acc.ui)))
  {
    hide R.Join, R.RateOk, R.LockMinutesOk;
    FreeJoin(R.BandwidthChecks(acc.bandwidth));
    FreeJoin(R.SafetyChecks(acc.safety));
    FreeJoin(R.FilesChecks(acc.files));
    FreeJoin(R.OnDemandChecks(acc.onDemand));
    FreeJoin(R.VaultChecks(acc.vault));
    FreeJoin(R.UiChecks(acc.ui));
  }

  lemma FreeOwn(acc: R.Account, world: R.World)
    requires R.Join(R.ChoiceChecks(acc)) == []
    ensures Free(R.Join(R.OwnChecks(acc, world)))
  {
    FreeMount(acc.mount);
    FreeBackend(acc.backend, R.PersonalDrive(acc));
    FreePath(acc, world);
    FreePolicy(acc);
    hide R.Join, R.MountChecks, R.BackendChecks, R.PathChecks, R.BandwidthChecks, R.SafetyChecks, R.FilesChecks;
    hide R.OnDemandChecks, R.VaultChecks, R.OfflineChecks, R.UiChecks, R.ChoiceChecks;
    FreeJoin(R.OwnChecks(acc, world));
  }

  lemma FreeClash(before: seq<R.Account>, acc: R.Account, world: R.World)
    ensures Free(R.Join(R.ClashChecks(before, acc, world)))
  {
    hide R.Join, R.Root, R.HasId, R.HasRoot, R.HasRemote;
    FreeJoin(R.ClashChecks(before, acc, world));
  }

  lemma {:induction false} FreeAccounts(accounts: seq<R.Account>, world: R.World)
    requires forall i :: 0 <= i < |accounts| ==> R.Join(R.ChoiceChecks(accounts[i])) == []
    ensures Free(R.AccountsProblems(accounts, world))
  {
    hide R.Join, R.ClashChecks, R.OwnChecks, R.ChoiceChecks;
    if accounts != [] {
      var n := |accounts| - 1;
      FreeAccounts(accounts[..n], world);
      FreeClash(accounts[..n], accounts[n], world);
      FreeOwn(accounts[n], world);
    }
  }

  lemma PartFits(e: Entry, head: Name)
    requires EntryFits(LAYOUT, e) && head in HEADS
    ensures head in e.sections && SectionFits(PartSchema(head), Part(e, head))
  {
    PartAt(head);
    hide PARTS, HEADS, PartSchema, SCALARS, SectionFits;
  }

  /** What was read of an enumerated key is one of its values. */
  lemma EnumRead(e: Entry, head: Name, n: Name)
    requires EntryFits(LAYOUT, e) && head in HEADS && n in PartSchema(head)
    requires PartSchema(head)[n].hint == HStr && PartSchema(head)[n].choices != []
    ensures StrAt(Part(e, head), n) in PartSchema(head)[n].choices
  {
    hide HEADS, PartSchema, EntryFits, SectionFits;
    PartFits(e, head);
    ChoiceRead(PartSchema(head), Part(e, head), n);
  }

  lemma BackendChoices(e: Entry)
    requires EntryFits(LAYOUT, e)
    ensures var b := BackendOf(Part(e, BackendHead));
      b.linkScope in R.SCOPES && b.linkType in R.LINK_TYPES && b.metadataPermissions in R.PERMISSIONS
  {
    hide EntryFits, StrAt, Part, PARTS, WellDeclared, Plain, Fits, HasType;
    EnumRead(e, BackendHead, LinkScope);
    EnumRead(e, BackendHead, LinkType);
    EnumRead(e, BackendHead, MetadataPermissions);
  }

  lemma PolicyChoices(e: Entry)
    requires EntryFits(LAYOUT, e)
    ensures BandwidthOf(Part(e, BandwidthHead)).uploadMode in R.UPLOAD_MODES
    ensures FilesOf(Part(e, FilesHead)).namePolicy in R.NAME_POLICIES
    ensures VaultOf(Part(e, VaultHead)).backend in R.VAULT_BACKENDS
  {
    hide EntryFits, Part, BandwidthOf, FilesOf, VaultOf;
    UploadChoice(e);
    NameChoice(e);
    VaultChoice(e);
  }

  lemma UploadChoice(e: Entry)
    requires EntryFits(LAYOUT, e)
    ensures BandwidthOf(Part(e, BandwidthHead)).uploadMode in R.UPLOAD_MODES
  {
    hide EntryFits, StrAt, Part, PARTS, WellDeclared, Plain, Fits, HasType;
    hide MOUNT, BACKEND, OFFLINE, SAFETY, SCALARS, UI, ON_DEMAND;
    EnumRead(e, BandwidthHead, UploadMode);
  }

  lemma NameChoice(e: Entry)
    requires EntryFits(LAYOUT, e)
    ensures FilesOf(Part(e, FilesHead)).namePolicy in R.NAME_POLICIES
  {
    hide EntryFits, StrAt, Part, PARTS, WellDeclared, Plain, Fits, HasType;
    hide MOUNT, BACKEND, OFFLINE, SAFETY, SCALARS, UI, ON_DEMAND;
    EnumRead(e, FilesHead, NamePolicy);
  }

  lemma VaultChoice(e: Entry)
    requires EntryFits(LAYOUT, e)
    ensures VaultOf(Part(e, VaultHead)).backend in R.VAULT_BACKENDS
  {
    hide EntryFits, StrAt, Part, PARTS, WellDeclared, Plain, Fits, HasType;
    hide MOUNT, BACKEND, OFFLINE, SAFETY, SCALARS, UI, ON_DEMAND;
    EnumRead(e, VaultHead, VaultBackend);
  }

  lemma OfflineChoices(e: Entry)
    requires EntryFits(LAYOUT, e)
    ensures var o := OfflineOf(Part(e, OfflineHead)); o.resolve in R.RESOLVES && o.loser in R.LOSERS
  {
    hide EntryFits, StrAt, Part, PARTS, WellDeclared, Plain, Fits, HasType;
    EnumRead(e, OfflineHead, ConflictResolve);
    EnumRead(e, OfflineHead, ConflictLoser);
  }

  lemma ModeChoices(e: Entry)
    requires EntryFits(LAYOUT, e)
    ensures var m := ModesOf(e);
      m.conflicts in R.CONFLICT_POLICIES && m.selective in R.SELECTIVE_MODES && m.kfm in R.KFM_METHODS
  {
    hide EntryFits, ModesOf;
    ConflictChoice(e);
    SelectiveChoice(e);
    KfmChoice(e);
  }

  lemma ConflictChoice(e: Entry)
    requires EntryFits(LAYOUT, e)
    ensures ModesOf(e).conflicts in R.CONFLICT_POLICIES
  {
    hide EntryFits, StrAt, Part, PARTS, WellDeclared, Plain, Fits, HasType;
    hide MOUNT, BACKEND, OFFLINE, SAFETY, FILES, BANDWIDTH, VAULT, UI, ON_DEMAND, SCALARS, SHARING;
    EnumRead(e, ConflictsHead, Policy);
  }

  lemma SelectiveChoice(e: Entry)
    requires EntryFits(LAYOUT, e)
    ensures ModesOf(e).selective in R.SELECTIVE_MODES
  {
    hide EntryFits, StrAt, Part, PARTS, WellDeclared, Plain, Fits, HasType;
    hide MOUNT, BACKEND, OFFLINE, SAFETY, FILES, BANDWIDTH, VAULT, UI, ON_DEMAND, SCALARS, SHARING;
    EnumRead(e, SelectiveHead, Mode);
  }

  lemma KfmChoice(e: Entry)
    requires EntryFits(LAYOUT, e)
    ensures ModesOf(e).kfm in R.KFM_METHODS
  {
    hide EntryFits, StrAt, Part, PARTS, WellDeclared, Plain, Fits, HasType;
    hide MOUNT, BACKEND, OFFLINE, SAFETY, FILES, BANDWIDTH, VAULT, UI, ON_DEMAND, SCALARS, SHARING;
    EnumRead(e, KfmHead, Method);
  }

  lemma SharingChoices(e: Entry)
    requires EntryFits(LAYOUT, e)
    ensures ModesOf(e).sharingScope in R.SCOPES && ModesOf(e).sharingType in R.LINK_TYPES
  {
    hide EntryFits, StrAt, Part, PARTS, WellDeclared, Plain, Fits, HasType;
    hide MOUNT, BACKEND, OFFLINE, SAFETY, FILES, BANDWIDTH, VAULT, UI, ON_DEMAND, SCALARS;
    EnumRead(e, SharingHead, DefaultScope);
    EnumRead(e, SharingHead, DefaultType);
  }

  lemma KindChoice(e: Entry)
    requires EntryFits(LAYOUT, e)
    ensures StrAt(e.scalars, Kind) in R.KINDS
  {
    hide PARTS, StrAt;
    ChoiceRead(SCALARS, e.scalars, Kind);
  }

  lemma ChoicesRead(e: Entry)
    requires EntryFits(LAYOUT, e)
    ensures R.Join(R.ChoiceChecks(Seen(e))) == []
  {
    hide EntryFits, R.Join, R.OneOf, BackendOf, BandwidthOf, FilesOf, VaultOf, OfflineOf, ModesOf, StrAt, Part, MountOf;
    BackendChoices(e);
    PolicyChoices(e);
    OfflineChoices(e);
    ModeChoices(e);
    SharingChoices(e);
    KindChoice(e);
    forall key, value, allowed | value in allowed ensures R.OneOf(key, value, allowed) == [] {
      InEnumeration(key, value, allowed);
    }
    C.EmptyJoin(R.ChoiceChecks(Seen(e)));
  }

  lemma InEnumeration(key: Dotted, value: string, allowed: seq<string>)
    requires value in allowed
    ensures R.OneOf(key, value, allowed) == []
  {
  }

  lemma AppChoices(d: Document)
    requires DocumentFits(LAYOUT, d)
    ensures var app := AppOf(d.app);
      && app.theme in R.THEMES && app.accentSource in R.ACCENTS
      && app.animations in R.ANIMATIONS && app.autostartMethod in R.AUTOSTARTS
  {
    hide SectionFits, AllFit, StrAt, MOUNT, PARTS, SCALARS, ADVANCED, WellDeclared, Plain, Fits, HasType;
    ChoiceRead(APP, d.app, Theme);
    ChoiceRead(APP, d.app, AccentSource);
    ChoiceRead(APP, d.app, Animations);
    ChoiceRead(APP, d.app, AutostartMethod);
  }

  lemma LevelChoice(d: Document)
    requires DocumentFits(LAYOUT, d)
    ensures AdvancedOf(d.advanced).logLevel in R.LOG_LEVELS
  {
    hide SectionFits, AllFit, StrAt, MOUNT, PARTS, SCALARS, APP, WellDeclared, Plain, Fits, HasType;
    ChoiceRead(ADVANCED, d.advanced, LogLevel);
  }

  lemma AppRead(d: Document)
    requires DocumentFits(LAYOUT, d)
    ensures R.Join(R.AppChecks(AppOf(d.app), AdvancedOf(d.advanced))) == []
  {
    hide R.Join, R.OneOf, DocumentFits, AppOf, AdvancedOf;
    AppChoices(d);
    LevelChoice(d);
    var app, adv := AppOf(d.app), AdvancedOf(d.advanced);
    forall key, value, allowed | value in allowed ensures R.OneOf(key, value, allowed) == [] {
      InEnumeration(key, value, allowed);
    }
    C.EmptyJoin(R.AppChecks(app, adv));
  }

  lemma FreeAdvanced(a: R.Advanced)
    ensures Free(R.Join(R.AdvancedChecks(a)))
  {
    hide R.Join, R.PortsOk;
    FreeJoin(R.AdvancedChecks(a));
  }

  lemma FreeConfig(d: Document, world: R.World)
    requires DocumentFits(LAYOUT, d)
    ensures Free(R.Join(R.Checks(RulesOf(d), world)))
  {
    hide R.Join, R.AppChecks, R.AdvancedChecks, R.AccountsProblems, R.ActiveOk, EntryFits, Seen, AppOf, AdvancedOf;
    hide SectionFits, LAYOUT;
    AppRead(d);
    FreeAdvanced(AdvancedOf(d.advanced));
    var seen := SeenAll(d.accounts);
    forall i | 0 <= i < |seen| ensures R.Join(R.ChoiceChecks(seen[i])) == [] {
      ChoicesRead(d.accounts[i]);
    }
    FreeAccounts(seen, world);
    FreeJoin(R.Checks(RulesOf(d), world));
  }

  lemma {:induction false} OnlyUnrepairable(problems: seq<R.Problem>, p: R.Problem)
    requires p in C.Unrepairable(problems)
    ensures p in problems && !R.Repairable(p)
  {
    if problems != [] {
      var n := |problems| - 1;
      if p in C.Unrepairable(problems[..n]) {
        OnlyUnrepairable(problems[..n], p);
      }
    }
  }

  // ---------------------------------------------------------------------------------------------
  // When load and validate raise

  /** The entry of an account limits the transactions to an integer that has no float. */
  predicate TpsTooBig(raw: Json) {
    var v := Get(Get(raw, MountHead), TpsLimit);
    v.Int? && TooBig(v.i)
  }

  predicate SizeTooBig(raw: Json, name: Name) {
    var v := Get(Get(raw, BackendHead), name);
    v.Str? && R.Overflows(v.s)
  }

  /** The folder of the entry cannot be looked up. */
  predicate RootBad(raw: Json, world: R.World) {
    var text := if Get(raw, SyncRoot).Str? then Get(raw, SyncRoot).s else "~/OneDrive";
    R.PathThrows(if text == "" then "~/OneDrive" else text, world)
  }

  predicate Quiet(schema: Schema) {
    forall n :: n in schema ==> FloatFree(schema[n].hint)
  }

  lemma QuietSection(schema: Schema, raw: Json, py: Python)
    requires Quiet(schema)
    ensures !SectionRaises(schema, raw, py)
  {
    forall n | n in schema ensures !KeyRaises(schema[n], raw, n, py) {
      RaisesIffTooBig(Get(raw, n), schema[n].hint, schema[n].choices, py);
    }
  }

  lemma QuietTop()
    ensures Quiet(APP) && Quiet(ADVANCED) && Quiet(SCALARS)
  {
  }

  lemma NothingQuiet()
    ensures Quiet(map[])
  {
  }

  lemma QuietOptions()
    ensures Quiet(BACKEND) && Quiet(BANDWIDTH) && Quiet(ON_DEMAND)
  {
  }

  lemma QuietLimits()
    ensures Quiet(SAFETY) && Quiet(FILES) && Quiet(UI)
  {
  }

  lemma QuietFolders()
    ensures Quiet(OFFLINE) && Quiet(VAULT)
  {
  }

  lemma QuietModes()
    ensures Quiet(CONFLICTS) && Quiet(SELECTIVE) && Quiet(KFM) && Quiet(SHARING)
  {
  }

  /** A float is declared for `mount.tpslimit` alone. */
  lemma QuietPart(head: Name)
    requires head != MountHead
    ensures Quiet(PartSchema(head))
  {
    hide Quiet, MOUNT, BACKEND, ON_DEMAND, BANDWIDTH, SAFETY, FILES, CONFLICTS, SELECTIVE, KFM, OFFLINE, SHARING;
    hide VAULT, UI, APP, ADVANCED, SCALARS, HEADS, PARTS, WellDeclared, Plain, Fits, HasType, FloatFree;
    NothingQuiet();
    QuietOptions();
    QuietLimits();
    QuietFolders();
    QuietModes();
  }

  lemma MountRaises(raw: Json, py: Python)
    ensures SectionRaises(MOUNT, raw, py) <==> Get(raw, TpsLimit).Int? && TooBig(Get(raw, TpsLimit).i)
  {
    hide TooBig, Coerce;
    forall n | n in MOUNT
      ensures KeyRaises(MOUNT[n], raw, n, py)
         <==> n == TpsLimit && Get(raw, TpsLimit).Int? && TooBig(Get(raw, TpsLimit).i)
    {
      RaisesIffTooBig(Get(raw, n), MOUNT[n].hint, MOUNT[n].choices, py);
    }
    assert TpsLimit in MOUNT;
  }

  lemma PartRaises(raw: Json, py: Python, head: Name)
    requires head in PARTS && SectionRaises(PARTS[head], Get(raw, head), py)
    ensures head == MountHead && TpsTooBig(raw)
  {
    PartAt(head);
    hide Quiet, SCALARS, APP, ADVANCED, HEADS, PARTS, SectionRaises, TooBig;
    MountRaises(Get(raw, MountHead), py);
    if head != MountHead {
      QuietPart(head);
      QuietSection(PartSchema(head), Get(raw, head), py);
    }
  }

  lemma EntryRaisesIff(raw: Json, py: Python)
    ensures EntryRaises(LAYOUT, raw, py) <==> TpsTooBig(raw)
  {
    assert MountHead in HEADS;
    PartAt(MountHead);
    hide Quiet, SCALARS, APP, ADVANCED, HEADS, PARTS, SectionRaises, TooBig;
    QuietTop();
    QuietSection(SCALARS, raw, py);
    MountRaises(Get(raw, MountHead), py);
    forall h | h in PARTS && SectionRaises(PARTS[h], Get(raw, h), py) ensures TpsTooBig(raw) {
      PartRaises(raw, py, h);
    }
  }

  /** The entries of the document as `from_dict` comes to them. */
  function Entries(raw: Json, py: Python): seq<Json> {
    RawEntries(Data(LAYOUT, raw, py))
  }

  predicate SomeEntry(entries: seq<Json>, bad: Json -> bool) {
    exists i :: 0 <= i < |entries| && entries[i].Obj? && bad(entries[i])
  }

  /** Reading raises exactly when some account limits its transactions to an integer without a float. */
  lemma ReadingRaisesIff(raw: Json, py: Python)
    ensures FromDict(LAYOUT, raw, py).Threw? <==> SomeEntry(Entries(raw, py), TpsTooBig)
  {
    var data := Data(LAYOUT, raw, py);
    QuietTop();
    QuietSection(APP, Get(data, AppHead), py);
    QuietSection(ADVANCED, Get(data, AdvancedHead), py);
    hide Quiet, SCALARS, APP, ADVANCED, PARTS, SectionRaises, TpsTooBig, EntryRaises, Data;
    var raws := RawEntries(data);
    forall i | 0 <= i < |raws| ensures EntryRaises(LAYOUT, raws[i], py) == TpsTooBig(raws[i]) {
      EntryRaisesIff(raws[i], py);
    }
  }

  lemma {:induction false} EntriesRead(layout: Layout, raws: seq<Json>, py: Python, e: Entry)
    ensures e in EntriesOf(layout, raws, py)
       <==> exists i :: 0 <= i < |raws| && raws[i].Obj? && e == EntryOf(layout, raws[i], py)
  {
    hide EntryOf;
    if raws != [] {
      var n := |raws| - 1;
      EntriesRead(layout, raws[..n], py, e);
      assert forall i :: 0 <= i < n ==> raws[..n][i] == raws[i];
    }
  }

  /** A text of the section is read as it stands. */
  lemma TextRead(schema: Schema, raw: Json, py: Python, n: Name)
    requires IsText(schema, n)
    ensures StrAt(SectionOf(schema, raw, py), n)
         == if Get(raw, n).Str? then Get(raw, n).s else schema[n].default.s
  {
  }

  lemma SizesAreTexts()
    ensures IsText(BACKEND, ChunkSize) && BACKEND[ChunkSize].default == Str("10M")
    ensures IsText(BACKEND, UploadCutoff) && BACKEND[UploadCutoff].default == Str("off")
  {
  }

  lemma DefaultSizesFit()
    ensures !R.Overflows("10M") && !R.Overflows("off")
  {
    hide ParseSize;
    C.DefaultChunkOk();
    OffParses();
  }

  /** The sizes that overflow for the rules are those that do in the document. */
  lemma SizesSeen(raw: Json, py: Python)
    ensures var a := Seen(EntryOf(LAYOUT, raw, py));
      && (R.ChunkOverflows(a) <==> SizeTooBig(raw, ChunkSize))
      && (R.Overflows(a.backend.uploadCutoff) <==> SizeTooBig(raw, UploadCutoff))
  {
    PartAt(BackendHead);
    SizesAreTexts();
    DefaultSizesFit();
    hide PARTS, BACKEND, SCALARS, StrAt, SectionOf, IsText, R.Overflows;
    TextRead(BACKEND, Get(raw, BackendHead), py, ChunkSize);
    TextRead(BACKEND, Get(raw, BackendHead), py, UploadCutoff);
    assert Part(EntryOf(LAYOUT, raw, py), BackendHead) == SectionOf(BACKEND, Get(raw, BackendHead), py);
  }

  lemma ScalarTexts()
    ensures IsText(SCALARS, SyncRoot) && SCALARS[SyncRoot].default == Str("~/OneDrive")
  {
  }

  lemma RootSeen(raw: Json, py: Python, world: R.World)
    ensures R.RootThrows(Seen(EntryOf(LAYOUT, raw, py)), world) <==> RootBad(raw, world)
  {
    ScalarTexts();
    hide PARTS, SCALARS, StrAt, SectionOf, IsText, R.PathThrows, Falsy;
    TextRead(SCALARS, raw, py, SyncRoot);
    SameRoot(SectionOf(SCALARS, raw, py), raw);
  }

  lemma SameRoot(scalars: Section, raw: Json)
    ensures StrAt(WithId(scalars, raw), SyncRoot) == StrAt(scalars, SyncRoot)
  {
    hide Falsy, Get;
  }

  /** The accounts are the entries that are objects. */
  lemma EntriesSeen(raws: seq<Json>, py: Python)
    ensures var accounts := SeenAll(EntriesOf(LAYOUT, raws, py));
      && (forall i :: 0 <= i < |raws| && raws[i].Obj? ==> Seen(EntryOf(LAYOUT, raws[i], py)) in accounts)
      && (forall a :: a in accounts ==>
            exists i :: 0 <= i < |raws| && raws[i].Obj? && a == Seen(EntryOf(LAYOUT, raws[i], py)))
  {
    hide LAYOUT, EntryOf, Seen;
    var entries := EntriesOf(LAYOUT, raws, py);
    var accounts := SeenAll(entries);
    forall i | 0 <= i < |raws| && raws[i].Obj?
      ensures Seen(EntryOf(LAYOUT, raws[i], py)) in accounts
    {
      EntriesRead(LAYOUT, raws, py, EntryOf(LAYOUT, raws[i], py));
      var k :| 0 <= k < |entries| && entries[k] == EntryOf(LAYOUT, raws[i], py);
      assert accounts[k] in accounts;
    }
    forall a | a in accounts
      ensures exists i :: 0 <= i < |raws| && raws[i].Obj? && a == Seen(EntryOf(LAYOUT, raws[i], py))
    {
      var k :| 0 <= k < |accounts| && accounts[k] == a;
      EntriesRead(LAYOUT, raws, py, entries[k]);
    }
  }

  /** What raises after reading is what does in the entries of the document. */
  lemma ThrowsSeenAll(raws: seq<Json>, py: Python, world: R.World)
    ensures var accounts := SeenAll(EntriesOf(LAYOUT, raws, py));
      && (C.SomeChunkOverflows(accounts) <==> SomeEntry(raws, r => SizeTooBig(r, ChunkSize)))
      && (C.SomeCutoffOverflows(accounts) <==> SomeEntry(raws, r => SizeTooBig(r, UploadCutoff)))
      && (C.SomeRootThrows(accounts, world) <==> SomeEntry(raws, r => RootBad(r, world)))
  {
    hide LAYOUT, EntryOf, EntriesOf, Seen, SeenAll, SizeTooBig, RootBad, R.Overflows, R.ChunkOverflows, R.RootThrows;
    EntriesSeen(raws, py);
    forall i | 0 <= i < |raws|
      ensures var a := Seen(EntryOf(LAYOUT, raws[i], py));
        && (R.ChunkOverflows(a) <==> SizeTooBig(raws[i], ChunkSize))
        && (R.Overflows(a.backend.uploadCutoff) <==> SizeTooBig(raws[i], UploadCutoff))
        && (R.RootThrows(a, world) <==> RootBad(raws[i], world))
    {
      SizesSeen(raws[i], py);
      RootSeen(raws[i], py, world);
    }
  }

  /** `load`, from what the file or its backup holds. */
  function Load(raw: Json, py: Python, world: R.World): Outcome<R.Config> {
    var read := FromDict(LAYOUT, raw, py);
    if read.Threw? then Threw else R.ClampResult(RulesOf(read.value), world)
  }

  /**
   `load` is documented never to raise.  It does exactly when some account limits its transactions to
   an integer without a float, or has a chunk size without one.
   */
  lemma LoadRaisesIff(raw: Json, py: Python, world: R.World)
    ensures Load(raw, py, world).Threw?
       <==> SomeEntry(Entries(raw, py), TpsTooBig) || SomeEntry(Entries(raw, py), r => SizeTooBig(r, ChunkSize))
  {
    ReadingRaisesIff(raw, py);
    ThrowsSeenAll(Entries(raw, py), py, world);
    hide SeenAll, EntriesOf, LAYOUT, Data, TpsTooBig, SizeTooBig, DocumentRaises, R.Clamped, SectionOf;
    hide R.ChunkOverflows;
  }

  /**
   For every JSON document that `load` can read and clamp: what `validate` still refuses is one of the
   few things that have no safe answer, and it raises exactly when an upload cutoff has no float or a
   folder cannot be looked up.
   */
  lemma LoadLeavesLittle(raw: Json, py: Python, world: R.World)
    requires Load(raw, py, world).Returned?
    ensures DocumentFits(LAYOUT, FromDict(LAYOUT, raw, py).value)
    ensures var found := R.Validated(Load(raw, py, world).value, world);
      && (found.Threw? <==>
            || SomeEntry(Entries(raw, py), r => SizeTooBig(r, UploadCutoff))
            || SomeEntry(Entries(raw, py), r => RootBad(r, world)))
      && (found.Returned? ==> forall p :: p in found.value ==> NoSafeAnswer(p))
  {
    var d := FromDict(LAYOUT, raw, py).value;
    ThrowsSeenAll(Entries(raw, py), py, world);
    LayoutIsOk();
    FromDictAlwaysFits(LAYOUT, raw, py);
    assert d.accounts == EntriesOf(LAYOUT, Entries(raw, py), py) && FromDict(LAYOUT, raw, py).Returned?;
    hide R.Join, R.Clamped, R.Checks, DocumentFits, FromDict, LayoutOk, Entries, SizeTooBig, LAYOUT, SomeEntry;
    hide R.Validated, RootBad;
    var c := RulesOf(d);
    C.ClampRemovesTheRepairable(c, world);
    FreeConfig(d, world);
    hide RulesOf;
    forall p | p in C.Unrepairable(R.Join(R.Checks(c, world))) ensures NoSafeAnswer(p) {
      OnlyUnrepairable(R.Join(R.Checks(c, world)), p);
    }
  }

  function OneKey(head: Name, name: Name, v: Json): (entry: Json)
    ensures entry.Obj?
  {
    Obj(map[head := Obj(map[name := v])])
  }

  function OneAccount(entry: Json): Json {
    Obj(map[SchemaVersion := Int(1), Accounts := Arr([entry])])
  }

  lemma OneEntry(entry: Json, py: Python, bad: Json -> bool)
    requires entry.Obj?
    ensures SomeEntry(Entries(OneAccount(entry), py), bad) <==> bad(entry)
  {
    OnlyEntry(entry, py);
    hide Entries, OneAccount;
    assert [entry][0].Obj?;
  }

  lemma OnlyEntry(entry: Json, py: Python)
    ensures Entries(OneAccount(entry), py) == [entry]
  {
    hide LAYOUT, Migrate0To1;
  }

  lemma LongLimit()
    ensures TpsTooBig(OneKey(MountHead, TpsLimit, Int(FLOAT_LIMIT)))
  {
    TooBigIff(FLOAT_LIMIT);
    hide Power, TooBig;
  }

  /** 2^1024 as a limit: `load` raises. */
  lemma LongLimitRaises(py: Python, world: R.World)
    ensures Load(OneAccount(OneKey(MountHead, TpsLimit, Int(FLOAT_LIMIT))), py, world).Threw?
  {
    LongLimit();
    hide Load, OneAccount, FLOAT_LIMIT, SomeEntry, TpsTooBig, OneKey;
    OneEntry(OneKey(MountHead, TpsLimit, Int(FLOAT_LIMIT)), py, TpsTooBig);
    LoadRaisesIff(OneAccount(OneKey(MountHead, TpsLimit, Int(FLOAT_LIMIT))), py, world);
  }

  lemma LongDigits(head: Name, name: Name)
    requires head == BackendHead
    ensures SizeTooBig(OneKey(head, name, Str(Digits(FLOAT_LIMIT))), name)
  {
    hide ParseSize;
    DigitsOverflowIff(FLOAT_LIMIT);
  }

  /** 2^1024, written out, as a chunk size: `load` raises. */
  lemma LongChunkSizeRaises(py: Python, world: R.World)
    ensures Load(OneAccount(OneKey(BackendHead, ChunkSize, Str(Digits(FLOAT_LIMIT)))), py, world).Threw?
  {
    hide Load, OneAccount, FLOAT_LIMIT, SomeEntry, Digits, SizeTooBig, OneKey;
    var text := Str(Digits(FLOAT_LIMIT));
    LongDigits(BackendHead, ChunkSize);
    OneEntry(OneKey(BackendHead, ChunkSize, text), py, r => SizeTooBig(r, ChunkSize));
    LoadRaisesIff(OneAccount(OneKey(BackendHead, ChunkSize, text)), py, world);
  }

  /** The same as an upload cutoff: it is loaded, and `validate` raises. */
  lemma LongCutoffRaises(py: Python, world: R.World)
    ensures var loaded := Load(OneAccount(OneKey(BackendHead, UploadCutoff, Str(Digits(FLOAT_LIMIT)))), py, world);
      loaded.Returned? && R.Validated(loaded.value, world).Threw?
  {
    var text := Str(Digits(FLOAT_LIMIT));
    var raw := OneAccount(OneKey(BackendHead, UploadCutoff, text));
    LongDigits(BackendHead, UploadCutoff);
    NothingElse(text);
    hide Load, OneAccount, FLOAT_LIMIT, SomeEntry, Digits, SizeTooBig, OneKey, R.Validated, TpsTooBig, RootBad;
    OneEntry(OneKey(BackendHead, UploadCutoff, text), py, r => SizeTooBig(r, UploadCutoff));
    OneEntry(OneKey(BackendHead, UploadCutoff, text), py, r => SizeTooBig(r, ChunkSize));
    OneEntry(OneKey(BackendHead, UploadCutoff, text), py, TpsTooBig);
    LoadRaisesIff(raw, py, world);
    LoadLeavesLittle(raw, py, world);
  }

  lemma NothingElse(text: Json)
    ensures var raw := OneKey(BackendHead, UploadCutoff, text); !SizeTooBig(raw, ChunkSize) && !TpsTooBig(raw)
  {
  }

  const NULL_PATH := "/a\0b"

  function NullRoot(): Json {
    Obj(map[SyncRoot := Str(NULL_PATH)])
  }

  /** A folder with a null character: it is loaded, and where its lookup raises `validate` does. */
  lemma NullRootRaises(py: Python, world: R.World)
    requires world.expand(NULL_PATH) == Returned(NULL_PATH) && world.underMount(NULL_PATH).Threw?
    ensures var loaded := Load(OneAccount(NullRoot()), py, world);
      loaded.Returned? && R.Validated(loaded.value, world).Threw?
  {
    NullEntry(world);
    var raw := OneAccount(NullRoot());
    assert NullRoot().Obj?;
    hide Load, NullRoot, OneAccount, SomeEntry, TpsTooBig, SizeTooBig, RootBad, R.Validated;
    OneEntry(NullRoot(), py, TpsTooBig);
    OneEntry(NullRoot(), py, r => SizeTooBig(r, ChunkSize));
    OneEntry(NullRoot(), py, r => RootBad(r, world));
    LoadRaisesIff(raw, py, world);
    LoadLeavesLittle(raw, py, world);
  }

  lemma NullEntry(world: R.World)
    requires world.expand(NULL_PATH) == Returned(NULL_PATH) && world.underMount(NULL_PATH).Threw?
    ensures !TpsTooBig(NullRoot()) && !SizeTooBig(NullRoot(), ChunkSize) && RootBad(NullRoot(), world)
  {
    assert |NULL_PATH| == 4;
  }

  // ---------------------------------------------------------------------------------------------
  // What save accepts

  /**
   What `validate` lets `save` write is read back as it was, and `load` then changes it only if one of
   the limits on files is below one.
   */
  lemma SaveThenLoad(d: Document, py: Python, world: R.World)
    requires DocumentFits(LAYOUT, d) && C.Valid(RulesOf(d), world)
    ensures FromDict(LAYOUT, Obj(ToDict(d)), py) == Returned(d)
    ensures Load(Obj(ToDict(d)), py, world).Returned?
    ensures Load(Obj(ToDict(d)), py, world) == Returned(RulesOf(d)) <==> C.FloorsOk(RulesOf(d).accounts)
  {
    hide R.Join, R.ClampResult, R.AccountsProblems, AppOf, AdvancedOf, EntryFits, FromDict, ToDict, LayoutOk, LAYOUT;
    hide SectionFits, R.Overflows, C.FloorsOk;
    var checks := R.Checks(RulesOf(d), world);
    C.AcceptedIsFixed(RulesOf(d), world);
    C.EmptyJoin(checks);
    assert checks[3] == [];
    C.AcceptedNames(SeenAll(d.accounts), world);
    hide Seen;
    forall i | 0 <= i < |d.accounts| ensures Named(d.accounts[i]) {
      assert SeenAll(d.accounts)[i].id != "";
      SeenId(d.accounts[i]);
    }
    LayoutIsOk();
    RoundTrip(LAYOUT, d, py);
  }

  lemma SeenId(e: Entry)
    requires Seen(e).id != ""
    ensures Named(e)
  {
  }

  // ---------------------------------------------------------------------------------------------
  // The defaults

  function Defaults(schema: Schema): Section {
    map n | n in schema :: schema[n].default
  }

  /** `AccountConfig()`. */
  function Fresh(): Entry {
    Entry(Defaults(SCALARS), map head | head in HEADS :: Defaults(PartSchema(head)))
  }

  lemma DefaultLimits()
    ensures R.Join(R.SafetyChecks(SafetyOf(Defaults(SAFETY)))) == []
    ensures R.Join(R.FilesChecks(FilesOf(Defaults(FILES)))) == []
    ensures R.Join(R.UiChecks(UiOf(Defaults(UI)))) == []
  {
    hide WellDeclared, Plain, Fits, HasType;
    hide R.Join;
    C.EmptyJoin(R.SafetyChecks(SafetyOf(Defaults(SAFETY))));
    C.EmptyJoin(R.FilesChecks(FilesOf(Defaults(FILES))));
    C.EmptyJoin(R.UiChecks(UiOf(Defaults(UI))));
  }

  lemma DefaultTransfers()
    ensures R.Join(R.MountChecks(MountOf(Defaults(MOUNT)))) == []
  {
    hide WellDeclared, Plain, Fits, HasType;
    var m := R.Mount(4, 8, 0, 3600, 60, 50, 32, 8.0, []);
    assert MountOf(Defaults(MOUNT)) == m;
    hide R.Join, MountOf;
    C.EmptyJoin(R.MountChecks(m));
  }

  lemma DefaultRates()
    ensures R.Join(R.OnDemandChecks(OnDemandOf(Defaults(ON_DEMAND)))) == []
    ensures R.Join(R.BandwidthChecks(BandwidthOf(Defaults(BANDWIDTH)))) == []
    ensures R.Join(R.VaultChecks(VaultOf(Defaults(VAULT)))) == []
  {
    hide WellDeclared, Plain, Fits, HasType;
    hide R.Join;
    C.EmptyJoin(R.OnDemandChecks(OnDemandOf(Defaults(ON_DEMAND))));
    C.EmptyJoin(R.BandwidthChecks(BandwidthOf(Defaults(BANDWIDTH))));
    C.EmptyJoin(R.VaultChecks(VaultOf(Defaults(VAULT))));
  }

  lemma DefaultBackendRead()
    ensures BackendOf(Defaults(BACKEND)) == R.Backend("10M", "off", false, false, "anonymous", "view", "off")
  {
    hide WellDeclared, Plain, Fits, HasType;
  }

  lemma DefaultBackend(personal: bool)
    ensures R.Join(R.BackendChecks(BackendOf(Defaults(BACKEND)), personal)) == []
  {
    hide R.Join, BackendOf, ParseSize, BACKEND, Defaults;
    DefaultBackendRead();
    C.DefaultChunkOk();
    OffParses();
    C.EmptyJoin(R.BackendChecks(BackendOf(Defaults(BACKEND)), personal));
  }

  lemma DefaultFolder(world: R.World)
    ensures R.Join(R.OfflineChecks(OfflineOf(Defaults(OFFLINE)), world)) == [] && !OfflineOf(Defaults(OFFLINE)).enabled
  {
    hide OFFLINE, OfflineOf, Defaults, Strip, R.LockMinutes, R.Join;
    DefaultOffline();
    StripNothing("RCLONE_TEST");
    C.DefaultLockOk(world);
    C.EmptyJoin(R.OfflineChecks(OfflineOf(Defaults(OFFLINE)), world));
  }

  lemma DefaultOffline()
    ensures OfflineOf(Defaults(OFFLINE))
         == R.Offline(false, "~/OneDrive-Offline", 15, 25, "newer", "pathname", true, "RCLONE_TEST", "2m")
  {
    hide WellDeclared, Plain, Fits, HasType;
  }

  lemma FreshFits()
    ensures EntryFits(LAYOUT, Fresh())
  {
    hide SCALARS, HEADS, PartSchema;
    forall head | head in HEADS ensures head in PARTS && SectionFits(PARTS[head], Defaults(PartSchema(head))) {
      PartAt(head);
    }
    forall head | head in PARTS ensures head in HEADS {
      PartAt(head);
    }
  }

  lemma FreshPart(head: Name)
    requires head in HEADS
    ensures Part(Fresh(), head) == Defaults(PartSchema(head))
  {
    hide SCALARS, HEADS, PartSchema, Defaults;
  }

  lemma FreshScalars()
    ensures var a := Seen(Fresh());
      a.remote == "onedrive" && a.kind == "personal" && a.syncRoot == "~/OneDrive"
  {
    hide PartSchema, MountOf, BackendOf, BandwidthOf, SafetyOf, FilesOf, OnDemandOf, VaultOf, OfflineOf, UiOf, ModesOf;
  }

  lemma FreshOptions()
    ensures var a := Seen(Fresh());
      && a.mount == MountOf(Defaults(MOUNT)) && a.backend == BackendOf(Defaults(BACKEND))
      && a.bandwidth == BandwidthOf(Defaults(BANDWIDTH)) && a.safety == SafetyOf(Defaults(SAFETY))
  {
    hide SCALARS, Fresh, Part, Defaults, MountOf, BackendOf, BandwidthOf, SafetyOf, FilesOf, OnDemandOf, VaultOf;
    hide OfflineOf, UiOf, ModesOf, MOUNT, BACKEND, BANDWIDTH, SAFETY, FILES, ON_DEMAND, VAULT, OFFLINE, UI;
    hide WellDeclared, Plain, Fits, HasType, SHARING, KFM, CONFLICTS, SELECTIVE;
    FreshPart(MountHead);
    FreshPart(BackendHead);
    FreshPart(BandwidthHead);
    FreshPart(SafetyHead);
  }

  lemma FreshRest()
    ensures var a := Seen(Fresh());
      && a.files == FilesOf(Defaults(FILES)) && a.onDemand == OnDemandOf(Defaults(ON_DEMAND))
      && a.vault == VaultOf(Defaults(VAULT)) && a.offline == OfflineOf(Defaults(OFFLINE)) && a.ui == UiOf(Defaults(UI))
  {
    hide SCALARS, Fresh, Part, Defaults, MountOf, BackendOf, BandwidthOf, SafetyOf, FilesOf, OnDemandOf, VaultOf;
    hide OfflineOf, UiOf, ModesOf, MOUNT, BACKEND, BANDWIDTH, SAFETY, FILES, ON_DEMAND, VAULT, OFFLINE, UI;
    hide WellDeclared, Plain, Fits, HasType, SHARING, KFM, CONFLICTS, SELECTIVE;
    FreshPart(FilesHead);
    FreshPart(OnDemandHead);
    FreshPart(VaultHead);
    FreshPart(OfflineHead);
    FreshPart(UiHead);
  }

  /** The defaults of a new account are accepted exactly when its folder can be mounted there. */
  lemma DefaultsAccepted(world: R.World)
    ensures !R.CheckThrows(Seen(Fresh()), world) && R.Join(R.OwnChecks(Seen(Fresh()), world)) == []
       <==> var root := world.expand("~/OneDrive");
            root.Returned? && world.absolute(root.value) && world.underMount(root.value) == Returned(false)
  {
    hide Fresh, Seen, EntryFits, R.Join, R.MountChecks, R.BackendChecks, R.BandwidthChecks, R.SafetyChecks;
    hide R.FilesChecks, R.OnDemandChecks, R.VaultChecks, R.OfflineChecks, R.UiChecks, R.ChoiceChecks, R.Overflows;
    hide MOUNT, BACKEND, BANDWIDTH, SAFETY, FILES, ON_DEMAND, VAULT, OFFLINE, UI, SCALARS, HEADS, PARTS, Defaults;
    hide MountOf, BackendOf, BandwidthOf, SafetyOf, FilesOf, OnDemandOf, VaultOf, OfflineOf, UiOf;
    var a := Seen(Fresh());
    FreshScalars();
    FreshOptions();
    FreshRest();
    FreshFits();
    ChoicesRead(Fresh());
    DefaultLimits();
    DefaultTransfers();
    DefaultRates();
    DefaultBackend(true);
    DefaultBackendRead();
    DefaultSizesFit();
    DefaultFolder(world);
    assert ':' !in "onedrive";
    var own, path := R.OwnChecks(a, world), R.PathChecks(a, world);
    C.EmptyJoin(own);
    C.EmptyJoin(path);
    assert own[4] == R.Join(path);
    assert path[0] == R.If(!world.absolute(R.Root(a, world)), R.RootRelative);
    assert path[1] == R.If(R.UnderMount(R.Root(a, world), world), R.RootUnderMount);
  }
}
