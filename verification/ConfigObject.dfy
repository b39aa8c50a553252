/**
 onedriveui/config.py: the configuration object, the keys that `clamp` reports, and the loop over the
 accounts in `clamp` and in `validate`.
 */
module ConfigObject {
  import opened Basics
  import opened ConfigNames
  import opened ConfigRules
  import opened ConfigClamp

  // ---------------------------------------------------------------------------------------------
  // The keys that clamp reports

  function Note<T(==)>(head: Name, name: Name, was: T, value: T): seq<Dotted> {
    if was != value then [Key(head, name)] else []
  }

  function AdvancedKeys(a: Advanced, b: Advanced): seq<Dotted> {
    Note(AdvancedHead, KeepLogsDays, a.keepLogsDays, b.keepLogsDays)
    + Note(AdvancedHead, TickIdleMs, a.tickIdle, b.tickIdle)
    + Note(AdvancedHead, TickActiveMs, a.tickActive, b.tickActive) + Note(AdvancedHead, RcPortRange, a.ports, b.ports)
  }

  function MountKeys(a: Mount, b: Mount): seq<Dotted> {
    Note(MountHead, Transfers, a.transfers, b.transfers) + Note(MountHead, Checkers, a.checkers, b.checkers)
    + Note(MountHead, ReadChunkStreams, a.readChunkStreams, b.readChunkStreams)
    + Note(MountHead, DirCacheTime, a.dirCacheTime, b.dirCacheTime)
    + Note(MountHead, PollInterval, a.pollInterval, b.pollInterval)
    + Note(MountHead, CacheMaxSize, a.cacheMaxSize, b.cacheMaxSize)
    + Note(MountHead, ReadChunkSize, a.readChunkSize, b.readChunkSize)
    + Note(MountHead, TpsLimit, a.tpslimit, b.tpslimit)
    + Note(MountHead, ExtraArgs, a.extraArgs, b.extraArgs)
  }

  function BackendKeys(a: Backend, b: Backend): seq<Dotted> {
    Note(BackendHead, ChunkSize, a.chunkSize, b.chunkSize) + Note(BackendHead, NoVersions, a.noVersions, b.noVersions)
    + Note(BackendHead, HardDelete, a.hardDelete, b.hardDelete)
  }

  function PolicyKeys(a: Account, b: Account): seq<Dotted> {
    Note(BandwidthHead, DownloadKb, a.bandwidth.downloadKb, b.bandwidth.downloadKb)
    + Note(BandwidthHead, UploadKb, a.bandwidth.uploadKb, b.bandwidth.uploadKb)
    + Note(BandwidthHead, AutoPercent, a.bandwidth.autoPercent, b.bandwidth.autoPercent)
    + Note(SafetyHead, MassDeleteThreshold, a.safety.massDelete, b.safety.massDelete)
    + Note(SafetyHead, RefusePathsUnderMount, a.safety.refuseUnderMount, b.safety.refuseUnderMount)
    + Note(SafetyHead, MinDiskSpace, a.safety.minDisk, b.safety.minDisk)
    + Note(SafetyHead, WarningMinDiskSpace, a.safety.warnDisk, b.safety.warnDisk)
    + Note(FilesHead, MaxFileBytes, a.files.maxBytes, b.files.maxBytes)
    + Note(FilesHead, MaxRelPathChars, a.files.maxRelChars, b.files.maxRelChars)
    + Note(FilesHead, MaxTotalPathChars, a.files.maxTotalChars, b.files.maxTotalChars)
    + Note(OnDemandHead, HydrateConcurrency, a.onDemand.hydrate, b.onDemand.hydrate)
    + Note(OnDemandHead, AutoFreeUpDays, a.onDemand.freeUpDays, b.onDemand.freeUpDays)
  }

  function RestKeys(a: Account, b: Account): seq<Dotted> {
    Note(VaultHead, AutoLockMinutes, a.vault.lockMinutes, b.vault.lockMinutes)
    + Note(VaultHead, WarnBeforeMinutes, a.vault.warnMinutes, b.vault.warnMinutes)
    + Note(OfflineHead, ScheduleMinutes, a.offline.schedule, b.offline.schedule)
    + Note(OfflineHead, MaxDeletePercent, a.offline.maxDelete, b.offline.maxDelete)
    + Note(OfflineHead, MaxLock, a.offline.maxLock, b.offline.maxLock)
    + Note(UiHead, ActivityCenterWidth, a.ui.width, b.ui.width) + Note(UiHead, ActivityRows, a.ui.rows, b.ui.rows)
  }

  /** The keys of one account, in the order in which `clamp` comes to them. */
  function AccountKeys(a: Account, b: Account): seq<Dotted> {
    Note(OfflineHead, Enabled, a.offline.enabled, b.offline.enabled) + MountKeys(a.mount, b.mount)
    + BackendKeys(a.backend, b.backend) + PolicyKeys(a, b) + RestKeys(a, b)
  }

  function AccountsKeys(some: seq<Account>, others: seq<Account>): seq<Dotted>
    requires |some| == |others|
  {
    if some == [] then []
    else
      var n := |some| - 1;
      AccountsKeys(some[..n], others[..n]) + AccountKeys(some[n], others[n])
  }

  lemma AccountKeysNameChanges(a: Account, world: World)
    ensures AccountKeys(a, ClampAccount(a, world)) == [] <==> ClampAccount(a, world) == a
  {
    hide Within, Max, SafeArgs, ChunkSizeOk, PersonalDrive, ClampRate, NearestLock, LockMinutesOk, MaxLockOk;
  }

  lemma {:induction false} AccountsKeysNameChanges(accounts: seq<Account>, world: World)
    ensures AccountsKeys(accounts, ClampAccounts(accounts, world)) == [] <==> ClampAccounts(accounts, world) == accounts
  {
    hide ClampAccount, AccountKeys;
    if accounts != [] {
      var n := |accounts| - 1;
      AccountsKeysNameChanges(accounts[..n], world);
      AccountKeysNameChanges(accounts[n], world);
      var clamped := ClampAccounts(accounts, world);
      assert clamped[..n] == ClampAccounts(accounts[..n], world) && clamped[n] == ClampAccount(accounts[n], world);
      assert accounts == accounts[..n] + [accounts[n]];
    }
  }

  function ClampKeys(c: Config, world: World): seq<Dotted> {
    AdvancedKeys(c.advanced, ClampAdvanced(c.advanced)) + AccountsKeys(c.accounts, ClampAccounts(c.accounts, world))
  }

  /** `clamp` reports nothing exactly when it changed nothing. */
  lemma NoKeysIffUnchanged(c: Config, world: World)
    ensures ClampKeys(c, world) == [] <==> Clamped(c, world) == c
  {
    hide AccountsKeys, ClampAccounts, PortsOk;
    AccountsKeysNameChanges(c.accounts, world);
  }

  // ---------------------------------------------------------------------------------------------
  // Where clamp stops

  /** What has been repaired of an account when its chunk size turns out to overflow. */
  function HalfClamped(a: Account): Account {
    a.(offline := a.offline.(enabled := false), mount := ClampMount(a.mount))
  }

  predicate FirstOverflow(accounts: seq<Account>, k: nat) {
    && k < |accounts| && ChunkOverflows(accounts[k])
    && forall i :: 0 <= i < k ==> !ChunkOverflows(accounts[i])
  }

  function ClampedUntil(c: Config, k: nat, world: World): Config
    requires k < |c.accounts|
  {
    var accounts := ClampAccounts(c.accounts[..k], world) + [HalfClamped(c.accounts[k])] + c.accounts[k + 1..];
    c.(advanced := ClampAdvanced(c.advanced), accounts := accounts)
  }

  // ---------------------------------------------------------------------------------------------
  // The loops

  lemma JoinFour(a: seq<Problem>, b: seq<Problem>, c: seq<Problem>, d: seq<Problem>)
    ensures Join([a, b, c, d]) == a + b + c + d
  {
    assert [a, b, c, d][..3] == [a, b, c] && [a, b, c][..2] == [a, b] && [a, b][..1] == [a] && [a][..0] == [];
    assert Join([a]) == a;
    assert Join([a, b]) == a + b;
    assert Join([a, b, c]) == a + b + c;
  }

  lemma JoinFive(a: seq<Problem>, b: seq<Problem>, c: seq<Problem>, d: seq<Problem>, e: seq<Problem>)
    ensures Join([a, b, c, d, e]) == a + b + c + d + e
  {
    assert [a, b, c, d, e][..4] == [a, b, c, d];
    JoinFour(a, b, c, d);
  }

  class AppConfig {
    var schemaVersion: int
    var app: App
    var advanced: Advanced
    var accounts: seq<Account>

    constructor (c: Config)
      ensures View() == c
    {
      schemaVersion, app, advanced, accounts := c.schemaVersion, c.app, c.advanced, c.accounts;
    }

    function View(): Config
      reads this
    {
      Config(schemaVersion, app, advanced, accounts)
    }

    /** `clamp`, in place: it stops at the first account whose chunk size overflows. */
    method Clamp(world: World) returns (fixed: Outcome<seq<Dotted>>)
      modifies this
      ensures fixed.Returned? <==> ClampResult(old(View()), world).Returned?
      ensures fixed.Returned? ==> View() == Clamped(old(View()), world)
      ensures fixed.Returned? ==> fixed.value == ClampKeys(old(View()), world)
      ensures fixed.Threw? ==> exists k ::
        FirstOverflow(old(accounts), k) && View() == ClampedUntil(old(View()), k, world)
    {
      hide ClampAccount, AccountKeys, ClampAdvanced, AdvancedKeys, HalfClamped, ChunkOverflows;
      hide ClampAccounts, AccountsKeys, ClampResult, FirstOverflow;
      NothingClamped(world);
      var safe := ClampAdvanced(advanced);
      var keys := AdvancedKeys(advanced, safe);
      advanced := safe;
      ghost var was, first := accounts, keys;
      var i := 0;
      while i < |accounts|
        invariant i <= |accounts| == |was| && schemaVersion == old(schemaVersion) && app == old(app) && advanced == safe
        invariant accounts[..i] == ClampAccounts(was[..i], world) && accounts[i..] == was[i..]
        invariant keys == first + AccountsKeys(was[..i], ClampAccounts(was[..i], world))
        invariant forall j :: 0 <= j < i ==> !ChunkOverflows(was[j])
      {
        var acc := accounts[i];
        var half, clamped := HalfClamped(acc), ClampAccount(acc, world);
        Position(accounts, was, i, half);
        if ChunkOverflows(acc) {
          accounts := accounts[i := half];
          StopsAt(old(View()), i, world);
          return Threw;
        }
        Position(accounts, was, i, clamped);
        OneMoreAccount(was, i, world);
        keys := keys + AccountKeys(acc, clamped);
        accounts := accounts[i := clamped];
        i := i + 1;
      }
      assert was[..i] == was && accounts[..i] == accounts;
      NeverStops(old(View()), world);
      fixed := Returned(keys);
    }

    /** `validate`, with what it remembers of the accounts it has seen. */
    method Validate(world: World) returns (found: Outcome<seq<Problem>>)
      ensures found == Validated(View(), world)
    {
      hide CheckThrows, OwnChecks, AppChecks, AdvancedChecks, Root, Join, ClashChecks, If, HasId, HasRoot, HasRemote;
      hide AccountsProblems;
      NothingSeen(world);
      var problems := If(schemaVersion != CONFIG_SCHEMA_VERSION, WrongSchema);
      problems := problems + Join(AppChecks(app, advanced));
      problems := problems + Join(AdvancedChecks(advanced));
      ghost var first := problems;
      var seen: set<string> := {};
      var roots: map<string, string>, remotes: map<string, string> := map[], map[];
      var i := 0;
      while i < |accounts|
        invariant i <= |accounts| && problems == first + AccountsProblems(accounts[..i], world)
        invariant forall j :: 0 <= j < i ==> !CheckThrows(accounts[j], world)
        invariant forall id :: id in seen <==> HasId(accounts[..i], id)
        invariant forall root :: root in roots <==> HasRoot(accounts[..i], root, world)
        invariant forall remote :: remote != "" ==> (remote in remotes <==> HasRemote(accounts[..i], remote))
      {
        var acc := accounts[i];
        var root := Root(acc, world);
        ClashesInTurn(problems, accounts[..i], acc, world);
        problems := problems + If(acc.id == "", IdEmpty);
        problems := problems + If(acc.id != "" && acc.id in seen, IdRepeated(acc.id));
        problems := problems + If(acc.enabled && root in roots, RootShared(root));
        problems := problems + If(acc.enabled && acc.remote != "" && acc.remote in remotes, RemoteShared(acc.remote));
        seen := seen + {acc.id};
        if acc.enabled {
          roots := roots[root := acc.id];
          if acc.remote != "" {
            remotes := remotes[acc.remote := acc.id];
          }
        }
        if CheckThrows(acc, world) {
          return Threw;
        }
        problems := problems + Join(OwnChecks(acc, world));
        NextAccount(accounts, i, world);
        var own, clash := Join(OwnChecks(acc, world)), Join(ClashChecks(accounts[..i], acc, world));
        assert problems == first + AccountsProblems(accounts[..i], world) + clash + own;
        i := i + 1;
      }
      assert accounts[..i] == accounts;
      var active := app.active;
      var unknown := active.Some? && active.value != "" && active.value !in seen;
      problems := problems + If(unknown, ActiveUnknown(if active.Some? then active.value else ""));
      JoinFive(If(schemaVersion != CONFIG_SCHEMA_VERSION, WrongSchema), Join(AppChecks(app, advanced)),
               Join(AdvancedChecks(advanced)), AccountsProblems(accounts, world),
               If(unknown, ActiveUnknown(if active.Some? then active.value else "")));
      found := Returned(problems);
    }
  }

  lemma NothingClamped(world: World)
    ensures ClampAccounts([], world) == [] && AccountsKeys([], []) == []
  {
  }

  lemma StopsAt(c: Config, k: nat, world: World)
    requires k < |c.accounts| && ChunkOverflows(c.accounts[k])
    requires forall i :: 0 <= i < k ==> !ChunkOverflows(c.accounts[i])
    ensures FirstOverflow(c.accounts, k) && ClampResult(c, world).Threw?
  {
    assert c.accounts[k] in c.accounts;
  }

  lemma NeverStops(c: Config, world: World)
    requires forall i :: 0 <= i < |c.accounts| ==> !ChunkOverflows(c.accounts[i])
    ensures ClampResult(c, world).Returned?
  {
  }

  lemma Position(now: seq<Account>, was: seq<Account>, i: nat, acc: Account)
    requires i < |now| == |was| && now[i..] == was[i..]
    ensures now[i] == was[i] && now[i := acc] == now[..i] + [acc] + was[i + 1..]
    ensures now[i := acc][..i + 1] == now[..i] + [acc] && now[i := acc][i + 1..] == was[i + 1..]
  {
    assert now[i] == now[i..][0] == was[i..][0] == was[i];
    assert now[i + 1..] == now[i..][1..] == was[i..][1..] == was[i + 1..];
  }

  lemma NothingSeen(world: World)
    ensures AccountsProblems([], world) == []
    ensures forall id :: !HasId([], id)
    ensures forall root :: !HasRoot([], root, world)
    ensures forall remote :: !HasRemote([], remote)
  {
  }

  lemma OneMoreAccount(was: seq<Account>, i: nat, world: World)
    requires i < |was|
    ensures ClampAccounts(was[..i + 1], world) == ClampAccounts(was[..i], world) + [ClampAccount(was[i], world)]
    ensures AccountsKeys(was[..i + 1], ClampAccounts(was[..i + 1], world))
         == AccountsKeys(was[..i], ClampAccounts(was[..i], world)) + AccountKeys(was[i], ClampAccount(was[i], world))
  {
    hide ClampAccount, AccountKeys;
    assert was[..i + 1][..i] == was[..i];
    var clamped := ClampAccounts(was[..i + 1], world);
    assert clamped[..i] == ClampAccounts(was[..i], world);
  }

  lemma {:induction false} AddFour<T>(p: seq<T>, a: seq<T>, b: seq<T>, c: seq<T>, d: seq<T>)
    ensures p + (a + b + c + d) == p + a + b + c + d
  {
  }

  lemma {:induction false} ClashesInTurn(problems: seq<Problem>, before: seq<Account>, acc: Account, world: World)
    ensures problems + Join(ClashChecks(before, acc, world)) ==
      problems + If(acc.id == "", IdEmpty) + If(acc.id != "" && HasId(before, acc.id), IdRepeated(acc.id))
      + If(acc.enabled && HasRoot(before, Root(acc, world), world), RootShared(Root(acc, world)))
      + If(acc.enabled && acc.remote != "" && HasRemote(before, acc.remote), RemoteShared(acc.remote))
  {
    hide Root, HasId, HasRoot, HasRemote, Join, If;
    var c := ClashChecks(before, acc, world);
    assert c == [c[0], c[1], c[2], c[3]];
    JoinFour(c[0], c[1], c[2], c[3]);
    AddFour(problems, c[0], c[1], c[2], c[3]);
  }

  lemma NextAccount(accounts: seq<Account>, i: nat, world: World)
    requires i < |accounts|
    ensures AccountsProblems(accounts[..i + 1], world) == AccountsProblems(accounts[..i], world)
         + Join(ClashChecks(accounts[..i], accounts[i], world)) + Join(OwnChecks(accounts[i], world))
    ensures forall id :: HasId(accounts[..i + 1], id) <==> HasId(accounts[..i], id) || accounts[i].id == id
    ensures forall root ::
      HasRoot(accounts[..i + 1], root, world)
      <==> HasRoot(accounts[..i], root, world) || (accounts[i].enabled && Root(accounts[i], world) == root)
    ensures forall remote ::
      HasRemote(accounts[..i + 1], remote)
      <==> HasRemote(accounts[..i], remote) || (accounts[i].enabled && accounts[i].remote == remote)
  {
    hide Root, HasId, HasRoot, HasRemote, Join, ClashChecks, OwnChecks;
    assert accounts[..i + 1] == accounts[..i] + [accounts[i]] && accounts[..i + 1][..i] == accounts[..i];
    forall id ensures HasId(accounts[..i + 1], id) == (HasId(accounts[..i], id) || accounts[i].id == id) {
      OneMore(accounts[..i], accounts[i], id, "", "", world);
    }
    forall root
      ensures HasRoot(accounts[..i + 1], root, world)
           == (HasRoot(accounts[..i], root, world) || (accounts[i].enabled && Root(accounts[i], world) == root))
    {
      OneMore(accounts[..i], accounts[i], "", root, "", world);
    }
    forall remote
      ensures HasRemote(accounts[..i + 1], remote)
           == (HasRemote(accounts[..i], remote) || (accounts[i].enabled && accounts[i].remote == remote))
    {
      OneMore(accounts[..i], accounts[i], "", "", remote, world);
    }
  }
}
