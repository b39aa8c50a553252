/**
 onedriveui/config.py: what `clamp` makes of each value.  A number goes to a nearest one of its range,
 everything else has one safe value, and what is not repaired is left alone.
 */
module ConfigRepairs {
  import opened Basics
  import opened ConfigNames
  import opened Units
  import opened ConfigRules
  import opened ConfigClamp
  import opened ConfigObject

  /** `y` is in the range, and nothing in the range is nearer to `x`. */
  ghost predicate Nearest(lo: int, x: int, hi: int, y: int) {
    lo <= y <= hi && forall v :: lo <= v <= hi ==> Distance(x, y) <= Distance(x, v)
  }

  /** The same for a range without an upper end. */
  ghost predicate NearestFrom(lo: int, x: int, y: int) {
    lo <= y && forall v :: lo <= v ==> Distance(x, y) <= Distance(x, v)
  }

  lemma WithinIsNearest(lo: int, x: int, hi: int)
    requires lo <= hi
    ensures Nearest(lo, x, hi, Within(lo, x, hi))
  {
  }

  lemma MaxIsNearest(lo: int, x: int)
    ensures NearestFrom(lo, x, Max(lo, x))
  {
  }

  // ---------------------------------------------------------------------------------------------
  // Section by section

  /** Two ports in order, neither reserved nor around a reserved one. */
  ghost predicate FreePorts(ports: seq<int>) {
    && |ports| == 2 && 1024 <= ports[0] <= ports[1] <= 65535
    && (5572 < ports[0] || ports[1] < 5572) && (5573 < ports[0] || ports[1] < 5573)
    && (53682 < ports[0] || ports[1] < 53682)
  }

  ghost predicate AdvancedRepaired(a: Advanced, b: Advanced) {
    && b.logLevel == a.logLevel
    && NearestFrom(1, a.keepLogsDays, b.keepLogsDays) && NearestFrom(1, a.tickIdle, b.tickIdle)
    && Nearest(1, a.tickActive, b.tickIdle, b.tickActive)
    && b.ports == if FreePorts(a.ports) then a.ports else [17800, 17899]
  }

  lemma AdvancedIsRepaired(a: Advanced)
    ensures AdvancedRepaired(a, ClampAdvanced(a))
  {
    MaxIsNearest(1, a.keepLogsDays);
    MaxIsNearest(1, a.tickIdle);
    WithinIsNearest(1, a.tickActive, Max(1, a.tickIdle));
    hide Within, Nearest, NearestFrom;
    assert PortsOk(a.ports) <==> FreePorts(a.ports);
  }

  /** The poll interval is clamped to below the clamped cache time. */
  ghost predicate MountRepaired(a: Mount, b: Mount) {
    && Nearest(1, a.transfers, 4, b.transfers) && Nearest(1, a.checkers, 8, b.checkers)
    && b.readChunkStreams == 0
    && NearestFrom(2, a.dirCacheTime, b.dirCacheTime) && Nearest(1, a.pollInterval, b.dirCacheTime - 1, b.pollInterval)
    && NearestFrom(1, a.cacheMaxSize, b.cacheMaxSize) && NearestFrom(1, a.readChunkSize, b.readChunkSize)
    && b.tpslimit == (if a.tpslimit > 0.0 then a.tpslimit else 8.0)
    && b.extraArgs == SafeArgs(a.extraArgs)
  }

  lemma MountIsRepaired(m: Mount)
    ensures MountRepaired(m, ClampMount(m))
  {
    WithinIsNearest(1, m.transfers, 4);
    WithinIsNearest(1, m.checkers, 8);
    MaxIsNearest(2, m.dirCacheTime);
    WithinIsNearest(1, m.pollInterval, Max(2, m.dirCacheTime) - 1);
    MaxIsNearest(1, m.cacheMaxSize);
    MaxIsNearest(1, m.readChunkSize);
    hide Within, Max, Nearest, NearestFrom, SafeArgs;
  }

  /** The arguments are looked at one by one, and stay in their order. */
  lemma {:induction false} ArgsOneByOne(some: seq<string>, more: seq<string>)
    ensures SafeArgs(some + more) == SafeArgs(some) + SafeArgs(more)
    decreases |more|
  {
    hide BannedArg;
    if more == [] {
      assert some + more == some;
    } else {
      var n := |more| - 1;
      ArgsOneByOne(some, more[..n]);
      assert (some + more)[..|some + more| - 1] == some + more[..n];
    }
  }

  /** An argument goes exactly when what it says before its first `=` is refused. */
  lemma OneArg(arg: string, before: string, after: string)
    requires '=' !in before && (arg == before || arg == before + "=" + after)
    ensures SafeArgs([arg]) == if Refused(Strip(before)) then [] else [arg]
    ensures Join(ArgChecks(arg)) != [] <==> Refused(Strip(before))
  {
    Before(arg, before, after);
    ArgClamp(arg);
    hide Strip, Inplace, BeforeEquals, Join, ArgChecks;
    assert [arg][..0] == [];
    assert SafeArgs([arg]) == if BannedArg(arg) then [] else [arg];
  }

  /** `--inplace` in any case, or an option of a backend. */
  predicate Refused(token: string) {
    Lower(token) == "--inplace" || "--onedrive-" <= token || "--drive-" <= token
  }

  lemma {:induction false} Before(arg: string, before: string, after: string)
    requires '=' !in before && (arg == before || arg == before + "=" + after)
    ensures BeforeEquals(arg) == before
    decreases |arg|
  {
    if before == "" {
    } else {
      assert arg[0] == before[0] && before[0] in before;
      assert arg[1..] == before[1..] || arg[1..] == before[1..] + "=" + after;
      Before(arg[1..], before[1..], after);
    }
  }

  ghost predicate BackendRepaired(a: Backend, b: Backend, personal: bool) {
    && b.chunkSize == (if exists n: int :: ParseSize(a.chunkSize) == Size(n) && n > 0 && n % 327_680 == 0
                       then a.chunkSize else "10M")
    && b.uploadCutoff == a.uploadCutoff
    && b.noVersions == (a.noVersions && !personal) && b.hardDelete == (a.hardDelete && !personal)
    && b.linkScope == a.linkScope && b.linkType == a.linkType && b.metadataPermissions == a.metadataPermissions
  }

  lemma BackendIsRepaired(b: Backend, personal: bool)
    ensures BackendRepaired(b, ClampBackend(b, personal), personal)
  {
    hide ParseSize;
    var size := ParseSize(b.chunkSize);
    assert ChunkSizeOk(b.chunkSize) ==> size == Size(size.value);
  }

  ghost predicate RateRepaired(a: Option<int>, b: Option<int>) {
    (a.None? <==> b.None?) && (a.Some? ==> Nearest(50, a.value, 100_000, b.value))
  }

  ghost predicate BandwidthRepaired(a: Bandwidth, b: Bandwidth) {
    && RateRepaired(a.downloadKb, b.downloadKb) && RateRepaired(a.uploadKb, b.uploadKb)
    && Nearest(1, a.autoPercent, 100, b.autoPercent)
    && b.limitDownload == a.limitDownload && b.uploadMode == a.uploadMode
  }

  lemma BandwidthIsRepaired(b: Bandwidth)
    ensures BandwidthRepaired(b, ClampBandwidth(b))
  {
    RateIsRepaired(b.downloadKb);
    RateIsRepaired(b.uploadKb);
    WithinIsNearest(1, b.autoPercent, 100);
    hide Within, Nearest, ClampRate, RateRepaired;
  }

  lemma RateIsRepaired(kb: Option<int>)
    ensures RateRepaired(kb, ClampRate(kb))
  {
    if kb.Some? {
      WithinIsNearest(50, kb.value, 100_000);
    }
    hide Within, Nearest;
  }

  ghost predicate SafetyRepaired(a: Safety, b: Safety) {
    && Nearest(0, a.massDelete, 100_000, b.massDelete) && b.refuseUnderMount
    && NearestFrom(0, a.minDisk, b.minDisk) && NearestFrom(0, a.warnDisk, b.warnDisk)
  }

  lemma SafetyIsRepaired(s: Safety)
    ensures SafetyRepaired(s, ClampSafety(s))
  {
    WithinIsNearest(0, s.massDelete, 100_000);
    MaxIsNearest(0, s.minDisk);
    MaxIsNearest(0, s.warnDisk);
    hide Within, Max, Nearest, NearestFrom;
  }

  /** From one on, although `validate` checks the upper ends alone. */
  ghost predicate FilesRepaired(a: Files, b: Files) {
    && b.namePolicy == a.namePolicy
    && Nearest(1, a.maxBytes, 250_000_000_000, b.maxBytes)
    && Nearest(1, a.maxRelChars, 400, b.maxRelChars) && Nearest(1, a.maxTotalChars, 520, b.maxTotalChars)
  }

  lemma FilesIsRepaired(f: Files)
    ensures FilesRepaired(f, ClampFiles(f))
  {
    WithinIsNearest(1, f.maxBytes, 250_000_000_000);
    WithinIsNearest(1, f.maxRelChars, 400);
    WithinIsNearest(1, f.maxTotalChars, 520);
    hide Within, Nearest;
  }

  /** A time to free up space that is too short is switched off, not raised. */
  ghost predicate OnDemandRepaired(a: OnDemand, b: OnDemand) {
    && Nearest(1, a.hydrate, 4, b.hydrate)
    && b.freeUpDays == if a.freeUpDays.Some? && a.freeUpDays.value >= 1 then a.freeUpDays else None
  }

  lemma OnDemandIsRepaired(d: OnDemand)
    ensures OnDemandRepaired(d, ClampOnDemand(d))
  {
    WithinIsNearest(1, d.hydrate, 4);
    hide Within, Nearest;
  }

  /** The lock interval is the nearest that is offered, of two equally near the shorter. */
  ghost predicate VaultRepaired(a: Vault, b: Vault) {
    && b.backend == a.backend && NearestFrom(0, a.warnMinutes, b.warnMinutes)
    && b.lockMinutes in {20, 60, 120, 240}
    && forall v :: v in {20, 60, 120, 240} && v != b.lockMinutes ==>
         Distance(a.lockMinutes, b.lockMinutes) < Distance(a.lockMinutes, v)
         || (Distance(a.lockMinutes, b.lockMinutes) == Distance(a.lockMinutes, v) && b.lockMinutes < v)
  }

  lemma VaultIsRepaired(v: Vault)
    ensures VaultRepaired(v, ClampVault(v))
  {
    MaxIsNearest(0, v.warnMinutes);
    hide Max, NearestFrom;
  }

  ghost predicate OfflineRepaired(a: Offline, b: Offline, world: World) {
    && !b.enabled && NearestFrom(1, a.schedule, b.schedule) && Nearest(0, a.maxDelete, 100, b.maxDelete)
    && b.maxLock == (if exists t :: LockMinutes(a.maxLock, world) == Some(t) && t >= 2.0 then a.maxLock else "2m")
    && b.localPath == a.localPath && b.resolve == a.resolve && b.loser == a.loser
    && b.checkAccess == a.checkAccess && b.checkFilename == a.checkFilename
  }

  lemma OfflineIsRepaired(o: Offline, world: World)
    ensures OfflineRepaired(o, ClampOffline(o, world), world)
  {
    MaxIsNearest(1, o.schedule);
    WithinIsNearest(0, o.maxDelete, 100);
    hide Max, Within, Nearest, NearestFrom, LockMinutes;
    var minutes := LockMinutes(o.maxLock, world);
    assert MaxLockOk(o.maxLock, world) ==> minutes == Some(minutes.value);
  }

  ghost predicate UiRepaired(a: Ui, b: Ui) {
    NearestFrom(200, a.width, b.width) && NearestFrom(1, a.rows, b.rows)
  }

  lemma UiIsRepaired(u: Ui)
    ensures UiRepaired(u, ClampUi(u))
  {
    MaxIsNearest(200, u.width);
    MaxIsNearest(1, u.rows);
    hide Max, NearestFrom;
  }

  /** How a duration is read: seconds, minutes or hours by its last letter, minutes without one. */
  lemma LockMinutesOf(n: nat, unit: char, world: World)
    requires unit in "smh"
    ensures LockMinutes(Digits(n), world) == Some(n as real)
    ensures LockMinutes(Digits(n) + [unit], world)
         == Some(if unit == 's' then n as real / 60.0 else if unit == 'h' then n as real * 60.0 else n as real)
  {
    var d := Digits(n);
    hide Digits, NumberOf, Run, Strip, Lower;
    PlainText(d);
    PlainText(d + [unit]);
    DigitsRoundTrip(n);
    RunOfDigits(d, "");
    assert d + "" == d && d[..|d|] == d;
    assert d[|d| - 1] in d;
    assert (d + [unit])[..|d|] == d && (d + [unit])[|d|] == unit;
  }

  /** Nothing, and a unit without a number, is no interval. */
  lemma NoNumber(text: string, world: World)
    requires Lower(Strip(text)) in {"", "s", "m", "h"}
    ensures LockMinutes(text, world) == None
  {
    hide Lower, Strip;
    var raw := Lower(Strip(text));
    assert raw != "" ==> raw[..|raw| - 1] == "";
  }

  /** Small letters and digits are neither stripped nor changed. */
  lemma PlainText(s: string)
    requires s != "" && forall c :: c in s ==> IsDigit(c) || 'a' <= c <= 'z'
    ensures Lower(Strip(s)) == s
  {
    assert s[0] in s && s[|s| - 1] in s;
    StripNothing(s);
    assert forall i :: 0 <= i < |s| ==> s[i] in s;
  }

  // ---------------------------------------------------------------------------------------------
  // The whole configuration

  ghost predicate AccountRepaired(a: Account, b: Account, world: World) {
    && b.id == a.id && b.remote == a.remote && b.kind == a.kind && b.driveType == a.driveType
    && b.syncRoot == a.syncRoot && b.enabled == a.enabled && b.modes == a.modes
    && MountRepaired(a.mount, b.mount)
    && BackendRepaired(a.backend, b.backend, a.kind == "personal" || a.driveType == Some("personal"))
    && BandwidthRepaired(a.bandwidth, b.bandwidth) && SafetyRepaired(a.safety, b.safety)
    && FilesRepaired(a.files, b.files) && OnDemandRepaired(a.onDemand, b.onDemand)
    && VaultRepaired(a.vault, b.vault) && OfflineRepaired(a.offline, b.offline, world) && UiRepaired(a.ui, b.ui)
  }

  ghost predicate Repaired(c: Config, d: Config, world: World) {
    && d.schemaVersion == c.schemaVersion && d.app == c.app && AdvancedRepaired(c.advanced, d.advanced)
    && |d.accounts| == |c.accounts|
    && forall i :: 0 <= i < |c.accounts| ==> AccountRepaired(c.accounts[i], d.accounts[i], world)
  }

  lemma AccountIsRepaired(a: Account, world: World)
    ensures AccountRepaired(a, ClampAccount(a, world), world)
  {
    MountIsRepaired(a.mount);
    BackendIsRepaired(a.backend, PersonalDrive(a));
    BandwidthIsRepaired(a.bandwidth);
    SafetyIsRepaired(a.safety);
    FilesIsRepaired(a.files);
    OnDemandIsRepaired(a.onDemand);
    VaultIsRepaired(a.vault);
    OfflineIsRepaired(a.offline, world);
    UiIsRepaired(a.ui);
    hide MountRepaired, BackendRepaired, BandwidthRepaired, SafetyRepaired, FilesRepaired, OnDemandRepaired;
    hide VaultRepaired, OfflineRepaired, UiRepaired, ClampMount, ClampBackend, ClampBandwidth, ClampSafety;
    hide ClampFiles, ClampOnDemand, ClampVault, ClampOffline, ClampUi;
  }

  /** Where `clamp` returns, every value of the configuration is repaired in this way. */
  lemma ClampRepairs(c: Config, world: World)
    requires ClampResult(c, world).Returned?
    ensures Repaired(c, ClampResult(c, world).value, world)
  {
    AdvancedIsRepaired(c.advanced);
    hide AdvancedRepaired, ClampAdvanced, AccountRepaired, ClampAccount, ClampAccounts;
    forall i | 0 <= i < |c.accounts|
      ensures AccountRepaired(c.accounts[i], ClampAccounts(c.accounts, world)[i], world)
    {
      ClampEach(c.accounts, world, i);
      AccountIsRepaired(c.accounts[i], world);
    }
  }

  /**
   Where it raises, the accounts before the first chunk size that overflows are repaired.  Of that account
   the mount section is, and the offline folder is off; nothing behind it is touched.
   */
  lemma StopRepairs(c: Config, k: nat, world: World)
    requires FirstOverflow(c.accounts, k)
    ensures Overflows(c.accounts[k].backend.chunkSize)
    ensures forall i :: 0 <= i < k ==> !Overflows(c.accounts[i].backend.chunkSize)
    ensures var d := ClampedUntil(c, k, world);
      && d.schemaVersion == c.schemaVersion && d.app == c.app && AdvancedRepaired(c.advanced, d.advanced)
      && |d.accounts| == |c.accounts|
      && (forall i :: 0 <= i < k ==> AccountRepaired(c.accounts[i], d.accounts[i], world))
      && HalfRepaired(c.accounts[k], d.accounts[k]) && d.accounts[k + 1..] == c.accounts[k + 1..]
  {
    AdvancedIsRepaired(c.advanced);
    HalfIsRepaired(c.accounts[k]);
    StopParts(c, k, world);
    hide AdvancedRepaired, ClampAdvanced, AccountRepaired, ClampAccount, ClampAccounts, HalfRepaired, HalfClamped;
    hide Overflows, ClampedUntil;
    forall i | 0 <= i < k
      ensures AccountRepaired(c.accounts[i], ClampedUntil(c, k, world).accounts[i], world)
    {
      AccountIsRepaired(c.accounts[i], world);
    }
  }

  lemma StopParts(c: Config, k: nat, world: World)
    requires k < |c.accounts|
    ensures var d := ClampedUntil(c, k, world);
      && d == c.(advanced := ClampAdvanced(c.advanced), accounts := d.accounts) && |d.accounts| == |c.accounts|
      && (forall i :: 0 <= i < k ==> d.accounts[i] == ClampAccount(c.accounts[i], world))
      && d.accounts[k] == HalfClamped(c.accounts[k]) && d.accounts[k + 1..] == c.accounts[k + 1..]
  {
    hide ClampAdvanced, ClampAccount, ClampAccounts, HalfClamped;
    var before := c.accounts[..k];
    forall i | 0 <= i < k ensures ClampAccounts(before, world)[i] == ClampAccount(c.accounts[i], world) {
      ClampEach(before, world, i);
    }
  }

  ghost predicate HalfRepaired(a: Account, b: Account) {
    && MountRepaired(a.mount, b.mount) && !b.offline.enabled
    && a == b.(mount := a.mount, offline := b.offline.(enabled := a.offline.enabled))
  }

  lemma HalfIsRepaired(a: Account)
    ensures HalfRepaired(a, HalfClamped(a))
  {
    MountIsRepaired(a.mount);
    hide MountRepaired, ClampMount;
  }
}
