/**
 onedriveui/config.py: what `clamp` does to a configuration, seen through `validate`.
 */
module ConfigClamp {
  import opened Basics
  import opened ConfigNames
  import opened Units
  import opened ConfigRules

  // ---------------------------------------------------------------------------------------------
  // clamp removes exactly the repairable problems

  /** What `clamp` must leave to `validate`. */
  function Unrepairable(problems: seq<Problem>): seq<Problem> {
    if problems == [] then []
    else Unrepairable(problems[..|problems| - 1]) + Kept(problems[|problems| - 1])
  }

  function Kept(p: Problem): seq<Problem> {
    if Repairable(p) then [] else [p]
  }

  lemma {:induction false} UnrepairableConcat(a: seq<Problem>, b: seq<Problem>)
    ensures Unrepairable(a + b) == Unrepairable(a) + Unrepairable(b)
  {
    hide Kept;
    if b == [] {
      assert a + b == a;
    } else {
      var n := |b| - 1;
      UnrepairableConcat(a, b[..n]);
      assert (a + b)[..|a + b| - 1] == a + b[..n];
    }
  }

  /** Part by part: what is kept of everything is what is kept of each part. */
  lemma {:induction false} UnrepairableJoin(parts: seq<seq<Problem>>, kept: seq<seq<Problem>>)
    requires |parts| == |kept| && forall i :: 0 <= i < |parts| ==> Unrepairable(parts[i]) == kept[i]
    ensures Unrepairable(Join(parts)) == Join(kept)
  {
    if parts != [] {
      hide Unrepairable;
      var n := |parts| - 1;
      UnrepairableJoin(parts[..n], kept[..n]);
      UnrepairableConcat(Join(parts[..n]), parts[n]);
    } else {
      assert Unrepairable([]) == [];
    }
  }

  lemma {:induction false} AllRepairable(problems: seq<Problem>)
    requires forall p :: p in problems ==> Repairable(p)
    ensures Unrepairable(problems) == []
  {
    if problems != [] {
      AllRepairable(problems[..|problems| - 1]);
    }
  }

  lemma {:induction false} InJoin(parts: seq<seq<Problem>>, p: Problem)
    ensures p in Join(parts) <==> exists i :: 0 <= i < |parts| && p in parts[i]
  {
    if parts != [] {
      var n := |parts| - 1;
      InJoin(parts[..n], p);
      assert forall i :: 0 <= i < n ==> parts[..n][i] == parts[i];
    }
  }

  lemma {:induction false} EmptyJoin(parts: seq<seq<Problem>>)
    ensures Join(parts) == [] <==> forall i :: 0 <= i < |parts| ==> parts[i] == []
  {
    if parts != [] {
      var n := |parts| - 1;
      EmptyJoin(parts[..n]);
      assert forall i :: 0 <= i < n ==> parts[..n][i] == parts[i];
    }
  }

  lemma RepairableParts(parts: seq<seq<Problem>>)
    requires forall i :: 0 <= i < |parts| ==> Mendable(parts[i])
    ensures Unrepairable(Join(parts)) == []
  {
    hide Repairable, Join;
    forall p | p in Join(parts) ensures Repairable(p) {
      InJoin(parts, p);
      var i :| 0 <= i < |parts| && p in parts[i];
      assert Mendable(parts[i]);
    }
    AllRepairable(Join(parts));
  }

  predicate Mendable(problems: seq<Problem>) {
    forall p :: p in problems ==> Repairable(p)
  }

  lemma MendableIf(bad: bool, p: Problem)
    requires Repairable(p)
    ensures Mendable(If(bad, p))
  {
  }

  lemma OneKept(bad: bool, p: Problem)
    ensures Unrepairable(If(bad, p)) == If(bad && !Repairable(p), p)
    ensures If(bad, p) == [] <==> !bad
  {
    if bad {
      assert Unrepairable([p][..0]) == [];
    }
  }

  lemma {:induction false} JoinMore(parts: seq<seq<Problem>>, part: seq<Problem>)
    ensures Join(parts + [part]) == Join(parts) + part
  {
    assert (parts + [part])[..|parts|] == parts;
  }

  lemma OneMoreRepaired(parts: seq<seq<Problem>>, bad: bool, p: Problem)
    requires Repairable(p) && Unrepairable(Join(parts)) == []
    ensures Unrepairable(Join(parts + [If(bad, p)])) == []
    ensures Join(parts + [If(bad, p)]) == [] <==> Join(parts) == [] && !bad
  {
    OneKept(bad, p);
    OneKept(false, p);
    hide Join, Unrepairable, Repairable, If;
    JoinMore(parts, If(bad, p));
    UnrepairableConcat(Join(parts), If(bad, p));
  }

  lemma TwoRepaired(bad: bool, p: Problem, bad': bool, p': Problem)
    requires Repairable(p) && Repairable(p')
    ensures Unrepairable(Join([If(bad, p), If(bad', p')])) == []
    ensures Join([If(bad, p), If(bad', p')]) == [] <==> !bad && !bad'
  {
    assert Unrepairable([]) == [] && Join([]) == [];
    hide Join, Unrepairable, Repairable, If;
    OneMoreRepaired([], bad, p);
    assert [] + [If(bad, p)] == [If(bad, p)];
    OneMoreRepaired([If(bad, p)], bad', p');
    assert [If(bad, p)] + [If(bad', p')] == [If(bad, p), If(bad', p')];
  }

  lemma ThreeRepaired(bad: bool, p: Problem, bad': bool, p': Problem, bad'': bool, p'': Problem)
    requires Repairable(p) && Repairable(p') && Repairable(p'')
    ensures Unrepairable(Join([If(bad, p), If(bad', p'), If(bad'', p'')])) == []
    ensures Join([If(bad, p), If(bad', p'), If(bad'', p'')]) == [] <==> !bad && !bad' && !bad''
  {
    hide Join, Unrepairable, Repairable, If;
    TwoRepaired(bad, p, bad', p');
    var two := [If(bad, p), If(bad', p')];
    OneMoreRepaired(two, bad'', p'');
    assert two + [If(bad'', p'')] == [If(bad, p), If(bad', p'), If(bad'', p'')];
  }

  // Section by section: what is unrepairable is left as it is, nothing else is left, and a section
  // without problems is not touched.

  lemma AdvancedClamp(a: Advanced)
    ensures Unrepairable(Join(AdvancedChecks(a))) == [] == Join(AdvancedChecks(ClampAdvanced(a)))
    ensures Join(AdvancedChecks(a)) == [] ==> ClampAdvanced(a) == a
  {
    hide Join, Unrepairable, If;
    AdvancedParts(a);
    AdvancedParts(ClampAdvanced(a));
  }

  lemma AdvancedParts(a: Advanced)
    ensures Unrepairable(Join(AdvancedChecks(a))) == []
    ensures Join(AdvancedChecks(a)) == []
       <==> PortsOk(a.ports) && a.keepLogsDays >= 1 && 1 <= a.tickActive <= a.tickIdle
  {
    hide Join, Unrepairable, If, PortsOk;
    ThreeRepaired(!PortsOk(a.ports), BadPorts, a.keepLogsDays < 1, LogDaysTooFew,
                  a.tickActive < 1 || a.tickIdle < 1, TickNotPositive);
    var three := [
      If(!PortsOk(a.ports), BadPorts),
      If(a.keepLogsDays < 1, LogDaysTooFew),
      If(a.tickActive < 1 || a.tickIdle < 1, TickNotPositive)];
    assert AdvancedChecks(a) == three + [If(a.tickActive > a.tickIdle, TickNotFaster)];
    OneMoreRepaired(three, a.tickActive > a.tickIdle, TickNotFaster);
  }

  lemma ArgClamp(arg: string)
    ensures Join(ArgChecks(arg)) == [] <==> !BannedArg(arg)
    ensures forall p :: p in Join(ArgChecks(arg)) ==> Repairable(p)
  {
    hide Token, Inplace;
    var c := ArgChecks(arg);
    EmptyJoin(c);
    assert (forall i :: 0 <= i < |c| ==> c[i] == []) <==> c[0] == [] && c[1] == [] && c[2] == [];
    forall p | p in Join(c) ensures Repairable(p) {
      InJoin(c, p);
    }
  }

  lemma {:induction false} ArgsRepairable(args: seq<string>)
    ensures forall p :: p in ArgProblems(args) ==> Repairable(p)
  {
    hide ArgChecks, Join, Repairable;
    if args != [] {
      ArgsRepairable(args[..|args| - 1]);
      ArgClamp(args[|args| - 1]);
    }
  }

  lemma {:induction false} ArgsAccepted(args: seq<string>)
    requires ArgProblems(args) == []
    ensures SafeArgs(args) == args
  {
    hide ArgChecks, BannedArg, Join;
    if args != [] {
      var n := |args| - 1;
      assert ArgProblems(args[..n]) == [] && Join(ArgChecks(args[n])) == [];
      ArgsAccepted(args[..n]);
      ArgClamp(args[n]);
      assert args == args[..n] + [args[n]];
    }
  }

  lemma {:induction false} ArgsSafe(args: seq<string>)
    ensures ArgProblems(SafeArgs(args)) == []
  {
    hide ArgChecks, BannedArg, Join;
    if args != [] {
      var n := |args| - 1;
      ArgsSafe(args[..n]);
      if !BannedArg(args[n]) {
        ArgClamp(args[n]);
        OneMoreArg(SafeArgs(args[..n]), args[n]);
      } else {
        assert SafeArgs(args) == SafeArgs(args[..n]);
      }
    }
  }

  lemma {:induction false} OneMoreArg(args: seq<string>, arg: string)
    ensures ArgProblems(args + [arg]) == ArgProblems(args) + Join(ArgChecks(arg))
  {
    hide ArgChecks, Join;
    assert (args + [arg])[..|args|] == args;
  }

  lemma {:induction false} ArgsClamp(args: seq<string>)
    ensures ArgProblems(SafeArgs(args)) == []
    ensures forall p :: p in ArgProblems(args) ==> Repairable(p)
    ensures ArgProblems(args) == [] ==> SafeArgs(args) == args
  {
    hide ArgProblems, SafeArgs, Repairable;
    ArgsSafe(args);
    ArgsRepairable(args);
    if ArgProblems(args) == [] {
      ArgsAccepted(args);
    }
  }

  lemma MountClamp(m: Mount)
    ensures Unrepairable(Join(MountChecks(m))) == [] == Join(MountChecks(ClampMount(m)))
    ensures Join(MountChecks(m)) == [] ==> ClampMount(m) == m
  {
    hide MountChecks, ClampMount;
    MountRepairable(m);
    MountRepaired(m);
    RepairableParts(MountChecks(m));
    EmptyJoin(MountChecks(ClampMount(m)));
    EmptyJoin(MountChecks(m));
    if Join(MountChecks(m)) == [] {
      MountAccepted(m);
    }
  }

  lemma MountRepairable(m: Mount)
    ensures forall i :: 0 <= i < |MountChecks(m)| ==> Mendable(MountChecks(m)[i])
  {
    ArgsRepairable(m.extraArgs);
    assert Mendable(ArgProblems(m.extraArgs));
    hide ArgProblems, Mendable, If;
    MendableIf(m.transfers > MAX_TRANSFERS, TransfersTooMany);
    MendableIf(m.transfers < 1, TransfersTooFew);
    MendableIf(m.checkers > MAX_CHECKERS, CheckersTooMany);
    MendableIf(m.checkers < 1, CheckersTooFew);
    MendableIf(m.pollInterval >= m.dirCacheTime, PollTooSlow);
    MendableIf(m.pollInterval < 1, PollTooFew);
    MendableIf(m.readChunkStreams != 0, StreamsNotZero);
    MendableIf(m.tpslimit <= 0.0, TpslimitNotPositive);
    MendableIf(m.cacheMaxSize < 1, CacheTooSmall);
    MendableIf(m.readChunkSize < 1, ReadChunkTooSmall);
  }

  lemma MountRepaired(m: Mount)
    ensures forall i :: 0 <= i < |MountChecks(ClampMount(m))| ==> MountChecks(ClampMount(m))[i] == []
  {
    hide ArgProblems, SafeArgs;
    ArgsClamp(m.extraArgs);
  }

  lemma MountAccepted(m: Mount)
    requires forall i :: 0 <= i < |MountChecks(m)| ==> MountChecks(m)[i] == []
    ensures ClampMount(m) == m
  {
    hide ArgProblems, SafeArgs;
    ArgsClamp(m.extraArgs);
    var c := MountChecks(m);
    assert c[0] == [] && c[1] == [] && c[2] == [] && c[3] == [] && c[4] == [] && c[5] == [];
    assert c[6] == [] && c[7] == [] && c[8] == [] && c[9] == [] && c[10] == [];
  }

  lemma DefaultChunkOk()
    ensures ChunkSizeOk(DEFAULT_CHUNK_SIZE)
  {
    hide ParseSize;
    var s := Suffix("M", MIB);
    assert SIZE_SUFFIXES[4] == s && s in SIZE_SUFFIXES;
    TokenParses(10, s);
    FloatExact(10);
    ShortIsBelow(10, MIB);
    assert Digits(10) == Digits(1) + [DigitChar(0)] == "10";
    assert Digits(10) + "M" == "10M";
  }

  lemma BackendClamp(b: Backend, personal: bool)
    ensures Unrepairable(Join(BackendChecks(b, personal))) == Join(BackendChecks(ClampBackend(b, personal), personal))
    ensures Join(BackendChecks(b, personal)) == [] ==> ClampBackend(b, personal) == b
  {
    hide ParseSize, Join, Unrepairable;
    DefaultChunkOk();
    var before, after := BackendChecks(b, personal), BackendChecks(ClampBackend(b, personal), personal);
    EachKept(before, after);
    EmptyJoin(before);
    if Join(before) == [] {
      assert before[0] == [] && before[1] == [] && before[3] == [] && before[4] == [];
    }
  }

  /** Each check appends at most one problem, and `clamp` leaves exactly those it cannot repair. */
  lemma EachKept(before: seq<seq<Problem>>, after: seq<seq<Problem>>)
    requires |before| == |after|
    requires forall i :: 0 <= i < |before| ==> |before[i]| <= 1
    requires forall i :: 0 <= i < |before| ==> after[i] == if before[i] == [] then [] else Kept(before[i][0])
    ensures Unrepairable(Join(before)) == Join(after)
  {
    forall i | 0 <= i < |before| ensures Unrepairable(before[i]) == after[i] {
      if before[i] != [] {
        assert before[i][..0] == [];
      }
    }
    UnrepairableJoin(before, after);
  }

  lemma RateClamp(kb: Option<int>)
    ensures RateOk(ClampRate(kb)) && (ClampRate(kb).None? <==> kb.None?)
    ensures RateOk(kb) <==> ClampRate(kb) == kb
  {
  }

  lemma BandwidthClamp(b: Bandwidth)
    ensures Unrepairable(Join(BandwidthChecks(b))) == Join(BandwidthChecks(ClampBandwidth(b)))
    ensures Join(BandwidthChecks(b)) == [] ==> ClampBandwidth(b) == b
  {
    hide BandwidthChecks, ClampBandwidth, Join, Unrepairable;
    BandwidthKept(b);
    if Join(BandwidthChecks(b)) == [] {
      EmptyJoin(BandwidthChecks(b));
      BandwidthAccepted(b);
    }
  }

  function BandwidthParts(down: bool, up: bool, percent: bool, noDown: bool, noUp: bool): seq<seq<Problem>> {
    [
      If(down, DownloadOutOfRange),
      If(up, UploadOutOfRange),
      If(percent, PercentOutOfRange),
      If(noDown, DownloadUnset),
      If(noUp, UploadUnset)]
  }

  lemma BandwidthPartsKept(down: bool, up: bool, percent: bool, noDown: bool, noUp: bool)
    ensures Unrepairable(Join(BandwidthParts(down, up, percent, noDown, noUp)))
         == Join(BandwidthParts(false, false, false, noDown, noUp))
  {
    hide Join, Unrepairable, If;
    OneKept(down, DownloadOutOfRange);
    OneKept(up, UploadOutOfRange);
    OneKept(percent, PercentOutOfRange);
    OneKept(noDown, DownloadUnset);
    OneKept(noUp, UploadUnset);
    UnrepairableJoin(BandwidthParts(down, up, percent, noDown, noUp),
                     BandwidthParts(false, false, false, noDown, noUp));
  }

  lemma BandwidthPartsOf(b: Bandwidth)
    ensures BandwidthChecks(b)
         == BandwidthParts(!RateOk(b.downloadKb), !RateOk(b.uploadKb), !(1 <= b.autoPercent <= 100),
                           b.limitDownload && b.downloadKb.None?, b.uploadMode == "limit" && b.uploadKb.None?)
  {
    hide RateOk, If;
  }

  lemma BandwidthKept(b: Bandwidth)
    ensures Unrepairable(Join(BandwidthChecks(b))) == Join(BandwidthChecks(ClampBandwidth(b)))
  {
    RateClamp(b.downloadKb);
    RateClamp(b.uploadKb);
    hide BandwidthChecks, BandwidthParts, RateOk, ClampRate, Join, Unrepairable, If;
    BandwidthPartsOf(b);
    BandwidthPartsOf(ClampBandwidth(b));
    BandwidthPartsKept(!RateOk(b.downloadKb), !RateOk(b.uploadKb), !(1 <= b.autoPercent <= 100),
                       b.limitDownload && b.downloadKb.None?, b.uploadMode == "limit" && b.uploadKb.None?);
  }

  lemma BandwidthAccepted(b: Bandwidth)
    requires forall i :: 0 <= i < |BandwidthChecks(b)| ==> BandwidthChecks(b)[i] == []
    ensures ClampBandwidth(b) == b
  {
    RateClamp(b.downloadKb);
    RateClamp(b.uploadKb);
    hide RateOk, ClampRate;
    var checks := BandwidthChecks(b);
    assert checks[0] == [] && checks[1] == [] && checks[2] == [];
  }

  lemma SafetyClamp(s: Safety)
    ensures Unrepairable(Join(SafetyChecks(s))) == [] == Join(SafetyChecks(ClampSafety(s)))
    ensures Join(SafetyChecks(s)) == [] ==> ClampSafety(s) == s
  {
    hide Join, Unrepairable, If;
    var c := ClampSafety(s);
    ThreeRepaired(!(0 <= s.massDelete <= 100_000), MassDeleteOutOfRange, !s.refuseUnderMount, RefusalTurnedOff,
                  s.minDisk < 0 || s.warnDisk < 0, DiskSpaceNegative);
    ThreeRepaired(!(0 <= c.massDelete <= 100_000), MassDeleteOutOfRange, !c.refuseUnderMount, RefusalTurnedOff,
                  c.minDisk < 0 || c.warnDisk < 0, DiskSpaceNegative);
  }

  /** The lower bounds that `clamp` applies and `validate` does not. */
  predicate FloorOk(f: Files) {
    f.maxBytes >= 1 && f.maxRelChars >= 1 && f.maxTotalChars >= 1
  }

  lemma InBounds(lo: int, x: int, hi: int)
    requires lo <= hi
    ensures lo <= Within(lo, x, hi) <= hi && (Within(lo, x, hi) == x <==> lo <= x <= hi)
  {
  }

  lemma FilesClamp(f: Files)
    ensures Unrepairable(Join(FilesChecks(f))) == [] == Join(FilesChecks(ClampFiles(f)))
    ensures Join(FilesChecks(f)) == [] ==> (ClampFiles(f) == f <==> FloorOk(f))
  {
    InBounds(1, f.maxBytes, MAX_FILE_BYTES);
    InBounds(1, f.maxRelChars, MAX_REL_CHARS);
    InBounds(1, f.maxTotalChars, MAX_TOTAL_CHARS);
    hide Within, Join, Unrepairable, If;
    FilesParts(f);
    FilesParts(ClampFiles(f));
  }

  lemma FilesParts(f: Files)
    ensures Unrepairable(Join(FilesChecks(f))) == []
    ensures Join(FilesChecks(f)) == []
       <==> f.maxBytes <= MAX_FILE_BYTES && f.maxRelChars <= MAX_REL_CHARS && f.maxTotalChars <= MAX_TOTAL_CHARS
  {
    hide Join, Unrepairable, If;
    ThreeRepaired(f.maxBytes > MAX_FILE_BYTES, FileTooLarge, f.maxRelChars > MAX_REL_CHARS, RelPathTooLong,
                  f.maxTotalChars > MAX_TOTAL_CHARS, TotalPathTooLong);
  }

  lemma OnDemandClamp(d: OnDemand)
    ensures Unrepairable(Join(OnDemandChecks(d))) == [] == Join(OnDemandChecks(ClampOnDemand(d)))
    ensures Join(OnDemandChecks(d)) == [] ==> ClampOnDemand(d) == d
  {
    hide Join, Unrepairable, If;
    var c := ClampOnDemand(d);
    TwoRepaired(!(1 <= d.hydrate <= MAX_TRANSFERS), HydrateOutOfRange,
                d.freeUpDays.Some? && d.freeUpDays.value < 1, FreeUpTooSoon);
    TwoRepaired(!(1 <= c.hydrate <= MAX_TRANSFERS), HydrateOutOfRange,
                c.freeUpDays.Some? && c.freeUpDays.value < 1, FreeUpTooSoon);
  }

  /** The offered interval that is chosen is the nearest, and of two equally near the shorter. */
  lemma NearestIsNearest(m: int, offered: int)
    requires LockMinutesOk(offered)
    ensures LockMinutesOk(NearestLock(m))
    ensures Distance(m, NearestLock(m)) <= Distance(m, offered)
    ensures Distance(m, NearestLock(m)) == Distance(m, offered) ==> NearestLock(m) <= offered
  {
  }

  function Distance(a: int, b: int): int {
    if a < b then b - a else a - b
  }

  lemma VaultClamp(v: Vault)
    ensures Unrepairable(Join(VaultChecks(v))) == [] == Join(VaultChecks(ClampVault(v)))
    ensures Join(VaultChecks(v)) == [] ==> ClampVault(v) == v
  {
    NearestIsNearest(v.lockMinutes, 20);
    hide LockMinutesOk, NearestLock, Distance, Join, Unrepairable, If;
    TwoRepaired(!LockMinutesOk(v.lockMinutes), VaultLockNotOffered, v.warnMinutes < 0, VaultWarnNegative);
    var c := ClampVault(v);
    TwoRepaired(!LockMinutesOk(c.lockMinutes), VaultLockNotOffered, c.warnMinutes < 0, VaultWarnNegative);
  }

  lemma DefaultLockOk(world: World)
    ensures MaxLockOk(DEFAULT_MAX_LOCK, world)
  {
    StripNothing("2m");
    assert Lower("2m") == "2m" && "2m"[..1] == "2";
    assert Run("2") == 1 && NumberOf("2") == 2 by {
      assert "2"[1..] == "" && "2"[..0] == "";
    }
  }

  lemma OfflineClamp(o: Offline, world: World)
    ensures Unrepairable(Join(OfflineChecks(o, world))) == Join(OfflineChecks(ClampOffline(o, world), world))
    ensures Join(OfflineChecks(o, world)) == [] && !o.enabled ==> ClampOffline(o, world) == o
  {
    DefaultLockOk(world);
    hide LockMinutes, Strip;
    var before := OfflineChecks(o, world);
    EachKept(before, OfflineChecks(ClampOffline(o, world), world));
    EmptyJoin(before);
    if Join(before) == [] {
      assert before[0] == [] && before[1] == [] && before[2] == [] && before[3] == [];
    }
  }

  lemma UiClamp(u: Ui)
    ensures Unrepairable(Join(UiChecks(u))) == [] == Join(UiChecks(ClampUi(u)))
    ensures Join(UiChecks(u)) == [] ==> ClampUi(u) == u
  {
    hide Join, Unrepairable, If;
    var c := ClampUi(u);
    TwoRepaired(u.width < 200, WidthTooSmall, u.rows < 1, RowsTooFew);
    TwoRepaired(c.width < 200, WidthTooSmall, c.rows < 1, RowsTooFew);
  }

  lemma OneOfKept(key: Dotted, value: string, allowed: seq<string>)
    ensures Unrepairable(OneOf(key, value, allowed)) == OneOf(key, value, allowed)
  {
    OneKept(value !in allowed, NotAChoice(key, value));
  }

  lemma ChoicesKept(acc: Account)
    ensures Unrepairable(Join(ChoiceChecks(acc))) == Join(ChoiceChecks(acc))
  {
    hide OneOf, Join, Unrepairable;
    forall key, value, allowed ensures Unrepairable(OneOf(key, value, allowed)) == OneOf(key, value, allowed) {
      OneOfKept(key, value, allowed);
    }
    UnrepairableJoin(ChoiceChecks(acc), ChoiceChecks(acc));
  }

  lemma ChoicesUntouched(acc: Account, world: World)
    ensures ChoiceChecks(ClampAccount(acc, world)) == ChoiceChecks(acc)
  {
    hide OneOf, ClampMount, ClampRate, ChunkSizeOk, MaxLockOk, LockMinutesOk, NearestLock, Within, Max;
  }

  /** The path checks as plain conditions. */
  function PathParts(relative: bool, under: bool, enabled: bool, meets: bool, below: bool): seq<seq<Problem>> {
    [
      If(relative, RootRelative),
      If(under, RootUnderMount),
      If(enabled, OfflineEnabled),
      If(enabled && meets, OfflineNotDisjoint),
      If(enabled && below, OfflineUnderMount)]
  }

  lemma PathPartsKept(relative: bool, under: bool, enabled: bool, meets: bool, below: bool, meets': bool, below': bool)
    ensures Unrepairable(Join(PathParts(relative, under, enabled, meets, below)))
         == Join(PathParts(relative, under, false, meets', below'))
    ensures Join(PathParts(relative, under, enabled, meets, below)) == [] ==> !enabled
  {
    hide Join, Unrepairable, If;
    var before := PathParts(relative, under, enabled, meets, below);
    OneKept(relative, RootRelative);
    OneKept(under, RootUnderMount);
    OneKept(enabled, OfflineEnabled);
    OneKept(enabled && meets, OfflineNotDisjoint);
    OneKept(enabled && below, OfflineUnderMount);
    UnrepairableJoin(before, PathParts(relative, under, false, meets', below'));
    EmptyJoin(before);
    if Join(before) == [] {
      assert before[2] == [];
    }
  }

  predicate Meets(root: string, offline: string, world: World) {
    offline == root || world.within(offline, root) || world.within(root, offline)
  }

  lemma PathPartsOf(acc: Account, world: World)
    ensures var root, offline := Root(acc, world), Expanded(OfflineText(acc.offline), world);
      PathChecks(acc, world) == PathParts(!world.absolute(root), UnderMount(root, world), acc.offline.enabled,
                                          Meets(root, offline, world), UnderMount(offline, world))
  {
    hide Root, Expanded, OfflineText, UnderMount, If;
  }

  lemma PathClamp(acc: Account, clamped: Account, world: World)
    requires clamped.syncRoot == acc.syncRoot && !clamped.offline.enabled
    ensures Unrepairable(Join(PathChecks(acc, world))) == Join(PathChecks(clamped, world))
    ensures Join(PathChecks(acc, world)) == [] ==> !acc.offline.enabled
  {
    assert Root(clamped, world) == Root(acc, world);
    hide *;
    PathPartsOf(acc, world);
    PathPartsOf(clamped, world);
    var root := Root(acc, world);
    var offline, after := Expanded(OfflineText(acc.offline), world), Expanded(OfflineText(clamped.offline), world);
    PathPartsKept(!world.absolute(root), UnderMount(root, world), acc.offline.enabled,
                  Meets(root, offline, world), UnderMount(offline, world),
                  Meets(root, after, world), UnderMount(after, world));
  }

  lemma ClampedSections(acc: Account, world: World)
    ensures var c := ClampAccount(acc, world);
      && c.remote == acc.remote && c.syncRoot == acc.syncRoot && PersonalDrive(c) == PersonalDrive(acc)
      && c.mount == ClampMount(acc.mount) && c.backend == ClampBackend(acc.backend, PersonalDrive(acc))
      && c.bandwidth == ClampBandwidth(acc.bandwidth) && c.safety == ClampSafety(acc.safety)
      && c.files == ClampFiles(acc.files) && c.onDemand == ClampOnDemand(acc.onDemand)
      && c.vault == ClampVault(acc.vault) && c.offline == ClampOffline(acc.offline, world) && c.ui == ClampUi(acc.ui)
    ensures !ClampAccount(acc, world).offline.enabled
  {
  }

  /** What is wrong with one account after `clamp` is what was unrepairable before, in order. */
  lemma AccountClamp(acc: Account, world: World)
    ensures Unrepairable(Join(OwnChecks(acc, world))) == Join(OwnChecks(ClampAccount(acc, world), world))
  {
    hide *;
    var clamped := ClampAccount(acc, world);
    ClampedSections(acc, world);
    OneKept(acc.remote == "", RemoteEmpty);
    OneKept(acc.remote != "" && ':' in acc.remote, RemoteHasColon(acc.remote));
    MountClamp(acc.mount);
    BackendClamp(acc.backend, PersonalDrive(acc));
    PathClamp(acc, clamped, world);
    ChoicesUntouched(acc, world);
    ChoicesKept(acc);
    BandwidthClamp(acc.bandwidth);
    SafetyClamp(acc.safety);
    FilesClamp(acc.files);
    OnDemandClamp(acc.onDemand);
    VaultClamp(acc.vault);
    OfflineClamp(acc.offline, world);
    UiClamp(acc.ui);
    assert !Repairable(RemoteEmpty) && !Repairable(RemoteHasColon(acc.remote)) by {
      RemoteIsNotRepaired(acc.remote);
    }
    PartByPart(acc, clamped, world);
    UnrepairableJoin(OwnChecks(acc, world), OwnChecks(clamped, world));
  }

  lemma RemoteIsNotRepaired(remote: string)
    ensures !Repairable(RemoteEmpty) && !Repairable(RemoteHasColon(remote))
  {
  }

  lemma PartByPart(a: Account, c: Account, world: World)
    requires a.remote == c.remote
    requires Unrepairable(If(a.remote == "", RemoteEmpty)) == If(c.remote == "", RemoteEmpty)
    requires var colon := If(a.remote != "" && ':' in a.remote, RemoteHasColon(a.remote)); Unrepairable(colon) == colon
    requires Unrepairable(Join(MountChecks(a.mount))) == Join(MountChecks(c.mount))
    requires Unrepairable(Join(BackendChecks(a.backend, PersonalDrive(a))))
          == Join(BackendChecks(c.backend, PersonalDrive(c)))
    requires Unrepairable(Join(PathChecks(a, world))) == Join(PathChecks(c, world))
    requires Unrepairable(Join(ChoiceChecks(a))) == Join(ChoiceChecks(c))
    requires Unrepairable(Join(BandwidthChecks(a.bandwidth))) == Join(BandwidthChecks(c.bandwidth))
    requires Unrepairable(Join(SafetyChecks(a.safety))) == Join(SafetyChecks(c.safety))
    requires Unrepairable(Join(FilesChecks(a.files))) == Join(FilesChecks(c.files))
    requires Unrepairable(Join(OnDemandChecks(a.onDemand))) == Join(OnDemandChecks(c.onDemand))
    requires Unrepairable(Join(VaultChecks(a.vault))) == Join(VaultChecks(c.vault))
    requires Unrepairable(Join(OfflineChecks(a.offline, world))) == Join(OfflineChecks(c.offline, world))
    requires Unrepairable(Join(UiChecks(a.ui))) == Join(UiChecks(c.ui))
    ensures |OwnChecks(a, world)| == |OwnChecks(c, world)|
    ensures forall i ::
      0 <= i < |OwnChecks(a, world)| ==> Unrepairable(OwnChecks(a, world)[i]) == OwnChecks(c, world)[i]
  {
    hide MountChecks, BackendChecks, PathChecks, BandwidthChecks, SafetyChecks, FilesChecks, OnDemandChecks;
    hide VaultChecks;
    hide OfflineChecks, UiChecks, ChoiceChecks, Join, Unrepairable, PersonalDrive, If;
  }

  lemma AccountAccepted(acc: Account, world: World)
    requires Join(OwnChecks(acc, world)) == []
    ensures ClampAccount(acc, world) == acc <==> FloorOk(acc.files)
  {
    hide MountChecks, BackendChecks, PathChecks, BandwidthChecks, SafetyChecks, FilesChecks, OnDemandChecks;
    hide VaultChecks;
    hide OfflineChecks, UiChecks, Unrepairable, Join, ClampMount, ClampBackend, ClampBandwidth, ClampSafety, ClampFiles;
    hide ClampOnDemand, ClampVault, ClampUi, ClampOffline, OwnChecks, FloorOk;
    EmptyJoin(OwnChecks(acc, world));
    OwnAccepted(acc, world);
    MountClamp(acc.mount);
    BackendClamp(acc.backend, PersonalDrive(acc));
    ClampedSections(acc, world);
    PathClamp(acc, ClampAccount(acc, world), world);
    BandwidthClamp(acc.bandwidth);
    SafetyClamp(acc.safety);
    FilesClamp(acc.files);
    OnDemandClamp(acc.onDemand);
    VaultClamp(acc.vault);
    OfflineClamp(acc.offline, world);
    UiClamp(acc.ui);
  }

  lemma OwnAccepted(acc: Account, world: World)
    requires forall i :: 0 <= i < |OwnChecks(acc, world)| ==> OwnChecks(acc, world)[i] == []
    ensures Join(MountChecks(acc.mount)) == [] && Join(BackendChecks(acc.backend, PersonalDrive(acc))) == []
    ensures Join(PathChecks(acc, world)) == [] && Join(BandwidthChecks(acc.bandwidth)) == []
    ensures Join(SafetyChecks(acc.safety)) == [] && Join(FilesChecks(acc.files)) == []
    ensures Join(OnDemandChecks(acc.onDemand)) == [] && Join(VaultChecks(acc.vault)) == []
    ensures Join(OfflineChecks(acc.offline, world)) == [] && Join(UiChecks(acc.ui)) == []
  {
    hide MountChecks, BackendChecks, PathChecks, BandwidthChecks, SafetyChecks, FilesChecks, OnDemandChecks;
    hide VaultChecks;
    hide OfflineChecks, UiChecks, ChoiceChecks, Join;
    var c := OwnChecks(acc, world);
    assert c[2] == [] && c[3] == [] && c[4] == [] && c[6] == [] && c[7] == [] && c[8] == [] && c[9] == [];
    assert c[10] == [] && c[11] == [] && c[12] == [];
  }

  // ---------------------------------------------------------------------------------------------
  // All accounts

  lemma {:induction false} ClampEach(accounts: seq<Account>, world: World, i: nat)
    requires i < |accounts|
    ensures ClampAccounts(accounts, world)[i] == ClampAccount(accounts[i], world)
  {
    hide ClampAccount;
    if i < |accounts| - 1 {
      ClampEach(accounts[..|accounts| - 1], world, i);
    }
  }

  /** Nothing that identifies an account is clamped. */
  lemma SameIdentity(acc: Account, world: World)
    ensures var c := ClampAccount(acc, world);
      c.id == acc.id && c.remote == acc.remote && c.enabled == acc.enabled && Root(c, world) == Root(acc, world)
  {
  }

  lemma ClashesKept(before: seq<Account>, acc: Account, world: World)
    ensures var clamped := ClashChecks(ClampAccounts(before, world), ClampAccount(acc, world), world);
      clamped == ClashChecks(before, acc, world) && Unrepairable(Join(clamped)) == Join(clamped)
  {
    SameIdentity(acc, world);
    SameIdentities(before, acc.id, Root(acc, world), acc.remote, world);
    hide ClampAccount, ClampAccounts, Root, Join, Unrepairable, HasId, HasRoot, HasRemote, If;
    var checks := ClashChecks(before, acc, world);
    OneKept(acc.id == "", IdEmpty);
    OneKept(acc.id != "" && HasId(before, acc.id), IdRepeated(acc.id));
    OneKept(acc.enabled && HasRoot(before, Root(acc, world), world), RootShared(Root(acc, world)));
    OneKept(acc.enabled && acc.remote != "" && HasRemote(before, acc.remote), RemoteShared(acc.remote));
    UnrepairableJoin(checks, checks);
  }

  lemma {:induction false} SameIdentities(before: seq<Account>, id: string, root: string, remote: string, world: World)
    ensures var after := ClampAccounts(before, world);
      && HasId(after, id) == HasId(before, id) && HasRoot(after, root, world) == HasRoot(before, root, world)
      && HasRemote(after, remote) == HasRemote(before, remote)
  {
    hide ClampAccount, HasId, HasRoot, HasRemote, Root;
    if before != [] {
      var n := |before| - 1;
      SameIdentities(before[..n], id, root, remote, world);
      SameIdentitiesStep(before[..n], before[n], ClampAccounts(before[..n], world), id, root, remote, world);
      assert before == before[..n] + [before[n]];
    }
  }

  lemma SameIdentitiesStep(some: seq<Account>, last: Account, clamped: seq<Account>, id: string, root: string,
                           remote: string, world: World)
    requires HasId(clamped, id) == HasId(some, id) && HasRoot(clamped, root, world) == HasRoot(some, root, world)
    requires HasRemote(clamped, remote) == HasRemote(some, remote)
    ensures var all, after := some + [last], clamped + [ClampAccount(last, world)];
      && HasId(after, id) == HasId(all, id) && HasRoot(after, root, world) == HasRoot(all, root, world)
      && HasRemote(after, remote) == HasRemote(all, remote)
  {
    hide HasId, HasRoot, HasRemote, ClampAccount, Root;
    SameIdentity(last, world);
    OneMore(some, last, id, root, remote, world);
    OneMore(clamped, ClampAccount(last, world), id, root, remote, world);
  }

  lemma OneMore(some: seq<Account>, last: Account, id: string, root: string, remote: string, world: World)
    ensures HasId(some + [last], id) == (HasId(some, id) || last.id == id)
    ensures HasRoot(some + [last], root, world)
      <==> HasRoot(some, root, world) || (last.enabled && Root(last, world) == root)
    ensures HasRemote(some + [last], remote) == (HasRemote(some, remote) || (last.enabled && last.remote == remote))
  {
    hide Root;
    assert last in some + [last];
    assert forall a :: a in some + [last] <==> a in some || a == last;
  }

  lemma {:induction false} AccountsClamp(accounts: seq<Account>, world: World)
    ensures Unrepairable(AccountsProblems(accounts, world)) == AccountsProblems(ClampAccounts(accounts, world), world)
  {
    hide ClampAccount, Join, ClashChecks, OwnChecks, Unrepairable;
    if accounts == [] {
      AllRepairable([]);
    } else {
      var n := |accounts| - 1;
      var before, acc := accounts[..n], accounts[n];
      AccountsClamp(before, world);
      ClashesKept(before, acc, world);
      AccountClamp(acc, world);
      var first, clash := AccountsProblems(before, world), Join(ClashChecks(before, acc, world));
      var own := Join(OwnChecks(acc, world));
      UnrepairableConcat(first + clash, own);
      UnrepairableConcat(first, clash);
      var clamped := ClampAccounts(accounts, world);
      assert clamped[..n] == ClampAccounts(before, world) && clamped[n] == ClampAccount(acc, world);
    }
  }

  lemma ClampedProblems(c: Config, world: World)
    ensures Join(Checks(Clamped(c, world), world)) == Unrepairable(Join(Checks(c, world)))
  {
    hide ClampAccounts, AppChecks, AdvancedChecks, AccountsProblems, Join, Unrepairable, ActiveOk, ClampAdvanced, If;
    var k := Clamped(c, world);
    OneKept(c.schemaVersion != CONFIG_SCHEMA_VERSION, WrongSchema);
    AppKept(c.app, c.advanced, k.advanced);
    AdvancedClamp(c.advanced);
    AccountsClamp(c.accounts, world);
    ActiveKept(c.app.active, c.accounts, world);
    OneKept(!ActiveOk(c.app.active, c.accounts), ActiveUnknown(if c.app.active.Some? then c.app.active.value else ""));
    UnrepairableJoin(Checks(c, world), Checks(k, world));
  }

  predicate SomeChunkOverflows(accounts: seq<Account>) {
    exists a :: a in accounts && ChunkOverflows(a)
  }

  predicate SomeCutoffOverflows(accounts: seq<Account>) {
    exists a :: a in accounts && Overflows(a.backend.uploadCutoff)
  }

  predicate SomeRootThrows(accounts: seq<Account>, world: World) {
    exists a :: a in accounts && RootThrows(a, world)
  }

  predicate SomeOfflineThrows(accounts: seq<Account>, world: World) {
    exists a :: a in accounts && a.offline.enabled && PathThrows(OfflineText(a.offline), world)
  }

  /** Of what makes `validate` raise, `clamp` mends the chunk sizes and the offline paths. */
  lemma ClampedThrows(accounts: seq<Account>, world: World)
    ensures var clamped := ClampAccounts(accounts, world);
      && !SomeChunkOverflows(clamped) && !SomeOfflineThrows(clamped, world)
      && SomeCutoffOverflows(clamped) == SomeCutoffOverflows(accounts)
      && SomeRootThrows(clamped, world) == SomeRootThrows(accounts, world)
  {
    hide ParseSize, ClampAccount, ClampAccounts, PathThrows, RootThrows;
    var clamped := ClampAccounts(accounts, world);
    forall i | 0 <= i < |accounts|
      ensures !ChunkOverflows(clamped[i]) && !clamped[i].offline.enabled
      ensures clamped[i].backend.uploadCutoff == accounts[i].backend.uploadCutoff
      ensures RootThrows(clamped[i], world) == RootThrows(accounts[i], world)
    {
      ClampEach(accounts, world, i);
      ClampedAccount(accounts[i], world);
    }
    if SomeCutoffOverflows(accounts) {
      var i :| 0 <= i < |accounts| && Overflows(accounts[i].backend.uploadCutoff);
      assert clamped[i] in clamped;
    }
    if SomeRootThrows(accounts, world) {
      var i :| 0 <= i < |accounts| && RootThrows(accounts[i], world);
      assert clamped[i] in clamped;
    }
  }

  lemma ClampedAccount(acc: Account, world: World)
    ensures var c := ClampAccount(acc, world);
      && !ChunkOverflows(c) && !c.offline.enabled && c.backend.uploadCutoff == acc.backend.uploadCutoff
      && RootThrows(c, world) == RootThrows(acc, world)
  {
    DefaultChunkOk();
    hide ParseSize, PathThrows;
    ClampedSections(acc, world);
  }

  lemma ThrowsIff(c: Config, world: World)
    ensures Validated(c, world).Threw? <==>
      || SomeChunkOverflows(c.accounts) || SomeCutoffOverflows(c.accounts) || SomeRootThrows(c.accounts, world)
      || SomeOfflineThrows(c.accounts, world)
  {
    hide Checks, Join, ChunkOverflows, Overflows, RootThrows, PathThrows;
  }

  /**
   `clamp` returns exactly when no chunk size overflows.  It then removes the repairable problems and
   no others: what `validate` says of the clamped configuration is exactly what it said before that
   has no safe answer, in the same order, and it raises exactly when an upload cutoff overflows or a
   sync root cannot be looked up.
   */
  lemma ClampRemovesTheRepairable(c: Config, world: World)
    ensures ClampResult(c, world).Threw? <==> SomeChunkOverflows(c.accounts)
    ensures Validated(c, world).Threw? <==>
      || SomeChunkOverflows(c.accounts) || SomeCutoffOverflows(c.accounts) || SomeRootThrows(c.accounts, world)
      || SomeOfflineThrows(c.accounts, world)
    ensures ClampResult(c, world).Returned? ==>
      Validated(ClampResult(c, world).value, world)
        == if SomeCutoffOverflows(c.accounts) || SomeRootThrows(c.accounts, world) then Threw
           else Returned(Unrepairable(Join(Checks(c, world))))
  {
    ThrowsIff(c, world);
    ThrowsIff(Clamped(c, world), world);
    ClampedProblems(c, world);
    ClampedThrows(c.accounts, world);
    hide Checks, Join, Unrepairable, ClampAccounts, ChunkOverflows, Overflows, ClampAdvanced, RootThrows, PathThrows;
  }

  lemma AppKept(app: App, before: Advanced, after: Advanced)
    requires after == ClampAdvanced(before)
    ensures Unrepairable(Join(AppChecks(app, before))) == Join(AppChecks(app, after))
  {
    hide OneOf, Join, Unrepairable, PortsOk;
    forall key, value, allowed ensures Unrepairable(OneOf(key, value, allowed)) == OneOf(key, value, allowed) {
      OneOfKept(key, value, allowed);
    }
    assert AppChecks(app, before) == AppChecks(app, after);
    UnrepairableJoin(AppChecks(app, before), AppChecks(app, after));
  }

  lemma ActiveKept(active: Option<string>, accounts: seq<Account>, world: World)
    ensures ActiveOk(active, ClampAccounts(accounts, world)) == ActiveOk(active, accounts)
  {
    if active.Some? {
      SameIdentities(accounts, active.value, "", "", world);
    }
  }

  // ---------------------------------------------------------------------------------------------
  // clamp leaves an accepted configuration alone

  predicate Valid(c: Config, world: World) {
    Validated(c, world) == Returned([])
  }

  predicate FloorsOk(accounts: seq<Account>) {
    forall i :: 0 <= i < |accounts| ==> FloorOk(accounts[i].files)
  }

  lemma {:induction false} AccountsAccepted(accounts: seq<Account>, world: World)
    requires AccountsProblems(accounts, world) == []
    ensures ClampAccounts(accounts, world) == accounts <==> FloorsOk(accounts)
  {
    hide ClampAccount, Join, OwnChecks, FloorOk, ClashChecks;
    if accounts != [] {
      var n := |accounts| - 1;
      AccountsAccepted(accounts[..n], world);
      AccountAccepted(accounts[n], world);
      assert accounts == accounts[..n] + [accounts[n]];
      assert FloorsOk(accounts) <==> FloorsOk(accounts[..n]) && FloorOk(accounts[n].files);
    }
  }

  /** Accepted accounts are told apart by their ids. */
  lemma {:induction false} AcceptedNames(accounts: seq<Account>, world: World)
    requires AccountsProblems(accounts, world) == []
    ensures forall i :: 0 <= i < |accounts| ==> accounts[i].id != "" && accounts[i].remote != ""
    ensures forall i, j :: 0 <= i < j < |accounts| ==> accounts[i].id != accounts[j].id
  {
    hide Join, OwnChecks, ClashChecks;
    if accounts != [] {
      var n := |accounts| - 1;
      var before, acc := accounts[..n], accounts[n];
      AcceptedNames(before, world);
      NamesAccepted(before, acc, world);
      assert accounts == before + [acc];
    }
  }

  lemma NamesAccepted(before: seq<Account>, acc: Account, world: World)
    requires Join(ClashChecks(before, acc, world)) == [] && Join(OwnChecks(acc, world)) == []
    ensures acc.id != "" && acc.remote != "" && forall i :: 0 <= i < |before| ==> before[i].id != acc.id
  {
    hide HasRoot, HasRemote, Root;
    var own, clash := OwnChecks(acc, world), ClashChecks(before, acc, world);
    EmptyJoin(own);
    EmptyJoin(clash);
    assert own[0] == [] && clash[0] == [] && clash[1] == [];
  }

  /** A configuration that `validate` accepts is left as it is exactly when its limits are positive. */
  lemma AcceptedIsFixed(c: Config, world: World)
    requires Valid(c, world)
    ensures ClampResult(c, world) == Returned(c) <==> FloorsOk(c.accounts)
    ensures ClampResult(c, world).Returned?
  {
    hide ClampAccounts, AdvancedChecks, AccountsProblems, Join, ClampAdvanced, FloorsOk, Overflows;
    EmptyJoin(Checks(c, world));
    assert Checks(c, world)[2] == [] && Checks(c, world)[3] == [];
    AdvancedClamp(c.advanced);
    AccountsAccepted(c.accounts, world);
  }

  /** A valid configuration that `clamp` changes all the same. */
  lemma ZeroLimitIsChanged(f: Files)
    requires Join(FilesChecks(f)) == [] && f.maxBytes == 0
    ensures ClampFiles(f)
         == f.(maxBytes := 1, maxRelChars := Max(1, f.maxRelChars), maxTotalChars := Max(1, f.maxTotalChars))
  {
    EmptyJoin(FilesChecks(f));
    assert FilesChecks(f)[1] == [] && FilesChecks(f)[2] == [];
  }

  // ---------------------------------------------------------------------------------------------
  // clamp is idempotent

  lemma AccountClampTwice(acc: Account, world: World)
    ensures ClampAccount(ClampAccount(acc, world), world) == ClampAccount(acc, world)
  {
    ArgsClamp(acc.mount.extraArgs);
    ArgsClamp(SafeArgs(acc.mount.extraArgs));
    DefaultChunkOk();
    DefaultLockOk(world);
    hide SafeArgs, ArgProblems, ChunkSizeOk, MaxLockOk;
  }

  lemma {:induction false} AccountsClampTwice(accounts: seq<Account>, world: World)
    ensures ClampAccounts(ClampAccounts(accounts, world), world) == ClampAccounts(accounts, world)
  {
    hide ClampAccount;
    if accounts != [] {
      var n := |accounts| - 1;
      AccountsClampTwice(accounts[..n], world);
      AccountClampTwice(accounts[n], world);
      var clamped := ClampAccounts(accounts, world);
      assert clamped[..n] == ClampAccounts(accounts[..n], world);
    }
  }

  lemma ClampIdempotent(c: Config, world: World)
    requires ClampResult(c, world).Returned?
    ensures ClampResult(ClampResult(c, world).value, world) == ClampResult(c, world)
  {
    ClampedThrows(c.accounts, world);
    AccountsClampTwice(c.accounts, world);
    hide ClampAccounts, PortsOk, ChunkOverflows;
    assert PortsOk(DEFAULT_PORTS) by {
      DefaultPortsOk();
    }
  }

  lemma DefaultPortsOk()
    ensures PortsOk(DEFAULT_PORTS)
  {
  }
}
