/**
 onedriveui/data/db.py: `migrate`.  Every pending script runs in a transaction that also stamps its
 version, so an upgrade may be cut between any two scripts and resumed.
 */
module Migrations {
  import opened Basics

  /** `run` is what the SQL does to the data; `None` is an error, which rolls the transaction back. */
  datatype Script<!Db> = Script(version: int, run: Db -> Option<Db>)

  datatype Store<Db> = Store(version: int, data: Db)

  /** `migration_files` sorts by version; two files may have the same one. */
  ghost predicate Sorted<Db>(scripts: seq<Script<Db>>) {
    forall i, j :: 0 <= i < j < |scripts| ==> scripts[i].version <= scripts[j].version
  }

  /** `_run_script`: the data and the stamp, or neither. */
  function RunOne<Db>(s: Store<Db>, script: Script<Db>): Option<Store<Db>> {
    var data := script.run(s.data);
    if data.None? then None else Some(Store(script.version, data.value))
  }

  /** An upgrade that goes on until a script fails or none is left. */
  function Upgrade<Db>(s: Store<Db>, scripts: seq<Script<Db>>): Store<Db>
    decreases |scripts|
  {
    if scripts == [] then s
    else if scripts[0].version <= s.version then Upgrade(s, scripts[1..])
    else
      var next := RunOne(s, scripts[0]);
      if next.None? then s else Upgrade(next.value, scripts[1..])
  }

  /** The scripts that take effect in it. */
  function Effective<Db>(s: Store<Db>, scripts: seq<Script<Db>>): seq<Script<Db>>
    decreases |scripts|
  {
    if scripts == [] then []
    else if scripts[0].version <= s.version then Effective(s, scripts[1..])
    else
      var next := RunOne(s, scripts[0]);
      if next.None? then [] else [scripts[0]] + Effective(next.value, scripts[1..])
  }

  /** Upgrades that were killed after so many scripts each, one after the other. */
  function Attempts<Db>(s: Store<Db>, scripts: seq<Script<Db>>, cuts: seq<nat>): Store<Db>
    requires forall i :: 0 <= i < |cuts| ==> cuts[i] <= |scripts|
    decreases |cuts|
  {
    if cuts == [] then s else Attempts(Upgrade(s, scripts[..cuts[0]]), scripts, cuts[1..])
  }

  lemma {:induction false} VersionGrows<Db>(s: Store<Db>, scripts: seq<Script<Db>>)
    ensures s.version <= Upgrade(s, scripts).version
    decreases |scripts|
  {
    if scripts != [] {
      var next := RunOne(s, scripts[0]);
      VersionGrows(s, scripts[1..]);
      if next.Some? {
        VersionGrows(next.value, scripts[1..]);
      }
    }
  }

  /** Scripts up to the stamped version are passed over. */
  lemma {:induction false} PassedOver<Db>(s: Store<Db>, done: seq<Script<Db>>, more: seq<Script<Db>>)
    requires forall i :: 0 <= i < |done| ==> done[i].version <= s.version
    ensures Upgrade(s, done + more) == Upgrade(s, more)
  {
    if done == [] {
      assert done + more == more;
    } else {
      PassedOver(s, done[1..], more);
      assert (done + more)[1..] == done[1..] + more;
    }
  }

  /** An upgrade that was cut and started again ends where one that was not cut ends. */
  lemma {:induction false} Resumes<Db>(s: Store<Db>, scripts: seq<Script<Db>>, cut: nat)
    requires Sorted(scripts) && cut <= |scripts|
    ensures Upgrade(Upgrade(s, scripts[..cut]), scripts) == Upgrade(s, scripts)
    decreases |scripts|
  {
    if cut > 0 {
      var rest := scripts[1..];
      assert scripts[..cut][1..] == rest[..cut - 1] && scripts == [scripts[0]] + rest;
      var next := RunOne(s, scripts[0]);
      var t := if scripts[0].version <= s.version then s else if next.Some? then next.value else s;
      if scripts[0].version <= s.version || next.Some? {
        Resumes(t, rest, cut - 1);
        VersionGrows(t, rest[..cut - 1]);
        PassedOver(Upgrade(t, rest[..cut - 1]), [scripts[0]], rest);
      }
    }
  }

  /** However often it is interrupted, the upgrade that completes has the same result. */
  lemma {:induction false} InterruptionsDoNotMatter<Db>(s: Store<Db>, scripts: seq<Script<Db>>, cuts: seq<nat>)
    requires Sorted(scripts) && forall i :: 0 <= i < |cuts| ==> cuts[i] <= |scripts|
    ensures Upgrade(Attempts(s, scripts, cuts), scripts) == Upgrade(s, scripts)
    decreases |cuts|
  {
    if cuts != [] {
      InterruptionsDoNotMatter(Upgrade(s, scripts[..cuts[0]]), scripts, cuts[1..]);
      Resumes(s, scripts, cuts[0]);
    }
  }

  /**
   The scripts that take effect go up strictly from the version of the store, so none runs twice; of
   two with one version only the first ever runs.
   */
  lemma {:induction false} NeverTwice<Db>(s: Store<Db>, scripts: seq<Script<Db>>)
    ensures var done := Effective(s, scripts);
      && (forall i :: 0 <= i < |done| ==> s.version < done[i].version)
      && (forall i, j :: 0 <= i < j < |done| ==> done[i].version < done[j].version)
      && Upgrade(s, scripts).version == if done == [] then s.version else done[|done| - 1].version
    decreases |scripts|
  {
    if scripts != [] {
      var next := RunOne(s, scripts[0]);
      if scripts[0].version <= s.version {
        NeverTwice(s, scripts[1..]);
      } else if next.Some? {
        NeverTwice(next.value, scripts[1..]);
        var rest := Effective(next.value, scripts[1..]);
        assert Effective(s, scripts) == [scripts[0]] + rest;
      }
    }
  }

  /** The scripts run one after the other on the data, whatever their versions. */
  function Applied<Db>(data: Db, scripts: seq<Script<Db>>): Option<Db>
    decreases |scripts|
  {
    if scripts == [] then Some(data)
    else
      var next := scripts[0].run(data);
      if next.None? then None else Applied(next.value, scripts[1..])
  }

  /** The version is above the store's and that of every earlier script. */
  ghost predicate Due<Db>(s: Store<Db>, scripts: seq<Script<Db>>, i: nat)
    requires i < |scripts|
  {
    s.version < scripts[i].version && forall j :: 0 <= j < i ==> scripts[j].version < scripts[i].version
  }

  ghost predicate Rising(ran: seq<nat>, k: nat) {
    && (forall a :: 0 <= a < |ran| ==> ran[a] < k)
    && forall a, b :: 0 <= a < b < |ran| ==> ran[a] < ran[b]
  }

  function Pick<Db>(scripts: seq<Script<Db>>, ran: seq<nat>): seq<Script<Db>>
    requires forall a :: 0 <= a < |ran| ==> ran[a] < |scripts|
  {
    seq(|ran|, a requires 0 <= a < |ran| => scripts[ran[a]])
  }

  function Shifted(ran: seq<nat>, k: nat): (later: seq<nat>)
    requires Rising(ran, k)
    ensures Rising(later, k + 1) && |later| == |ran|
    ensures forall a :: 0 <= a < |ran| ==> later[a] == ran[a] + 1
    ensures forall i: nat :: i + 1 in later <==> i in ran
  {
    var later := seq(|ran|, a requires 0 <= a < |ran| => ran[a] + 1);
    assert forall a :: 0 <= a < |ran| ==> later[a] == ran[a] + 1;
    later
  }

  /** Picking from the rest, and perhaps the first before it. */
  function With(first: bool, ran: seq<nat>, k: nat): (all: seq<nat>)
    requires Rising(ran, k)
    ensures Rising(all, k + 1)
  {
    (if first then [0] else []) + Shifted(ran, k)
  }

  lemma {:induction false} DueLater<Db>(s: Store<Db>, t: Store<Db>, scripts: seq<Script<Db>>, i: nat)
    requires 0 < i < |scripts|
    requires t.version == if scripts[0].version > s.version then scripts[0].version else s.version
    ensures Due(s, scripts, i) <==> Due(t, scripts[1..], i - 1)
  {
    var rest := scripts[1..];
    assert forall j :: 0 <= j < i - 1 ==> rest[j] == scripts[j + 1];
    assert forall j :: 0 < j < i ==> scripts[j] == rest[j - 1];
  }

  lemma {:induction false} PickFirst<Db>(scripts: seq<Script<Db>>, first: bool, ran: seq<nat>, k: nat)
    requires scripts != [] && Rising(ran, k) && k <= |scripts| - 1
    ensures var picked := Pick(scripts, With(first, ran, k));
      if first then picked == [scripts[0]] + Pick(scripts[1..], ran) && picked[0] == scripts[0]
                    && picked[1..] == Pick(scripts[1..], ran)
      else picked == Pick(scripts[1..], ran)
    ensures var all := With(first, ran, k);
      ran != [] ==> all != [] && scripts[all[|all| - 1]] == scripts[1..][ran[|ran| - 1]]
  {
  }

  lemma {:induction false} DueFirst<Db>(s: Store<Db>, t: Store<Db>, scripts: seq<Script<Db>>, k: nat, ran: seq<nat>)
    requires scripts != [] && k <= |scripts| - 1 && Rising(ran, k)
    requires t.version == if scripts[0].version > s.version then scripts[0].version else s.version
    requires forall i :: 0 <= i < k ==> (i in ran <==> Due(t, scripts[1..], i))
    ensures forall i :: 0 <= i < k + 1 ==>
      (i in With(scripts[0].version > s.version, ran, k) <==> Due(s, scripts, i))
    ensures k < |scripts| - 1 ==> (Due(s, scripts, k + 1) <==> Due(t, scripts[1..], k))
  {
    var later, all := Shifted(ran, k), With(scripts[0].version > s.version, ran, k);
    forall i | 0 <= i < k + 1 ensures i in all <==> Due(s, scripts, i) {
      if i > 0 {
        DueLater(s, t, scripts, i);
        assert i in all <==> i in later;
        assert i in later <==> i - 1 in ran;
      } else {
        assert 0 !in later;
      }
    }
    if k < |scripts| - 1 {
      DueLater(s, t, scripts, k + 1);
    }
  }

  /**
   What an upgrade does to the data: up to script `k` exactly the due ones run, one after the other on
   the data of the store, and it ends there only because none is left or because script `k` is due and
   fails on the data as they now are.
   */
  ghost predicate Runs<Db>(s: Store<Db>, scripts: seq<Script<Db>>, k: nat, ran: seq<nat>) {
    var end := Upgrade(s, scripts);
    && k <= |scripts| && Rising(ran, k)
    && (forall i :: 0 <= i < k ==> (i in ran <==> Due(s, scripts, i)))
    && Effective(s, scripts) == Pick(scripts, ran)
    && Applied(s.data, Pick(scripts, ran)) == Some(end.data)
    && end.version == (if ran == [] then s.version else scripts[ran[|ran| - 1]].version)
    && (k < |scripts| ==> Due(s, scripts, k) && scripts[k].run(end.data) == None)
  }

  lemma {:induction false} UpgradeRuns<Db>(s: Store<Db>, scripts: seq<Script<Db>>) returns (k: nat, ran: seq<nat>)
    ensures Runs(s, scripts, k, ran)
    decreases |scripts|
  {
    hide Runs;
    if scripts == [] || (scripts[0].version > s.version && scripts[0].run(s.data).None?) {
      k, ran := 0, [];
      NothingRuns(s, scripts);
    } else if scripts[0].version <= s.version {
      k, ran := UpgradeRuns(s, scripts[1..]);
      OneBefore(s, s, scripts, k, ran);
      k, ran := k + 1, With(false, ran, k);
    } else {
      var t := Store(scripts[0].version, scripts[0].run(s.data).value);
      k, ran := UpgradeRuns(t, scripts[1..]);
      OneBefore(s, t, scripts, k, ran);
      k, ran := k + 1, With(true, ran, k);
    }
  }

  lemma {:induction false} NothingRuns<Db>(s: Store<Db>, scripts: seq<Script<Db>>)
    requires scripts == [] || (scripts[0].version > s.version && scripts[0].run(s.data).None?)
    ensures Runs(s, scripts, 0, [])
  {
  }

  lemma {:induction false} OneBefore<Db>(s: Store<Db>, t: Store<Db>, scripts: seq<Script<Db>>, k: nat, ran: seq<nat>)
    requires scripts != [] && Runs(t, scripts[1..], k, ran)
    requires if scripts[0].version <= s.version then t == s
             else t.version == scripts[0].version && scripts[0].run(s.data) == Some(t.data)
    ensures Rising(ran, k) && Runs(s, scripts, k + 1, With(scripts[0].version > s.version, ran, k))
  {
    DueFirst(s, t, scripts, k, ran);
    PickFirst(scripts, scripts[0].version > s.version, ran, k);
    hide Due, Pick, With, Rising;
  }

  class Database<Db(==)> {
    var version: int
    var data: Db

    constructor (s: Store<Db>)
      ensures View() == s
    {
      version, data := s.version, s.data;
    }

    function View(): Store<Db>
      reads this
    {
      Store(version, data)
    }

    /** One transaction: the script and its stamp, or a rollback and the error. */
    method RunScript(script: Script<Db>) returns (ok: bool)
      modifies this
      ensures ok ==> script.run(old(data)) == Some(data) && version == script.version
      ensures !ok ==> script.run(old(data)) == None && data == old(data) && version == old(version)
    {
      var result := script.run(data);
      ok := result.Some?;
      if ok {
        data, version := result.value, script.version;
      }
    }

    /** `migrate`. */
    method Migrate(scripts: seq<Script<Db>>) returns (ok: bool)
      modifies this
      ensures View() == Upgrade(old(View()), scripts)
      ensures ok ==> forall i :: 0 <= i < |scripts| ==> scripts[i].version <= version
      ensures !ok ==> exists i :: 0 <= i < |scripts| && scripts[i].version > version && scripts[i].run(data) == None
    {
      var i := 0;
      assert scripts[0..] == scripts;
      while i < |scripts|
        invariant i <= |scripts|
        invariant Upgrade(View(), scripts[i..]) == Upgrade(old(View()), scripts)
        invariant forall j :: 0 <= j < i ==> scripts[j].version <= version
      {
        assert scripts[i..][1..] == scripts[i + 1..];
        if version < scripts[i].version {
          ok := RunScript(scripts[i]);
          if !ok {
            return;
          }
        }
        i := i + 1;
      }
      ok := true;
    }
  }
}
