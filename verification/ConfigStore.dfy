/**
 `save` and `load` of onedriveui/config.py over the files of `AtomicFiles`: what the recovery
 ladder finds after a power cut, and what the guarded backup is good for over many saves.
 */
module ConfigStore {
  import opened Basics
  import opened AtomicFiles

  /** `_is_json_object`, which is also what each rung of the ladder asks of a file. */
  predicate IsObject<C, Doc>(decode: C -> Option<Doc>, data: C) {
    decode(data).Some?
  }

  /** The ladder of `load`: the file, else its backup, else (`None`) the defaults. */
  function Ladder<C, Doc>(decode: C -> Option<Doc>, target: Option<C>, backup: Option<C>): Option<Doc> {
    if target.Some? && IsObject(decode, target.value) then decode(target.value)
    else if backup.Some? && IsObject(decode, backup.value) then decode(backup.value)
    else None
  }

  /** A power cut now may leave a disk from which `load` gives this. */
  ghost predicate MayRecover<C(!new), Doc>(decode: C -> Option<Doc>, fs: Fs<C>, doc: Option<Doc>) {
    exists t, b :: MayRead(fs, Target, t) && MayRead(fs, Backup, b) && Ladder(decode, t, b) == doc
  }

  /**
   Any power cut during a save leaves a disk from which `load` recovers the new document or one
   that could be recovered before the save: never a mixture, and never the defaults where
   something was sure to be recovered.
   */
  lemma CutRecovers<C(!new), Doc>(decode: C -> Option<Doc>, before: Fs<C>, cut: Fs<C>, data: C,
                                  keepIf: C -> bool, dirSync: bool, rotated: bool, doc: Option<Doc>)
    requires forall d :: keepIf(d) == IsObject(decode, d)
    requires IsObject(decode, data)
    requires InRotation(before, cut, data, keepIf, dirSync, rotated)
    requires MayRecover(decode, cut, doc)
    ensures doc == decode(data) || MayRecover(decode, before, doc)
  {
    var t, b :| MayRead(cut, Target, t) && MayRead(cut, Backup, b) && Ladder(decode, t, b) == doc;
    if t == Some(data) {
      return;
    }
    assert MayRead(before, Target, t);
    if MayRead(before, Backup, b) {
      return;
    }
    var previous := before.live[Target];
    assert b == Some(previous.data) && IsObject(decode, previous.data);
    assert Some(previous) in Survivors(before, Target);
    var anyBackup: Option<C> := if Backup in before.live then Some(before.live[Backup].data) else None;
    assert MayRead(before, Backup, anyBackup) by {
      assert Entry(before.live, Backup) in Survivors(before, Backup);
    }
    if t.Some? && IsObject(decode, t.value) {
      assert Ladder(decode, t, anyBackup) == doc;
    } else {
      assert MayRead(before, Target, Some(previous.data));
      assert Ladder(decode, Some(previous.data), anyBackup) == doc;
    }
  }

  /**
   Rotating whatever is there would not do: when only the backup can be read, copying the target
   over it leaves nothing to recover.  It is harmless exactly when the target can be read or the
   backup could not be read anyway.
   */
  lemma UnguardedRotationIff<C, Doc>(decode: C -> Option<Doc>, target: C, backup: Option<C>)
    ensures (Ladder(decode, Some(target), backup).Some? ==> Ladder(decode, Some(target), Some(target)).Some?)
       <==> (IsObject(decode, target) || backup.None? || !IsObject(decode, backup.value))
  {
  }

  /** Once the new file is in place and the directory synced, every power cut leaves it to be loaded. */
  lemma SavedIsFound<C(!new), Doc>(decode: C -> Option<Doc>, fs: Fs<C>, data: C)
    requires Entry(fs.live, Target) == Some(Inode(data, true)) && fs.stale == map[] && IsObject(decode, data)
    ensures forall doc :: MayRecover(decode, fs, doc) ==> doc == decode(data)
  {
    assert Survivors(fs, Target) == {Some(Inode(data, true))};
  }

  method Save<C(==,!new), Doc>(disk: Disk<C>, decode: C -> Option<Doc>, data: C, blank: C,
                               readable: bool, dirSync: bool)
    returns (ok: bool, ghost rotated: bool)
    requires disk.Valid() && IsObject(decode, data)
    modifies disk
    ensures disk.Valid()
    ensures Entry(disk.live, Target) == if ok then Some(Inode(data, true)) else old(Entry(disk.live, Target))
    ensures ok && readable && Target in old(disk.live) && IsObject(decode, old(disk.live)[Target].data) ==>
      Entry(disk.live, Backup) == Some(Inode(old(disk.live)[Target].data, true))
    ensures Target !in old(disk.live) || !readable || !IsObject(decode, old(disk.live)[Target].data) ==>
      Entry(disk.live, Backup) == old(Entry(disk.live, Backup))
    ensures ok && dirSync ==> forall doc :: MayRecover(decode, disk.State(), doc) ==> doc == decode(data)
    ensures old(disk.trace) <= disk.trace
    ensures forall k, doc :: |old(disk.trace)| <= k < |disk.trace| && MayRecover(decode, disk.trace[k], doc) ==>
      doc == decode(data) || MayRecover(decode, old(disk.State()), doc)
  {
    var keepIf := d => IsObject(decode, d);
    ghost var before := disk.State();
    ok, rotated := disk.BackupThenWrite(data, blank, keepIf, readable, dirSync);
    if ok && dirSync {
      SavedIsFound(decode, disk.State(), data);
    }
    forall k, doc | |old(disk.trace)| <= k < |disk.trace| && MayRecover(decode, disk.trace[k], doc)
      ensures doc == decode(data) || MayRecover(decode, before, doc)
    {
      CutRecovers(decode, before, disk.trace[k], data, keepIf, dirSync, rotated, doc);
    }
  }

  method Load<C(==,!new), Doc>(disk: Disk<C>, decode: C -> Option<Doc>) returns (doc: Option<Doc>)
    ensures doc == Ladder(decode, Read(disk.live, Target), Read(disk.live, Backup))
    ensures Target in disk.live && decode(disk.live[Target].data) != None ==> doc == decode(disk.live[Target].data)
    ensures Target !in disk.live || decode(disk.live[Target].data) == None ==>
      doc == if Backup in disk.live then decode(disk.live[Backup].data) else None
  {
    var raw := None;
    if Target in disk.live {
      raw := decode(disk.live[Target].data);
    }
    if raw == None {
      if Backup in disk.live {
        raw := decode(disk.live[Backup].data);
      }
    }
    return raw;
  }

  function Read<C>(live: map<Name, Inode<C>>, name: Name): Option<C> {
    if name in live then Some(live[name].data) else None
  }

  // ---------------------------------------------------------------------------------------------
  // Many saves

  /** What the two names hold, and every content the target has ever held. */
  datatype Pair<!C(==)> = Pair(target: Option<C>, backup: Option<C>, held: set<C>)

  datatype Deed<+C> =
    | Corrupt(with: Option<C>)   // anything outside this module, to the target only
    | Saved(data: C)
    | SavedBlind(data: C)        // the target could not be read, or a cut met an unsynced directory
    | CutEarly(data: C)          // the new backup survives, the new target does not
    | NotSaved(data: C)          // failure or power cut before anything survives

  function Rotated<C, Doc>(decode: C -> Option<Doc>, pair: Pair<C>): Option<C> {
    if pair.target.Some? && IsObject(decode, pair.target.value) then pair.target else pair.backup
  }

  function Do<C, Doc>(decode: C -> Option<Doc>, pair: Pair<C>, deed: Deed<C>): Pair<C> {
    match deed
    case Corrupt(with) => pair.(target := with, held := pair.held + if with.Some? then {with.value} else {})
    case Saved(data) => Pair(Some(data), Rotated(decode, pair), pair.held + {data})
    case SavedBlind(data) => pair.(target := Some(data), held := pair.held + {data})
    case CutEarly(_) => pair.(backup := Rotated(decode, pair))
    case NotSaved(_) => pair
  }

  function DoAll<C, Doc>(decode: C -> Option<Doc>, pair: Pair<C>, deeds: seq<Deed<C>>): Pair<C> {
    if deeds == [] then pair
    else Do(decode, DoAll(decode, pair, deeds[..|deeds| - 1]), deeds[|deeds| - 1])
  }

  ghost predicate GoodBackup<C, Doc>(decode: C -> Option<Doc>, pair: Pair<C>) {
    pair.backup.Some? && IsObject(decode, pair.backup.value) && pair.backup.value in pair.held
  }

  /**
   However saves, power cuts and damage to the file follow each other: a backup that is a JSON
   object stays one and holds bytes the file once held, so `load` never falls to the defaults.
   */
  lemma {:induction false} BackupStaysGood<C, Doc>(decode: C -> Option<Doc>, pair: Pair<C>, deeds: seq<Deed<C>>)
    requires pair.target.Some? ==> pair.target.value in pair.held
    requires GoodBackup(decode, pair)
    ensures var later := DoAll(decode, pair, deeds);
      && (later.target.Some? ==> later.target.value in later.held)
      && GoodBackup(decode, later) && Ladder(decode, later.target, later.backup).Some?
  {
    if deeds != [] {
      BackupStaysGood(decode, pair, deeds[..|deeds| - 1]);
    }
  }

  predicate Leaves<C, Doc>(decode: C -> Option<Doc>, pair: Pair<C>, deed: Deed<C>,
                           t: Option<C>, b: Option<C>) {
    var after := Do(decode, pair, deed);
    t == after.target && b == after.backup
  }

  /**
   From a settled disk, what survives a power cut during a save is one of these deeds, whether or not
   the target could be read and the directory be synced.  The new file stands beside the old backup
   only if the rotation was left out or not synced.
   */
  lemma CutIsADeed<C(!new), Doc>(decode: C -> Option<Doc>, before: Fs<C>, cut: Fs<C>, data: C, keepIf: C -> bool,
                                 dirSync: bool, rotated: bool, pair: Pair<C>, t: Option<C>, b: Option<C>)
    requires forall d :: keepIf(d) == IsObject(decode, d)
    requires before.stale == map[] && Sound(before)
    requires pair.target == Read(before.live, Target) && pair.backup == Read(before.live, Backup)
    requires InRotation(before, cut, data, keepIf, dirSync, rotated)
    requires MayRead(cut, Target, t) && MayRead(cut, Backup, b)
    ensures Leaves(decode, pair, Saved(data), t, b) || Leaves(decode, pair, CutEarly(data), t, b)
         || Leaves(decode, pair, NotSaved(data), t, b)
         || (!(rotated && dirSync) && Leaves(decode, pair, SavedBlind(data), t, b))
  {
    assert forall name :: Survivors(before, name) == {Entry(before.live, name)};
    assert Permanent(Target) && Permanent(Backup);
    assert Target in before.live ==> before.live[Target].synced by {
      if Target in before.live {
        assert Some(before.live[Target]) in Survivors(before, Target);
      }
    }
    assert Backup in before.live ==> before.live[Backup].synced by {
      if Backup in before.live {
        assert Some(before.live[Backup]) in Survivors(before, Backup);
      }
    }
  }
}
