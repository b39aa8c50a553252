/**
 onedriveui/atomicio.py as filesystem steps, with a power cut possible between any two of them.

 The disk has a live directory, and for each name the older entries that a power cut may still
 bring back because the directory has not been synced since.  A file whose bytes have not been
 synced comes back with any bytes at all.
 */
module AtomicFiles {
  import opened Basics

  datatype Name = Target | Backup | Temp(number: nat)

  datatype Inode<+C> = Inode(data: C, synced: bool)

  datatype Fs<!C(==)> = Fs(live: map<Name, Inode<C>>, stale: map<Name, set<Option<Inode<C>>>>)

  function Entry<C>(live: map<Name, Inode<C>>, name: Name): Option<Inode<C>> {
    if name in live then Some(live[name]) else None
  }

  /** The entries a name may have after a power cut. */
  ghost function Survivors<C>(fs: Fs<C>, name: Name): set<Option<Inode<C>>> {
    {Entry(fs.live, name)} + if name in fs.stale then fs.stale[name] else {}
  }

  /** The bytes a reader may find under a name after a power cut. */
  ghost predicate MayRead<C(!new)>(fs: Fs<C>, name: Name, data: Option<C>) {
    if data.None? then None in Survivors(fs, name)
    else exists inode :: Some(inode) in Survivors(fs, name) && (inode.synced ==> inode.data == data.value)
  }

  predicate Permanent(name: Name) {
    name.Target? || name.Backup?
  }

  /** Both permanent files have their bytes on the platter, whichever entry survives. */
  ghost predicate Sound<C(!new)>(fs: Fs<C>) {
    forall name, inode :: Permanent(name) && Some(inode) in Survivors(fs, name) ==> inode.synced
  }

  /** No power cut shows anything but what could be shown before, or the new bytes under `name`. */
  ghost predicate Within<C>(before: Fs<C>, fs: Fs<C>, name: Name, data: C) {
    forall n :: Permanent(n) ==>
      Survivors(fs, n) <= Survivors(before, n) + if n == name then {Some(Inode(data, true))} else {}
  }

  /** Whatever shows no more of the permanent files than before stays within the same bounds. */
  lemma StaysWithin<C>(before: Fs<C>, fs: Fs<C>, later: Fs<C>, name: Name, data: C)
    requires Within(before, fs, name, data)
    requires forall n :: Permanent(n) ==> Survivors(later, n) <= Survivors(fs, n)
    ensures Within(before, later, name, data)
  {
  }

  class Disk<C(==,!new)> {
    var live: map<Name, Inode<C>>
    var temps: nat
    ghost var stale: map<Name, set<Option<Inode<C>>>>
    ghost var trace: seq<Fs<C>>   // every state a power cut could have met

    ghost function State(): Fs<C>
      reads this
    {
      Fs(live, stale)
    }

    /** Temporary names not handed out yet are unused. */
    ghost predicate Valid()
      reads this
    {
      forall k :: temps <= k ==> Temp(k) !in live
    }

    constructor (live: map<Name, Inode<C>>, temps: nat)
      requires forall k :: temps <= k ==> Temp(k) !in live
      ensures Valid() && State() == Fs(live, map[]) && trace == [State()]
    {
      this.live, this.temps, stale := live, temps, map[];
      trace := [Fs(live, map[])];
    }

    ghost function Older(name: Name): set<Option<Inode<C>>>
      reads this
    {
      {Entry(live, name)} + if name in stale then stale[name] else {}
    }

    // The system calls.  Each is one step, and each may fail without effect.

    method Create(blank: C) returns (temp: Name)
      requires Valid()
      modifies this
      ensures Valid() && temp.Temp? && temp !in old(live)
      ensures live == old(live)[temp := Inode(blank, false)]
      ensures stale == old(stale)[temp := old(Older(temp))]
      ensures trace == old(trace) + [State()]
    {
      temp := Temp(temps);
      stale := stale[temp := Older(temp)];
      live, temps := live[temp := Inode(blank, false)], temps + 1;
      trace := trace + [State()];
    }

    method Write(temp: Name, data: C)
      requires Valid() && temp in live
      modifies this`live, this`trace
      ensures Valid() && live == old(live)[temp := Inode(data, false)]
      ensures trace == old(trace) + [State()]
    {
      live := live[temp := Inode(data, false)];
      trace := trace + [State()];
    }

    method Sync(temp: Name)
      requires Valid() && temp in live
      modifies this`live, this`trace
      ensures Valid() && live == old(live)[temp := Inode(old(live)[temp].data, true)]
      ensures trace == old(trace) + [State()]
    {
      live := live[temp := Inode(live[temp].data, true)];
      trace := trace + [State()];
    }

    method Replace(temp: Name, name: Name)
      requires Valid() && temp in live && temp.Temp? && Permanent(name)
      modifies this`live, this`stale, this`trace
      ensures Valid() && live == (old(live) - {temp})[name := old(live)[temp]]
      ensures stale == old(stale)[name := old(Older(name))][temp := old(Older(temp))]
      ensures trace == old(trace) + [State()]
    {
      stale := stale[name := Older(name)][temp := Older(temp)];
      live := (live - {temp})[name := live[temp]];
      trace := trace + [State()];
    }

    method Unlink(temp: Name)
      requires Valid() && temp.Temp?
      modifies this`live, this`stale, this`trace
      ensures Valid() && live == old(live) - {temp}
      ensures stale == old(stale)[temp := old(Older(temp))]
      ensures trace == old(trace) + [State()]
    {
      stale := stale[temp := Older(temp)];
      live := live - {temp};
      trace := trace + [State()];
    }

    /** `fsync_dir` reports nothing: on a filesystem that refuses it, it has no effect. */
    method SyncDir(works: bool)
      requires Valid()
      modifies this`stale, this`trace
      ensures Valid() && stale == if works then map[] else old(stale)
      ensures trace == old(trace) + [State()]
    {
      if works {
        stale := map[];
      }
      trace := trace + [State()];
    }

    /** The temporary file, up to its `fsync`; where that fails it is unlinked. */
    method WriteTemp(name: Name, data: C, blank: C) returns (temp: Option<Name>)
      requires Valid() && Permanent(name)
      modifies this
      ensures Valid()
      ensures forall n :: Permanent(n) ==> Entry(live, n) == old(Entry(live, n))
      ensures temp.Some? ==>
        temp.value.Temp? && temp.value !in old(live) && Entry(live, temp.value) == Some(Inode(data, true))
      ensures forall n :: n in live && n.Temp? && temp != Some(n) ==> n in old(live)
      ensures Traced(old(State()), old(trace), name, data)
    {
      ghost var before := State();
      var created: bool := *;
      if !created {
        return None;
      }
      var it := Create(blank);
      StaysWithin(before, before, State(), name, data);
      var filled := Fill(it, before, old(trace), name, data);
      if filled {
        return Some(it);
      }
      Discard(it, before, old(trace), name, data);
      return None;
    }

    /** The bytes and their `fsync`, either of which may fail. */
    method Fill(temp: Name, ghost before: Fs<C>, ghost calls: seq<Fs<C>>, name: Name, data: C)
      returns (filled: bool)
      requires Valid() && temp.Temp? && temp in live && Traced(before, calls, name, data)
      modifies this`live, this`trace
      ensures Valid() && Traced(before, calls, name, data)
      ensures live.Keys == old(live).Keys && forall n :: n in live && n != temp ==> live[n] == old(live)[n]
      ensures filled ==> live[temp] == Inode(data, true)
    {
      var written: bool, synced: bool := *, *;
      if written {
        Write(temp, data);
        assert Within(before, State(), name, data);
      }
      filled := written && synced;
      if filled {
        Sync(temp);
      }
    }

    /** Every state since `calls`, the present one included, shows old entries or the new bytes. */
    ghost predicate Traced(before: Fs<C>, calls: seq<Fs<C>>, name: Name, data: C)
      reads this
    {
      && calls <= trace
      && (forall k :: |calls| <= k < |trace| ==> Within(before, trace[k], name, data))
      && Within(before, State(), name, data)
    }

    /**
     `atomic_write_bytes`.  `ok` is false where the source raises.  Whatever fails and wherever
     the power goes, the file is the old one or the whole new one.
     */
    method AtomicWrite(name: Name, data: C, blank: C, dirSync: bool) returns (ok: bool)
      requires Valid() && Permanent(name)
      modifies this
      ensures Valid()
      ensures Entry(live, name) == if ok then Some(Inode(data, true)) else old(Entry(live, name))
      ensures forall n :: Permanent(n) && n != name ==> Entry(live, n) == old(Entry(live, n))
      ensures forall n :: n in live && n.Temp? ==> n in old(live)
      ensures Traced(old(State()), old(trace), name, data)
      ensures ok && dirSync ==> stale == map[]
    {
      ghost var before := State();
      var temp := WriteTemp(name, data, blank);
      if temp == None {
        return false;
      }
      var renamed: bool := *;
      if !renamed {
        Discard(temp.value, before, old(trace), name, data);
        return false;
      }
      Promote(temp.value, before, old(trace), name, data);
      Settle(dirSync, before, old(trace), name, data);
      return true;
    }

    /** `os.replace` of the finished temporary file. */
    method Promote(temp: Name, ghost before: Fs<C>, ghost calls: seq<Fs<C>>, name: Name, data: C)
      requires Valid() && temp.Temp? && Permanent(name) && Entry(live, temp) == Some(Inode(data, true))
      requires Traced(before, calls, name, data)
      modifies this`live, this`stale, this`trace
      ensures Valid() && Traced(before, calls, name, data)
      ensures live == (old(live) - {temp})[name := old(live)[temp]]
    {
      Replace(temp, name);
    }

    method Discard(temp: Name, ghost before: Fs<C>, ghost calls: seq<Fs<C>>, name: Name, data: C)
      requires Valid() && temp.Temp? && Traced(before, calls, name, data)
      modifies this`live, this`stale, this`trace
      ensures Valid() && Traced(before, calls, name, data) && live == old(live) - {temp}
    {
      ghost var fs := State();
      Unlink(temp);
      StaysWithin(before, fs, State(), name, data);
    }

    method Settle(works: bool, ghost before: Fs<C>, ghost calls: seq<Fs<C>>, name: Name, data: C)
      requires Valid() && Traced(before, calls, name, data)
      modifies this`stale, this`trace
      ensures Valid() && Traced(before, calls, name, data)
      ensures stale == if works then map[] else old(stale)
    {
      ghost var fs := State();
      SyncDir(works);
      StaysWithin(before, fs, State(), name, data);
    }

    /**
     `backup_then_write`: a copy of the live file becomes the backup first, if the caller finds
     it worth keeping, and only then is the file replaced.
     */
    method BackupThenWrite(data: C, blank: C, keepIf: C -> bool, readable: bool, dirSync: bool)
      returns (ok: bool, ghost rotated: bool)
      requires Valid()
      modifies this
      ensures Valid()
      ensures rotated ==> Target in old(live) && readable && keepIf(old(live)[Target].data)
      ensures ok && Target in old(live) && readable && keepIf(old(live)[Target].data) ==> rotated
      ensures Entry(live, Target) == if ok then Some(Inode(data, true)) else old(Entry(live, Target))
      ensures Entry(live, Backup) ==
        if rotated then Some(Inode(old(live)[Target].data, true)) else old(Entry(live, Backup))
      ensures forall n :: n in live && n.Temp? ==> n in old(live)
      ensures ok && dirSync ==> stale == map[]
      ensures old(trace) <= trace
      ensures forall k :: |old(trace)| <= k < |trace| ==>
        InRotation(old(State()), trace[k], data, keepIf, dirSync, rotated)
    {
      rotated := false;
      if Target in live {
        var previous := live[Target].data;
        if readable && keepIf(previous) {
          ok := AtomicWrite(Backup, previous, blank, dirSync);
          if !ok {
            return;
          }
          rotated := true;
        }
      }
      ok := AtomicWrite(Target, data, blank, dirSync);
    }
  }

  /**
   What a power cut may show while `backup_then_write` runs: the target is old or new, the backup
   is old or the kept copy of the target, and the new target never stands beside the old backup
   when the rotation was synced.
   */
  ghost predicate InRotation<C>(before: Fs<C>, fs: Fs<C>, data: C, keepIf: C -> bool,
                                dirSync: bool, rotated: bool) {
    var kept := if Target in before.live && keepIf(before.live[Target].data)
                then {Some(Inode(before.live[Target].data, true))} else {};
    && Survivors(fs, Target) <= Survivors(before, Target) + {Some(Inode(data, true))}
    && Survivors(fs, Backup) <= Survivors(before, Backup) + kept
    && (rotated && dirSync ==>
          Survivors(fs, Target) <= Survivors(before, Target) || Survivors(fs, Backup) <= kept)
  }
}
