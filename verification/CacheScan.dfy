/**
 The generation protocol of `cache_index`: onedriveui/data/repo_files.py:357-481 and the
 `cache_index` step of `vacuum_and_prune` in onedriveui/data/db.py, as changes made one after the other.

 A scan claims generation N from the committed rows, upserts what it sees at N in slices, and
 prunes N - 1 when it has finished.  Any other operation may be interleaved.
 */
module CacheScan {
  import opened Basics
  import opened WriterLog

  /** The primary key of `cache_index`. */
  datatype Key = Key(account: string, path: string)

  datatype Row<E> = Row(entry: E, generation: int)

  /** The committed database: the cache table, and everything else in it. */
  datatype Tables<E, R> = Tables(cache: map<Key, Row<E>>, rest: R)

  datatype Sighting<E> = Sighting(path: string, entry: E)

  /** What an operation does to the database; a failing slice stops after `reach` rows. */
  datatype Change<!E, !R> =
    | Upsert(account: string, slice: seq<Sighting<E>>, generation: int, reach: nat)
    | Prune(account: string, generation: int)
    | Vacuum
    | Other(fn: Tables<E, R> -> Effect<Tables<E, R>>)

  function Lookup<E, R>(db: Tables<E, R>, account: string, path: string): Option<Row<E>> {
    var key := Key(account, path);
    if key in db.cache then Some(db.cache[key]) else None
  }

  function WriteRows<E>(cache: map<Key, Row<E>>, account: string, slice: seq<Sighting<E>>,
                        generation: int): map<Key, Row<E>> {
    if slice == [] then cache
    else
      var last := slice[|slice| - 1];
      WriteRows(cache, account, slice[..|slice| - 1], generation)
        [Key(account, last.path) := Row(last.entry, generation)]
  }

  function Reached<E, R>(change: Change<E, R>): seq<Sighting<E>>
    requires change.Upsert?
  {
    if change.reach < |change.slice| then change.slice[..change.reach] else change.slice
  }

  /** `vacuum_and_prune` removes a row when its account has a row of a newer generation. */
  ghost predicate Superseded<E>(cache: map<Key, Row<E>>, key: Key)
    requires key in cache
  {
    exists other :: other in cache && other.account == key.account
                    && cache[key].generation < cache[other].generation
  }

  ghost function Perform<E, R>(change: Change<E, R>, db: Tables<E, R>): Effect<Tables<E, R>> {
    match change
    case Upsert(account, slice, generation, reach) =>
      Effect(db.(cache := WriteRows(db.cache, account, Reached(change), generation)),
             if reach < |slice| then Error(OwnError(0)) else Value(|slice|))
    case Prune(account, generation) =>
      var kept := map key | key in db.cache
        && !(key.account == account && db.cache[key].generation <= generation) :: db.cache[key];
      Effect(db.(cache := kept), Value(|db.cache| - |kept|))
    case Vacuum =>
      var kept := map key | key in db.cache && !Superseded(db.cache, key) :: db.cache[key];
      Effect(db.(cache := kept), Value(|db.cache| - |kept|))
    case Other(fn) => fn(db)
  }

  ghost function After<E, R>(db: Tables<E, R>, changes: seq<Change<E, R>>): Tables<E, R> {
    if changes == [] then db
    else Perform(changes[|changes| - 1], After(db, changes[..|changes| - 1])).db
  }

  // ---------------------------------------------------------------------------------------------
  // Changes and the writer's log

  /** The `i`th row of a slice is the last of its first `n` for the path. */
  predicate LastFor<E>(slice: seq<Sighting<E>>, n: nat, path: string, i: nat) {
    i < n <= |slice| && slice[i].path == path && forall j :: i < j < n ==> slice[j].path != path
  }

  /**
   What each change does to one path: a slice puts there the last row it has for it before it fails, a
   prune takes away a row of the account up to its generation, and the hourly deletion one whose account
   has a newer generation.  Nothing else in the database changes.
   */
  lemma OneChange<E, R>(change: Change<E, R>, db: Tables<E, R>, account: string, path: string)
    requires !change.Other?
    ensures var effect := Perform(change, db);
      var was, now := Lookup(db, account, path), Lookup(effect.db, account, path);
      && effect.db.rest == db.rest
      && match change
         case Upsert(owner, slice, generation, reach) =>
           var n := if reach <= |slice| then reach else |slice|;
           && (forall i: nat :: owner == account && LastFor(slice, n, path, i) ==>
                 now == Some(Row(slice[i].entry, generation)))
           && (owner != account || (forall i :: 0 <= i < n ==> slice[i].path != path) ==> now == was)
           && effect.reply == if reach >= |slice| then Value(|slice|) else Error(OwnError(0))
         case Prune(owner, generation) =>
           && now == (if was.Some? && owner == account && was.value.generation <= generation then None else was)
           && effect.reply == Value(|db.cache| - |effect.db.cache|)
         case Vacuum =>
           now == if was.Some? && exists key :: key in db.cache && key.account == account
                                                && was.value.generation < db.cache[key].generation then None else was
  {
    match change {
      case Upsert(owner, slice, generation, reach) =>
        var n := if reach <= |slice| then reach else |slice|;
        assert Reached(change) == slice[..n];
        WrittenRow(db.cache, owner, slice[..n], generation, Key(account, path));
        forall i: nat | LastFor(slice, n, path, i) ensures LastSighting(slice[..n], path) == Some(slice[i].entry) {
          LastIs(slice, n, path, i);
        }
        if forall i :: 0 <= i < n ==> slice[i].path != path {
          NoSighting(slice[..n], path);
        }
      case Prune(_, _) =>
      case Vacuum =>
    }
  }

  lemma {:induction false} LastIs<E>(slice: seq<Sighting<E>>, n: nat, path: string, i: nat)
    requires LastFor(slice, n, path, i)
    ensures LastSighting(slice[..n], path) == Some(slice[i].entry)
  {
    assert slice[..n][..n - 1] == slice[..n - 1];
    if i < n - 1 {
      LastIs(slice, n - 1, path, i);
    }
  }

  lemma {:induction false} NoSighting<E>(slice: seq<Sighting<E>>, path: string)
    requires forall i :: 0 <= i < |slice| ==> slice[i].path != path
    ensures LastSighting(slice, path) == None
  {
    if slice != [] {
      NoSighting(slice[..|slice| - 1], path);
    }
  }

  ghost predicate Does<E(!new), R(!new)>(op: Op<Tables<E, R>>, change: Change<E, R>) {
    forall db :: op.fn(db) == Perform(change, db)
  }

  ghost predicate Labelled<E(!new), R(!new)>(ops: seq<Op<Tables<E, R>>>, changes: seq<Change<E, R>>) {
    |ops| == |changes| && forall i :: 0 <= i < |ops| ==> Does(ops[i], changes[i])
  }

  lemma {:induction false} LogIsChanges<E(!new), R(!new)>(
      db: Tables<E, R>, ops: seq<Op<Tables<E, R>>>, changes: seq<Change<E, R>>)
    requires Labelled(ops, changes)
    ensures DbAfter(db, ops) == After(db, changes)
  {
    if ops != [] {
      var n := |ops| - 1;
      LogIsChanges(db, ops[..n], changes[..n]);
      assert Does(ops[n], changes[n]);
    }
  }

  // ---------------------------------------------------------------------------------------------
  // What a run of changes leaves for one path

  /** An operation that leaves the account's index alone. */
  ghost predicate Keeps<E(!new), R(!new)>(change: Change<E, R>, account: string) {
    change.Other? && forall db, path :: Lookup(change.fn(db).db, account, path) == Lookup(db, account, path)
  }

  /** Slices of the account, and operations that leave its index alone. */
  ghost predicate Writing<E(!new), R(!new)>(changes: seq<Change<E, R>>, account: string) {
    forall i :: 0 <= i < |changes| ==>
      (changes[i].Upsert? && changes[i].account == account) || Keeps(changes[i], account)
  }

  function LastSighting<E>(slice: seq<Sighting<E>>, path: string): Option<E> {
    if slice == [] then None
    else if slice[|slice| - 1].path == path then Some(slice[|slice| - 1].entry)
    else LastSighting(slice[..|slice| - 1], path)
  }

  /** The last row a slice of these changes has put at the path. */
  function LastWrite<E, R>(changes: seq<Change<E, R>>, path: string): Option<Row<E>> {
    if changes == [] then None
    else
      var last := changes[|changes| - 1];
      var entry := if last.Upsert? then LastSighting(Reached(last), path) else None;
      if entry.Some? then Some(Row(entry.value, last.generation))
      else LastWrite(changes[..|changes| - 1], path)
  }

  lemma {:induction false} WrittenRow<E>(cache: map<Key, Row<E>>, account: string,
                                         slice: seq<Sighting<E>>, generation: int, key: Key)
    ensures var written := WriteRows(cache, account, slice, generation);
      var entry := if key.account == account then LastSighting(slice, key.path) else None;
      if entry.Some? then key in written && written[key] == Row(entry.value, generation)
      else (key in written <==> key in cache) && (key in cache ==> written[key] == cache[key])
  {
    if slice != [] {
      WrittenRow(cache, account, slice[..|slice| - 1], generation, key);
    }
  }

  /** Slices overlay the index path by path, in order, and remove nothing. */
  lemma {:induction false} SlicesOverlay<E(!new), R(!new)>(
      db: Tables<E, R>, changes: seq<Change<E, R>>, account: string, path: string)
    requires Writing(changes, account)
    ensures Lookup(After(db, changes), account, path) ==
            if LastWrite(changes, path).Some? then LastWrite(changes, path) else Lookup(db, account, path)
  {
    if changes != [] {
      var n := |changes| - 1;
      var last := changes[n];
      SlicesOverlay(db, changes[..n], account, path);
      var before := After(db, changes[..n]);
      if last.Upsert? {
        WrittenRow(before.cache, account, Reached(last), last.generation, Key(account, path));
      } else {
        assert Keeps(last, account);
        assert Lookup(last.fn(before).db, account, path) == Lookup(before, account, path);
      }
    }
  }

  // ---------------------------------------------------------------------------------------------
  // The scan

  /** `cache_generation`: the newest generation of the account, or 0 without rows. */
  ghost predicate IsGeneration<E, R>(db: Tables<E, R>, account: string, generation: int) {
    if exists path :: Lookup(db, account, path).Some? then
      && (forall path :: Lookup(db, account, path).Some? ==>
            Lookup(db, account, path).value.generation <= generation)
      && (exists path :: Lookup(db, account, path).Some?
                         && Lookup(db, account, path).value.generation == generation)
    else generation == 0
  }

  /** Every slice for the account is one of the scan that claimed generation `n`. */
  ghost predicate OneScan<E(!new), R(!new)>(changes: seq<Change<E, R>>, account: string, n: int) {
    && Writing(changes, account)
    && forall i :: 0 <= i < |changes| && changes[i].Upsert? ==> changes[i].generation == n
  }

  ghost predicate AllKeep<E(!new), R(!new)>(changes: seq<Change<E, R>>, account: string) {
    forall i :: 0 <= i < |changes| ==> Keeps(changes[i], account)
  }

  lemma {:induction false} LastWriteGeneration<E(!new), R(!new)>(
      changes: seq<Change<E, R>>, account: string, n: int, path: string)
    requires OneScan(changes, account, n)
    ensures LastWrite(changes, path).Some? ==> LastWrite(changes, path).value.generation == n
  {
    if changes != [] {
      LastWriteGeneration(changes[..|changes| - 1], account, n, path);
    }
  }

  lemma {:induction false} KeptRun<E(!new), R(!new)>(
      db: Tables<E, R>, changes: seq<Change<E, R>>, account: string, path: string)
    requires AllKeep(changes, account)
    ensures Lookup(After(db, changes), account, path) == Lookup(db, account, path)
  {
    if changes != [] {
      var n := |changes| - 1;
      KeptRun(db, changes[..n], account, path);
      assert Keeps(changes[n], account);
    }
  }

  lemma {:induction false} AfterConcat<E, R>(
      db: Tables<E, R>, first: seq<Change<E, R>>, second: seq<Change<E, R>>)
    ensures After(db, first + second) == After(After(db, first), second)
    decreases |second|
  {
    hide Perform;
    if second == [] {
      assert first + second == first;
    } else {
      var n := |second| - 1;
      AfterConcat(db, first, second[..n]);
      var all := first + second;
      assert all[..|all| - 1] == first + second[..n] && all[|all| - 1] == second[n];
    }
  }

  /**
   After the prune, whatever slices were applied and whatever failed, a path of the account has a
   row exactly when its last write is newer than the pruned generation.  The earlier rows, at or
   below that generation, are gone.
   */
  lemma PruneKeepsNewer<E(!new), R(!new)>(
      db: Tables<E, R>, front: seq<Change<E, R>>, back: seq<Change<E, R>>,
      account: string, generation: int, path: string)
    requires IsGeneration(db, account, generation)
    requires Writing(front, account) && AllKeep(back, account)
    ensures var after := After(db, front + [Prune(account, generation)] + back);
      Lookup(after, account, path) ==
        if LastWrite(front, path).Some? && LastWrite(front, path).value.generation > generation
        then LastWrite(front, path) else None
  {
    var pruned := front + [Prune(account, generation)];
    AfterConcat(db, pruned, back);
    KeptRun(After(db, pruned), back, account, path);
    assert pruned[..|pruned| - 1] == front;
    SlicesOverlay(db, front, account, path);
  }

  /** The path is in one of these slices, whether or not its row was reached. */
  ghost predicate Seen<E, R>(changes: seq<Change<E, R>>, path: string) {
    exists i, j :: 0 <= i < |changes| && changes[i].Upsert? && 0 <= j < |changes[i].slice|
                   && changes[i].slice[j].path == path
  }

  ghost predicate SeenAs<E, R>(changes: seq<Change<E, R>>, path: string, entry: E) {
    exists i, j :: 0 <= i < |changes| && changes[i].Upsert? && 0 <= j < |changes[i].slice|
                   && changes[i].slice[j] == Sighting(path, entry)
  }

  ghost predicate NoneFails<E, R>(changes: seq<Change<E, R>>) {
    forall i :: 0 <= i < |changes| && changes[i].Upsert? ==> changes[i].reach >= |changes[i].slice|
  }

  lemma {:induction false} SightingIsThere<E>(slice: seq<Sighting<E>>, path: string) returns (j: nat)
    ensures LastSighting(slice, path).Some? ==>
      j < |slice| && slice[j] == Sighting(path, LastSighting(slice, path).value)
    ensures LastSighting(slice, path).None? ==> forall i :: 0 <= i < |slice| ==> slice[i].path != path
  {
    j := 0;
    if slice != [] {
      if slice[|slice| - 1].path == path {
        j := |slice| - 1;
      } else {
        j := SightingIsThere(slice[..|slice| - 1], path);
      }
    }
  }

  lemma {:induction false} WriteIsSeen<E, R>(changes: seq<Change<E, R>>, path: string)
    ensures LastWrite(changes, path).Some? ==> SeenAs(changes, path, LastWrite(changes, path).value.entry)
    ensures NoneFails(changes) && Seen(changes, path) ==> LastWrite(changes, path).Some?
  {
    if changes != [] {
      var n := |changes| - 1;
      var last := changes[n];
      var prior := changes[..n];
      WriteIsSeen(prior, path);
      if last.Upsert? {
        var j := SightingIsThere(Reached(last), path);
        if LastSighting(Reached(last), path).Some? {
          assert changes[n].slice[j] == Sighting(path, LastSighting(Reached(last), path).value);
        }
      }
      if LastWrite(prior, path).Some? {
        var i, j :| 0 <= i < n && prior[i].Upsert? && 0 <= j < |prior[i].slice|
                    && prior[i].slice[j] == Sighting(path, LastWrite(prior, path).value.entry);
        assert changes[i].slice[j] == prior[i].slice[j];
      }
      if NoneFails(changes) && Seen(changes, path) && !Seen(prior, path) {
        var i, j :| 0 <= i < |changes| && changes[i].Upsert? && 0 <= j < |changes[i].slice|
                    && changes[i].slice[j].path == path;
        assert i < n ==> prior[i].slice[j].path == path;
      }
    }
  }

  /** One of the rows the slice reached is for the path. */
  ghost predicate Writes<E, R>(change: Change<E, R>, path: string) {
    change.Upsert? && exists j :: 0 <= j < |Reached(change)| && Reached(change)[j].path == path
  }

  /**
   Slices are submitted without waiting, so their failures reach nobody, and the prune then
   removes what was not rewritten: a path has a row after it exactly when a slice wrote one.
   */
  lemma PrunedIffNoWriteTookEffect<E(!new), R(!new)>(
      db: Tables<E, R>, front: seq<Change<E, R>>, back: seq<Change<E, R>>,
      account: string, n: int, path: string)
    requires IsGeneration(db, account, n - 1)
    requires OneScan(front, account, n) && AllKeep(back, account)
    ensures Lookup(After(db, front + [Prune(account, n - 1)] + back), account, path).Some?
       <==> exists i :: 0 <= i < |front| && Writes(front[i], path)
  {
    PruneKeepsNewer(db, front, back, account, n - 1, path);
    LastWriteGeneration(front, account, n, path);
    TookEffect(front, path);
  }

  lemma {:induction false} TookEffect<E, R>(changes: seq<Change<E, R>>, path: string)
    ensures LastWrite(changes, path).Some? <==> exists i :: 0 <= i < |changes| && Writes(changes[i], path)
  {
    if changes != [] {
      var n := |changes| - 1;
      var prior := changes[..n];
      TookEffect(prior, path);
      WritesIff(changes[n], path);
      if i :| 0 <= i < n && Writes(prior[i], path) {
        assert Writes(changes[i], path);
      }
      if i :| 0 <= i < n && Writes(changes[i], path) {
        assert Writes(prior[i], path);
      }
    }
  }

  lemma WritesIff<E, R>(change: Change<E, R>, path: string)
    ensures Writes(change, path) <==> change.Upsert? && LastSighting(Reached(change), path).Some?
  {
    if change.Upsert? {
      var j := SightingIsThere(Reached(change), path);
    }
  }

  /**
   The generation is read from committed rows.  When slices of an earlier scan are still queued as
   the new one claims its generation, the finished scan holds exactly the paths it saw if and only
   if no leftover row of its generation or a newer one is left standing.
   */
  lemma UndrainedQueue<E(!new), R(!new)>(
      db: Tables<E, R>, leftovers: seq<Change<E, R>>, front: seq<Change<E, R>>,
      account: string, n: int, path: string)
    requires IsGeneration(db, account, n - 1)
    requires Writing(leftovers, account) && OneScan(front, account, n) && NoneFails(front)
    ensures var row := Lookup(After(db, leftovers + front + [Prune(account, n - 1)]), account, path);
      row.Some? <==>
        Seen(front, path)
        || (LastWrite(leftovers, path).Some? && LastWrite(leftovers, path).value.generation >= n)
  {
    var all := leftovers + front;
    assert Writing(all, account);
    assert all + [Prune(account, n - 1)] + [] == all + [Prune(account, n - 1)];
    PruneKeepsNewer(db, all, [], account, n - 1, path);
    LastWriteConcat(leftovers, front, path);
    LastWriteGeneration(front, account, n, path);
    WrittenIffSeen(front, path);
  }

  /** A slice of an earlier scan, still queued over an empty index, keeps a path the new scan did not see. */
  lemma LeftoverKeepsUnseenPath(db: Tables<int, ()>)
    requires db.cache == map[]
    ensures var leftovers, front := [Upsert("a", [Sighting("q", 0)], 1, 1)], [Upsert("a", [Sighting("p", 0)], 1, 1)];
      && IsGeneration(db, "a", 0) && OneScan(front, "a", 1) && NoneFails(front) && !Seen(front, "q")
      && Lookup(After(db, leftovers + front + [Prune("a", 0)]), "a", "q").Some?
  {
    var leftovers: seq<Change<int, ()>> := [Upsert("a", [Sighting("q", 0)], 1, 1)];
    var front: seq<Change<int, ()>> := [Upsert("a", [Sighting("p", 0)], 1, 1)];
    assert leftovers[0].slice == [Sighting("q", 0)][..1] && front[0].slice == [Sighting("p", 0)][..1];
    UndrainedQueue(db, leftovers, front, "a", 1, "q");
    assert LastWrite(leftovers, "q").Some?;
  }

  lemma WrittenIffSeen<E, R>(changes: seq<Change<E, R>>, path: string)
    requires NoneFails(changes)
    ensures LastWrite(changes, path).Some? <==> Seen(changes, path)
  {
    WriteIsSeen(changes, path);
    if LastWrite(changes, path).Some? {
      var i, j :| 0 <= i < |changes| && changes[i].Upsert? && 0 <= j < |changes[i].slice|
                  && changes[i].slice[j] == Sighting(path, LastWrite(changes, path).value.entry);
      assert changes[i].slice[j].path == path;
    }
  }

  lemma {:induction false} LastWriteConcat<E, R>(
      first: seq<Change<E, R>>, second: seq<Change<E, R>>, path: string)
    ensures LastWrite(first + second, path) ==
            if LastWrite(second, path).Some? then LastWrite(second, path) else LastWrite(first, path)
    decreases |second|
  {
    if second == [] {
      assert first + second == first;
    } else {
      var n := |second| - 1;
      LastWriteConcat(first, second[..n], path);
      assert (first + second)[..|first + second| - 1] == first + second[..n];
    }
  }

  // ---------------------------------------------------------------------------------------------
  // The hourly prune

  /**
   `vacuum_and_prune` keeps the rows of the account's newest generation only.  After a scan that was
   interrupted it therefore keeps exactly what the scan had written, if it had written anything.
   */
  lemma VacuumAfterInterruption<E(!new), R(!new)>(
      db: Tables<E, R>, front: seq<Change<E, R>>, account: string, n: int, path: string)
    requires IsGeneration(db, account, n - 1) && OneScan(front, account, n)
    ensures var row := Lookup(After(db, front + [Vacuum]), account, path);
      if exists other :: LastWrite(front, other).Some? then row == LastWrite(front, path)
      else row == if Lookup(db, account, path).Some?
                     && Lookup(db, account, path).value.generation == n - 1
                  then Lookup(db, account, path) else None
  {
    var before := After(db, front);
    var key := Key(account, path);
    assert (front + [Vacuum])[..|front|] == front;
    forall p
      ensures Lookup(before, account, p) ==
              if LastWrite(front, p).Some? then LastWrite(front, p) else Lookup(db, account, p)
      ensures LastWrite(front, p).Some? ==> LastWrite(front, p).value.generation == n
    {
      SlicesOverlay(db, front, account, p);
      LastWriteGeneration(front, account, n, p);
    }
    if key in before.cache {
      SupersededByPath(before, account, path);
      if other :| LastWrite(front, other).Some? {
        assert Lookup(before, account, other).value.generation == n;
      }
    }
  }

  lemma SupersededByPath<E, R>(db: Tables<E, R>, account: string, path: string)
    requires Lookup(db, account, path).Some?
    ensures Superseded(db.cache, Key(account, path)) <==>
            exists other :: Lookup(db, account, other).Some?
                            && Lookup(db, account, path).value.generation
                               < Lookup(db, account, other).value.generation
  {
    if Superseded(db.cache, Key(account, path)) {
      var key :| key in db.cache && key.account == account
                 && db.cache[Key(account, path)].generation < db.cache[key].generation;
      assert Lookup(db, account, key.path) == Some(db.cache[key]);
    }
  }

  ghost predicate Covered<E, R>(db: Tables<E, R>, later: Tables<E, R>, account: string) {
    forall path :: Lookup(db, account, path).Some? ==> Lookup(later, account, path).Some?
  }

  ghost predicate SingleGeneration<E, R>(db: Tables<E, R>, account: string, generation: int) {
    forall path :: Lookup(db, account, path).Some? ==>
      Lookup(db, account, path).value.generation == generation
  }

  ghost predicate RewritesAll<E, R>(db: Tables<E, R>, changes: seq<Change<E, R>>, account: string) {
    forall path :: Lookup(db, account, path).Some? ==> LastWrite(changes, path).Some?
  }

  ghost predicate WritesNothing<E, R>(changes: seq<Change<E, R>>) {
    forall path :: LastWrite(changes, path).None?
  }

  /**
   An interrupted scan followed by the hourly prune loses nothing exactly when the scan had
   rewritten every indexed path, or had written nothing over an index of a single generation.
   */
  lemma InterruptedThenVacuumIff<E(!new), R(!new)>(
      db: Tables<E, R>, front: seq<Change<E, R>>, account: string, n: int)
    requires IsGeneration(db, account, n - 1) && OneScan(front, account, n)
    ensures Covered(db, After(db, front + [Vacuum]), account) <==>
            RewritesAll(db, front, account)
            || (WritesNothing(front) && SingleGeneration(db, account, n - 1))
  {
    var later := After(db, front + [Vacuum]);
    forall path
      ensures var row := Lookup(later, account, path);
        if exists other :: LastWrite(front, other).Some? then row == LastWrite(front, path)
        else row == if Lookup(db, account, path).Some?
                       && Lookup(db, account, path).value.generation == n - 1
                    then Lookup(db, account, path) else None
    {
      VacuumAfterInterruption(db, front, account, n, path);
    }
    if other :| LastWrite(front, other).Some? {
      assert Covered(db, later, account) <==> RewritesAll(db, front, account);
    } else {
      assert Covered(db, later, account) <==> SingleGeneration(db, account, n - 1);
    }
  }

  /** Two indexed paths, a scan stopped after the first of them, and the hourly prune: the other is lost. */
  lemma InterruptedThenVacuumLoses(db: Tables<int, ()>)
    requires db.cache == map[Key("a", "p") := Row(0, 1), Key("a", "q") := Row(0, 1)]
    ensures var front := [Upsert("a", [Sighting("p", 0)], 2, 1)];
      && IsGeneration(db, "a", 1) && OneScan(front, "a", 2) && NoneFails(front)
      && Lookup(db, "a", "q") == Some(Row(0, 1)) && Lookup(After(db, front + [Vacuum]), "a", "q") == None
  {
    var front: seq<Change<int, ()>> := [Upsert("a", [Sighting("p", 0)], 2, 1)];
    assert Lookup(db, "a", "q").value.generation == 1;
    assert front[0].slice == [Sighting("p", 0)][..1];
    VacuumAfterInterruption(db, front, "a", 2, "q");
    assert LastWrite(front, "p").Some?;
  }

  // ---------------------------------------------------------------------------------------------
  // The table itself

  /** `cache_index`, changed in place by the operations submitted to the writer. */
  class CacheIndex<E(==)> {
    var rows: map<Key, Row<E>>

    constructor (rows: map<Key, Row<E>>)
      ensures this.rows == rows
    {
      this.rows := rows;
    }

    /** `SELECT MAX(scan_generation)`, visiting the rows in any order. */
    method Generation(account: string) returns (generation: int)
      ensures IsGeneration(Tables(rows, ()), account, generation)
    {
      var found := None;
      var rest := rows.Keys;
      while rest != {}
        invariant rest <= rows.Keys
        invariant found.None? ==> forall key :: key in rows && key !in rest ==> key.account != account
        invariant found.Some? ==> forall key :: key in rows && key !in rest && key.account == account ==>
          rows[key].generation <= found.value
        invariant found.Some? ==>
          exists key :: key in rows && key.account == account && rows[key].generation == found.value
        decreases rest
      {
        var key :| key in rest;
        rest := rest - {key};
        if key.account == account && (found.None? || found.value < rows[key].generation) {
          found := Some(rows[key].generation);
        }
      }
      generation := if found.Some? then found.value else 0;
      GenerationFound(rows, account, found);
    }

    /** `executemany` of the upsert; it stops where a row fails. */
    method UpsertRows(account: string, slice: seq<Sighting<E>>, generation: int, reach: nat)
      returns (reply: Reply)
      modifies this
      ensures Perform(Upsert(account, slice, generation, reach), Tables(old(rows), ())) ==
              Effect(Tables(rows, ()), reply)
    {
      var i := 0;
      while i < |slice| && i < reach
        invariant 0 <= i <= |slice| && i <= reach
        invariant rows == WriteRows(old(rows), account, slice[..i], generation)
      {
        rows := rows[Key(account, slice[i].path) := Row(slice[i].entry, generation)];
        assert slice[..i + 1][..i] == slice[..i];
        i := i + 1;
      }
      assert slice[..|slice|] == slice;
      reply := if reach < |slice| then Error(OwnError(0)) else Value(|slice|);
    }

    /** `DELETE ... WHERE account_id = ? AND scan_generation <= ?`, row by row in any order. */
    method PruneGeneration(account: string, generation: int) returns (removed: nat)
      modifies this
      ensures Perform(Prune(account, generation), Tables(old(rows), ())) ==
              Effect(Tables(rows, ()), Value(removed))
    {
      removed := 0;
      var rest := rows.Keys;
      while rest != {}
        invariant rest <= rows.Keys <= old(rows).Keys
        invariant forall key :: key in rows ==> rows[key] == old(rows)[key]
        invariant forall key :: key in old(rows) && key !in rest ==>
          (key in rows <==> !(key.account == account && old(rows)[key].generation <= generation))
        invariant |rows| + removed == |old(rows)|
        decreases rest
      {
        var key :| key in rest;
        rest := rest - {key};
        if key.account == account && rows[key].generation <= generation {
          assert rows.Keys == (rows - {key}).Keys + {key};
          rows := rows - {key};
          removed := removed + 1;
        }
      }
      assert rows == map key | key in old(rows)
        && !(key.account == account && old(rows)[key].generation <= generation) :: old(rows)[key];
    }
  }

  lemma GenerationFound<E>(rows: map<Key, Row<E>>, account: string, found: Option<int>)
    requires found.None? ==> forall key :: key in rows ==> key.account != account
    requires found.Some? ==> forall key :: key in rows && key.account == account ==>
      rows[key].generation <= found.value
    requires found.Some? ==>
      exists key :: key in rows && key.account == account && rows[key].generation == found.value
    ensures IsGeneration(Tables(rows, ()), account, if found.Some? then found.value else 0)
  {
    var db := Tables(rows, ());
    if found.Some? {
      var key :| key in rows && key.account == account && rows[key].generation == found.value;
      assert key == Key(account, key.path);
      assert Lookup(db, account, key.path) == Some(rows[key]);
    }
  }
}
