/**
 A scan of `cache_index` run through the writer thread: the generation is read from the committed
 rows of some reachable state, slices and prune are submitted from there, and the thread batches
 them with whatever else is submitted, in any interleaving, some transactions failing.
 */
module ScanRuns {
  import opened Basics
  import opened WriterLog
  import opened WriterMachine
  import opened CacheScan

  // ---------------------------------------------------------------------------------------------
  // Picking the committed operations

  /** The elements that are marked, in order. */
  ghost function Pick<T>(xs: seq<T>, marks: seq<bool>): seq<T>
    requires |xs| == |marks|
  {
    if xs == [] then []
    else
      var n := |xs| - 1;
      Pick(xs[..n], marks[..n]) + if marks[n] then [xs[n]] else []
  }

  lemma {:induction false} PickConcat<T>(a: seq<T>, am: seq<bool>, b: seq<T>, bm: seq<bool>)
    requires |a| == |am| && |b| == |bm|
    ensures Pick(a + b, am + bm) == Pick(a, am) + Pick(b, bm)
    decreases |b|
  {
    if b == [] {
      assert a + b == a && am + bm == am;
    } else {
      var n := |b| - 1;
      PickConcat(a, am, b[..n], bm[..n]);
      assert (a + b)[..|a| + n] == a + b[..n] && (am + bm)[..|a| + n] == am + bm[..n];
    }
  }

  lemma {:induction false} PickUniform<T>(xs: seq<T>, marks: seq<bool>, mark: bool)
    requires |xs| == |marks| && forall i :: 0 <= i < |xs| ==> marks[i] == mark
    ensures Pick(xs, marks) == if mark then xs else []
  {
    if xs != [] {
      PickUniform(xs[..|xs| - 1], marks[..|xs| - 1], mark);
    }
  }

  lemma {:induction false} PickedIff<T>(xs: seq<T>, marks: seq<bool>, x: T)
    requires |xs| == |marks|
    ensures x in Pick(xs, marks) <==> exists i :: 0 <= i < |xs| && marks[i] && xs[i] == x
  {
    if xs != [] {
      var n := |xs| - 1;
      PickedIff(xs[..n], marks[..n], x);
      if i :| 0 <= i < |xs| && marks[i] && xs[i] == x && i < n {
        assert marks[..n][i] && xs[..n][i] == x;
      }
    }
  }

  lemma {:induction false} PickLabelled<E(!new), R(!new)>(
      ops: seq<Op<Tables<E, R>>>, changes: seq<Change<E, R>>, marks: seq<bool>)
    requires Labelled(ops, changes) && |ops| == |marks|
    ensures Labelled(Pick(ops, marks), Pick(changes, marks))
  {
    if ops != [] {
      var n := |ops| - 1;
      PickLabelled(ops[..n], changes[..n], marks[..n]);
      assert Does(ops[n], changes[n]);
    }
  }

  // ---------------------------------------------------------------------------------------------
  // Which operations of a history are committed

  ghost function FateMarks<Db>(history: seq<Batch<Db>>): (marks: seq<bool>)
    ensures |marks| == |SettledOps(history)|
  {
    if history == [] then []
    else
      var n := |history| - 1;
      FateMarks(history[..n]) + seq(|history[n].ops|, _ => history[n].fate.Committed?)
  }

  lemma {:induction false} CommittedArePicked<Db>(history: seq<Batch<Db>>)
    ensures CommittedOps(history) == Pick(SettledOps(history), FateMarks(history))
  {
    if history != [] {
      var n := |history| - 1;
      var last := seq(|history[n].ops|, _ => history[n].fate.Committed?);
      CommittedArePicked(history[..n]);
      PickConcat(SettledOps(history[..n]), FateMarks(history[..n]), history[n].ops, last);
      PickUniform(history[n].ops, last, history[n].fate.Committed?);
    }
  }

  lemma {:induction false} CommittedConcat<Db>(a: seq<Batch<Db>>, b: seq<Batch<Db>>)
    ensures CommittedOps(a + b) == CommittedOps(a) + CommittedOps(b)
    decreases |b|
  {
    if b == [] {
      assert a + b == a;
    } else {
      CommittedConcat(a, b[..|b| - 1]);
      assert (a + b)[..|a + b| - 1] == a + b[..|b| - 1];
    }
  }

  lemma {:induction false} FateConcat<Db>(a: seq<Batch<Db>>, b: seq<Batch<Db>>)
    ensures FateMarks(a + b) == FateMarks(a) + FateMarks(b)
    decreases |b|
  {
    if b == [] {
      assert a + b == a;
    } else {
      FateConcat(a, b[..|b| - 1]);
      assert (a + b)[..|a + b| - 1] == a + b[..|b| - 1];
    }
  }

  lemma {:induction false} AllMarked<Db>(history: seq<Batch<Db>>)
    requires forall i :: 0 <= i < |history| ==> history[i].fate.Committed?
    ensures forall i :: 0 <= i < |FateMarks(history)| ==> FateMarks(history)[i]
  {
    if history != [] {
      AllMarked(history[..|history| - 1]);
    }
  }

  // ---------------------------------------------------------------------------------------------
  // The operations a state has not settled yet, and what becomes of them

  /** How many operations had been settled. */
  ghost function Done<Db>(s: State<Db>): nat {
    |SettledOps(s.history)|
  }

  /** Of the operations not settled in `s`, the one at `i` is in a batch committed by `t`. */
  ghost predicate Took<Db>(s: State<Db>, t: State<Db>, i: nat) {
    Done(s) + i < |t.accepted| && t.accepted[Done(s) + i] in CommittedOps(t.history)
  }

  ghost function Marks<Db>(s: State<Db>, t: State<Db>, count: nat): (marks: seq<bool>)
    ensures |marks| == count && forall i :: 0 <= i < count ==> marks[i] == Took(s, t, i)
  {
    seq(count, i requires 0 <= i < count => Took(s, t, i))
  }

  /** Operations are numbered, so being among the committed ones is a matter of the place. */
  lemma CommittedByPlace<Db>(t: State<Db>, place: nat)
    requires Fifo(t) && place < |t.accepted|
    ensures t.accepted[place] in CommittedOps(t.history) <==>
            place < |SettledOps(t.history)| && FateMarks(t.history)[place]
  {
    var ops, marks, op := SettledOps(t.history), FateMarks(t.history), t.accepted[place];
    CommittedArePicked(t.history);
    assert ops == t.accepted[..|ops|];
    hide CommittedOps, SettledOps, FateMarks, Pick;
    PickedIff(ops, marks, op);
    if op in CommittedOps(t.history) {
      var j :| 0 <= j < |ops| && marks[j] && ops[j] == op;
      assert t.accepted[j].id == j && op.id == place;
    }
    if place < |ops| && marks[place] {
      assert ops[place] == op;
    }
  }

  lemma TookIsMarked<Db>(s: State<Db>, t: State<Db>, i: nat)
    requires Fifo(t) && s.history <= t.history
    ensures var since := t.history[|s.history|..];
      Took(s, t, i) <==> i < |SettledOps(since)| && FateMarks(since)[i]
  {
    hide CommittedOps, SettledOps, FateMarks;
    assert |SettledOps(t.history)| <= |t.accepted|;
    hide Fifo;
    var since := t.history[|s.history|..];
    assert t.history == s.history + since;
    SettledConcat(s.history, since);
    FateConcat(s.history, since);
    if Done(s) + i < |t.accepted| {
      CommittedByPlace(t, Done(s) + i);
    }
  }

  /** The operations not settled in `s` are those settled since, and then the others. */
  lemma PendingSplit<Db>(s: State<Db>, t: State<Db>)
    requires Fifo(t) && s.history <= t.history
    ensures Done(s) <= |t.accepted| && SettledOps(t.history[|s.history|..]) <= t.accepted[Done(s)..]
  {
    var since := t.history[|s.history|..];
    assert t.history == s.history + since;
    hide SettledOps;
    SettledConcat(s.history, since);
    assert SettledOps(t.history) == t.accepted[..Done(t)];
  }

  /** In submission order, the operations that took are those the batches since `s` committed. */
  lemma TookAreCommitted<Db>(s: State<Db>, t: State<Db>)
    requires Fifo(t) && s.history <= t.history
    ensures Done(s) <= |t.accepted|
    ensures var pending := t.accepted[Done(s)..];
      Pick(pending, Marks(s, t, |pending|)) == CommittedOps(t.history[|s.history|..])
  {
    hide Fifo, CommittedOps, SettledOps, FateMarks, Took, Pick;
    PendingSplit(s, t);
    var since := t.history[|s.history|..];
    var ops, pending := SettledOps(since), t.accepted[Done(s)..];
    assert pending == ops + pending[|ops|..];
    var marks := Marks(s, t, |pending|);
    forall i: nat | i < |pending|
      ensures marks[i] <==> i < |ops| && FateMarks(since)[i]
    {
      TookIsMarked(s, t, i);
    }
    CommittedArePicked(since);
    assert marks == FateMarks(since) + marks[|ops|..];
    PickConcat(ops, FateMarks(since), pending[|ops|..], marks[|ops|..]);
    PickUniform(pending[|ops|..], marks[|ops|..], false);
  }

  /** The database has since `s` had the work of these operations, and of no other. */
  lemma CommittedSince<Db>(db: Db, s: State<Db>, t: State<Db>)
    requires Ledger(db, s) && Ledger(db, t) && s.history <= t.history
    ensures t.db == DbAfter(s.db, CommittedOps(t.history[|s.history|..]))
  {
    var since := t.history[|s.history|..];
    assert t.history == s.history + since;
    CommittedConcat(s.history, since);
    ReplayIsSequential(db, s.history);
    ReplayIsSequential(db, t.history);
    DbAfterConcat(db, CommittedOps(s.history), CommittedOps(since));
  }

  // ---------------------------------------------------------------------------------------------
  // The scan

  /** What is submitted: slices, and once the scan is complete the prune; other work in between. */
  ghost function Plan<E, R>(
      front: seq<Change<E, R>>, back: seq<Change<E, R>>, account: string, n: int): seq<Change<E, R>> {
    front + [Prune(account, n - 1)] + back
  }

  /**
   A scan that claimed generation `n` from the committed rows of the reachable state `s`, up to the
   end of `run`: the operations not settled in `s` are a beginning of its plan.  With nothing queued
   or in flight in `s` these are the operations submitted since; otherwise the ones still pending in
   `s` belong to `front`, where they may only leave the account's index alone.
   */
  ghost predicate ScanRun<E(!new), R(!new)>(
      db: Tables<E, R>, s: State<Tables<E, R>>, run: seq<Event<Tables<E, R>>>,
      front: seq<Change<E, R>>, back: seq<Change<E, R>>, account: string, n: int) {
    && Inv(db, s) && Legal(s, run)
    && IsGeneration(s.db, account, n - 1)
    && OneScan(front, account, n) && AllKeep(back, account)
    && Follows(s, Run(s, run), Plan(front, back, account, n))
  }

  ghost predicate Follows<E(!new), R(!new)>(
      s: State<Tables<E, R>>, t: State<Tables<E, R>>, plan: seq<Change<E, R>>) {
    && Done(s) <= |t.accepted| <= Done(s) + |plan|
    && Labelled(t.accepted[Done(s)..], plan[..|t.accepted| - Done(s)])
  }

  lemma PlanApplied<E(!new), R(!new)>(
      s: State<Tables<E, R>>, t: State<Tables<E, R>>, plan: seq<Change<E, R>>)
    requires Fifo(t) && s.history <= t.history && Follows(s, t, plan)
    ensures Labelled(CommittedOps(t.history[|s.history|..]), Pick(plan, Marks(s, t, |plan|)))
  {
    hide Fifo, CommittedOps, SettledOps, Labelled, Does, Pick;
    TookAreCommitted(s, t);
    var pending := t.accepted[Done(s)..];
    var p := |pending|;
    PickLabelled(pending, plan[..p], Marks(s, t, p));
    assert plan == plan[..p] + plan[p..];
    assert Marks(s, t, |plan|) == Marks(s, t, p) + Marks(s, t, |plan|)[p..];
    PickConcat(plan[..p], Marks(s, t, p), plan[p..], Marks(s, t, |plan|)[p..]);
    PickUniform(plan[p..], Marks(s, t, |plan|)[p..], false);
    assert Pick(plan, Marks(s, t, |plan|)) == Pick(plan[..p], Marks(s, t, p));
  }

  /** The slices among `front` that are in a batch committed by `t`, with what is between them. */
  ghost function Landed<E, R>(
      s: State<Tables<E, R>>, t: State<Tables<E, R>>, front: seq<Change<E, R>>): seq<Change<E, R>> {
    Pick(front, Marks(s, t, |front|))
  }

  lemma {:induction false} PlanPicked<E, R>(
      front: seq<Change<E, R>>, prune: Change<E, R>, back: seq<Change<E, R>>, marks: seq<bool>)
    requires |marks| == |front| + 1 + |back|
    ensures Pick(front + [prune] + back, marks) ==
            Pick(front, marks[..|front|]) + (if marks[|front|] then [prune] else [])
            + Pick(back, marks[|front| + 1..])
  {
    hide Pick;
    var f := |front|;
    var first, middle, last := marks[..f], [marks[f]], marks[f + 1..];
    MarksInThree(marks, f);
    calc {
      Pick(front + [prune] + back, marks);
      Pick(front + [prune] + back, first + middle + last);
    == { PickConcat(front + [prune], first + middle, back, last); }
      Pick(front + [prune], first + middle) + Pick(back, last);
    == { PickConcat(front, first, [prune], middle); }
      Pick(front, first) + Pick([prune], middle) + Pick(back, last);
    == { PickOne(prune, marks[f]); }
      Pick(front, first) + (if marks[f] then [prune] else []) + Pick(back, last);
    }
  }

  lemma {:induction false} MarksInThree(marks: seq<bool>, f: nat)
    requires f < |marks|
    ensures marks[..f] + [marks[f]] + marks[f + 1..] == marks
  {
  }

  lemma PickOne<T>(x: T, mark: bool)
    ensures Pick([x], [mark]) == if mark then [x] else []
  {
    assert Pick([x][..0], [mark][..0]) == [];
  }

  lemma {:induction false} PickedScan<E(!new), R(!new)>(
      changes: seq<Change<E, R>>, marks: seq<bool>, account: string, n: int)
    requires OneScan(changes, account, n) && |marks| == |changes|
    ensures OneScan(Pick(changes, marks), account, n)
  {
    if changes != [] {
      PickedScan(changes[..|changes| - 1], marks[..|changes| - 1], account, n);
    }
  }

  lemma {:induction false} PickedKeep<E(!new), R(!new)>(
      changes: seq<Change<E, R>>, marks: seq<bool>, account: string)
    requires AllKeep(changes, account) && |marks| == |changes|
    ensures AllKeep(Pick(changes, marks), account)
  {
    if changes != [] {
      PickedKeep(changes[..|changes| - 1], marks[..|changes| - 1], account);
    }
  }

  lemma ScanRunApplied<E(!new), R(!new)>(
      db: Tables<E, R>, s: State<Tables<E, R>>, run: seq<Event<Tables<E, R>>>,
      front: seq<Change<E, R>>, back: seq<Change<E, R>>, account: string, n: int)
      returns (rest: seq<Change<E, R>>)
    requires ScanRun(db, s, run, front, back, account, n)
    ensures var t := Run(s, run);
      && AllKeep(rest, account) && OneScan(Landed(s, t, front), account, n)
      && t.db == After(s.db, Landed(s, t, front)
                             + (if Took(s, t, |front|) then [Prune(account, n - 1)] else []) + rest)
  {
    var t := Run(s, run);
    var plan := Plan(front, back, account, n);
    hide Pick, After, Took, SettledOps, CommittedOps;
    AcceptedGrows(db, s, run);
    LogGrows(db, s, run);
    hide Legal, Run, IsGeneration, Counters, Shapes, Shutdown, Follows, Labelled, OneScan, AllKeep, Fifo, Ledger;
    CommittedSince(db, s, t);
    PlanApplied(s, t, plan);
    var marks := Marks(s, t, |plan|);
    LogIsChanges(s.db, CommittedOps(t.history[|s.history|..]), Pick(plan, marks));
    PlanPicked(front, Prune(account, n - 1), back, marks);
    assert marks[..|front|] == Marks(s, t, |front|);
    PickedScan(front, marks[..|front|], account, n);
    PickedKeep(back, marks[|front| + 1..], account);
    rest := Pick(back, marks[|front| + 1..]);
  }

  lemma AfterPlan<E(!new), R(!new)>(
      db: Tables<E, R>, landed: seq<Change<E, R>>, pruned: bool, rest: seq<Change<E, R>>,
      account: string, n: int, path: string)
    requires IsGeneration(db, account, n - 1)
    requires OneScan(landed, account, n) && AllKeep(rest, account)
    ensures var changes := landed + (if pruned then [Prune(account, n - 1)] else []) + rest;
      var written := LastWrite(landed, path);
      Lookup(After(db, changes), account, path) ==
        if written.Some? then written else if pruned then None else Lookup(db, account, path)
  {
    LastWriteGeneration(landed, account, n, path);
    hide After, Perform, LastWrite, AllKeep, IsGeneration;
    if pruned {
      PruneKeepsNewer(db, landed, rest, account, n - 1, path);
    } else {
      assert landed + [] + rest == landed + rest;
      AfterConcat(db, landed, rest);
      KeptRun(After(db, landed), rest, account, path);
      SlicesOverlay(db, landed, account, path);
    }
  }

  /**
   Every committed snapshot, whatever has failed: a path holds the last row that a committed slice
   wrote there; without one, nothing once the prune has committed, and until then its old row.
   */
  lemma EverySnapshot<E(!new), R(!new)>(
      db: Tables<E, R>, s: State<Tables<E, R>>, run: seq<Event<Tables<E, R>>>,
      front: seq<Change<E, R>>, back: seq<Change<E, R>>, account: string, n: int, path: string)
    requires ScanRun(db, s, run, front, back, account, n)
    ensures var t := Run(s, run);
      var written := LastWrite(Landed(s, t, front), path);
      Lookup(t.db, account, path) ==
        if written.Some? then written
        else if Took(s, t, |front|) then None
        else Lookup(s.db, account, path)
  {
    var rest := ScanRunApplied(db, s, run, front, back, account, n);
    hide Inv, Legal, Run, Follows, Landed, Took, OneScan, AllKeep, After, LastWrite, IsGeneration;
    var t := Run(s, run);
    AfterPlan(s.db, Landed(s, t, front), Took(s, t, |front|), rest, account, n, path);
  }

  // ---------------------------------------------------------------------------------------------
  // What the scan promises

  ghost predicate AllCommitted<Db>(s: State<Db>, t: State<Db>) {
    forall i :: |s.history| <= i < |t.history| ==> t.history[i].fate.Committed?
  }

  /** With no transaction failed, a committed prune has every slice committed before it. */
  lemma FrontLanded<E(!new), R(!new)>(
      s: State<Tables<E, R>>, t: State<Tables<E, R>>, front: seq<Change<E, R>>)
    requires Fifo(t) && s.history <= t.history && AllCommitted(s, t) && Took(s, t, |front|)
    ensures Landed(s, t, front) == front
  {
    hide Fifo, Took, SettledOps, FateMarks, Pick;
    AllMarked(t.history[|s.history|..]);
    forall i: nat | i <= |front|
      ensures Took(s, t, i) <==> i < |SettledOps(t.history[|s.history|..])|
    {
      TookIsMarked(s, t, i);
    }
    PickUniform(front, Marks(s, t, |front|), true);
  }

  lemma LandedIsSeen<E, R>(
      s: State<Tables<E, R>>, t: State<Tables<E, R>>, front: seq<Change<E, R>>, path: string, entry: E)
    requires SeenAs(Landed(s, t, front), path, entry)
    ensures SeenAs(front, path, entry)
  {
    var landed := Landed(s, t, front);
    var i, j :| 0 <= i < |landed| && landed[i].Upsert? && 0 <= j < |landed[i].slice|
                && landed[i].slice[j] == Sighting(path, entry);
    PickedIff(front, Marks(s, t, |front|), landed[i]);
    var k :| 0 <= k < |front| && front[k] == landed[i];
    assert front[k].slice[j] == Sighting(path, entry);
  }

  ghost predicate OldOrSeen<E, R>(
      old0: Option<Row<E>>, now: Option<Row<E>>, front: seq<Change<E, R>>, n: int, path: string) {
    now == old0 || (now.Some? && now.value.generation == n && SeenAs(front, path, now.value.entry))
  }

  /**
   Nothing is lost before the prune, whatever fails and wherever the scan stops: in every committed
   snapshot a path has its old row or one the scan saw.
   */
  lemma InterruptedLosesNothing<E(!new), R(!new)>(
      db: Tables<E, R>, s: State<Tables<E, R>>, run: seq<Event<Tables<E, R>>>,
      front: seq<Change<E, R>>, back: seq<Change<E, R>>, account: string, n: int, path: string)
    requires ScanRun(db, s, run, front, back, account, n) && !Took(s, Run(s, run), |front|)
    ensures OldOrSeen(Lookup(s.db, account, path), Lookup(Run(s, run).db, account, path), front, n, path)
  {
    EverySnapshot(db, s, run, front, back, account, n, path);
    LandedWrite(db, s, run, front, back, account, n, path);
  }

  lemma LandedWrite<E(!new), R(!new)>(
      db: Tables<E, R>, s: State<Tables<E, R>>, run: seq<Event<Tables<E, R>>>,
      front: seq<Change<E, R>>, back: seq<Change<E, R>>, account: string, n: int, path: string)
    requires ScanRun(db, s, run, front, back, account, n)
    ensures var written := LastWrite(Landed(s, Run(s, run), front), path);
      written.Some? ==> written.value.generation == n && SeenAs(front, path, written.value.entry)
  {
    var rest := ScanRunApplied(db, s, run, front, back, account, n);
    var landed := Landed(s, Run(s, run), front);
    hide ScanRun, OneScan, AllKeep, After, Landed, SeenAs;
    LastWriteGeneration(landed, account, n, path);
    WriteIsSeen(landed, path);
    var written := LastWrite(landed, path);
    if written.Some? {
      LandedIsSeen(s, Run(s, run), front, path, written.value.entry);
    }
  }

  /**
   Once the prune has committed, a path has a row exactly when one of the scan's writes for it stands
   in a committed transaction and took effect; and the row is one the scan saw.
   */
  lemma RowIffWriteCommitted<E(!new), R(!new)>(
      db: Tables<E, R>, s: State<Tables<E, R>>, run: seq<Event<Tables<E, R>>>,
      front: seq<Change<E, R>>, back: seq<Change<E, R>>, account: string, n: int, path: string)
    requires ScanRun(db, s, run, front, back, account, n) && Took(s, Run(s, run), |front|)
    ensures var t := Run(s, run);
      var row := Lookup(t.db, account, path);
      && (row.Some? <==> exists i :: 0 <= i < |front| && Took(s, t, i) && Writes(front[i], path))
      && (row.Some? ==> row.value.generation == n && SeenAs(front, path, row.value.entry))
  {
    var t := Run(s, run);
    EverySnapshot(db, s, run, front, back, account, n, path);
    LandedWrite(db, s, run, front, back, account, n, path);
    LandedWrites(s, t, front, path);
  }

  lemma LandedWrites<E, R>(
      s: State<Tables<E, R>>, t: State<Tables<E, R>>, front: seq<Change<E, R>>, path: string)
    ensures LastWrite(Landed(s, t, front), path).Some? <==>
            exists i :: 0 <= i < |front| && Took(s, t, i) && Writes(front[i], path)
  {
    var landed, marks := Landed(s, t, front), Marks(s, t, |front|);
    TookEffect(landed, path);
    hide LastWrite, Pick, Took, Writes;
    if i :| 0 <= i < |landed| && Writes(landed[i], path) {
      PickedIff(front, marks, landed[i]);
      assert landed[i] in landed;
      var k :| 0 <= k < |front| && marks[k] && front[k] == landed[i];
      assert Took(s, t, k) && Writes(front[k], path);
    }
    if k :| 0 <= k < |front| && Took(s, t, k) && Writes(front[k], path) {
      PickedIff(front, marks, front[k]);
      assert marks[k];
      var i :| 0 <= i < |landed| && landed[i] == front[k];
      assert Writes(landed[i], path);
    }
  }

  /**
   With no transaction failed and no row refused, the finished scan has left exactly the paths it
   saw.
   */
  lemma CompletedScanIsExact<E(!new), R(!new)>(
      db: Tables<E, R>, s: State<Tables<E, R>>, run: seq<Event<Tables<E, R>>>,
      front: seq<Change<E, R>>, back: seq<Change<E, R>>, account: string, n: int, path: string)
    requires ScanRun(db, s, run, front, back, account, n) && Took(s, Run(s, run), |front|)
    requires AllCommitted(s, Run(s, run)) && NoneFails(front)
    ensures var row := Lookup(Run(s, run).db, account, path);
      && (row.Some? <==> Seen(front, path))
      && (row.Some? ==> row.value.generation == n && SeenAs(front, path, row.value.entry))
  {
    AcceptedGrows(db, s, run);
    LogGrows(db, s, run);
    EverySnapshot(db, s, run, front, back, account, n, path);
    LandedWrite(db, s, run, front, back, account, n, path);
    FrontLanded(s, Run(s, run), front);
    WrittenIffSeen(front, path);
  }

  /**
   And at no time, before the prune or after it, is a path that was indexed and seen missing from
   the committed rows.
   */
  lemma ScanLosesNothing<E(!new), R(!new)>(
      db: Tables<E, R>, s: State<Tables<E, R>>, run: seq<Event<Tables<E, R>>>,
      front: seq<Change<E, R>>, back: seq<Change<E, R>>, account: string, n: int, path: string)
    requires ScanRun(db, s, run, front, back, account, n)
    requires AllCommitted(s, Run(s, run)) && NoneFails(front)
    requires Lookup(s.db, account, path).Some? && Seen(front, path)
    ensures var now := Lookup(Run(s, run).db, account, path);
      now.Some? && OldOrSeen(Lookup(s.db, account, path), now, front, n, path)
  {
    if Took(s, Run(s, run), |front|) {
      CompletedScanIsExact(db, s, run, front, back, account, n, path);
    } else {
      InterruptedLosesNothing(db, s, run, front, back, account, n, path);
    }
  }

  /** One change is submitted to an idle writer and settled by a transaction of its own. */
  lemma Attempt<E(!new), R(!new)>(
      s: State<Tables<E, R>>, run: seq<Event<Tables<E, R>>>, change: Change<E, R>, commits: bool)
      returns (longer: seq<Event<Tables<E, R>>>, op: Op<Tables<E, R>>)
    requires Legal(s, run)
    requires var t := Run(s, run); t.phase.Idle? && t.queue == [] && !t.stopping
    ensures Legal(s, longer) && Does(op, change)
    ensures var t, u := Run(s, run), Run(s, longer);
      && u.phase.Idle? && u.queue == [] && !u.stopping && u.accepted == t.accepted + [op]
      && u.history == t.history + [Batch([op], if commits then Committed else RolledBack)]
      && u.db == if commits then Perform(change, t.db).db else t.db
  {
    hide Legal, Run, Perform;
    var fn := d => Perform(change, d);
    var t := Run(s, run);
    op := Op(|t.accepted|, false, fn);
    longer := Extend(s, run, Submit(false, fn));
    longer := Extend(s, longer, Get);
    longer := Extend(s, longer, CloseWindow);
    longer := Extend(s, longer, Begin);
    longer := Extend(s, longer, RunNext);
    longer := Extend(s, longer, if commits then Commit else CommitFails);
  }

  function OneRow(): Tables<int, ()> {
    Tables(map[Key("a", "p") := Row(0, 1)], ())
  }

  function OneSlice(): Change<int, ()> {
    Upsert("a", [Sighting("p", 0)], 2, 1)
  }

  lemma OneRowScan()
    ensures IsGeneration(OneRow(), "a", 1) && Lookup(OneRow(), "a", "p") == Some(Row(0, 1))
    ensures OneScan([OneSlice()], "a", 2) && NoneFails([OneSlice()]) && Seen([OneSlice()], "p")
    ensures Lookup(Perform(Prune("a", 1), OneRow()).db, "a", "p") == None
  {
    assert Lookup(OneRow(), "a", "p").value.generation == 1;
    assert [OneSlice()][0].slice[0].path == "p";
  }

  lemma TwoFollow<E(!new), R(!new)>(
      s: State<Tables<E, R>>, t: State<Tables<E, R>>, op0: Op<Tables<E, R>>, op1: Op<Tables<E, R>>,
      change: Change<E, R>, account: string, n: int)
    requires Done(s) == 0 && t.accepted == [op0] + [op1]
    requires Does(op0, change) && Does(op1, Prune(account, n - 1))
    ensures Follows(s, t, Plan([change], [], account, n))
  {
    hide Does;
    assert t.accepted[0..] == [op0, op1];
    assert Plan([change], [], account, n)[..2] == [change, Prune(account, n - 1)];
  }

  /** A slice whose COMMIT fails, and then the prune. */
  lemma LostSlice<E(!new), R(!new)>(db: Tables<E, R>, change: Change<E, R>, account: string, n: int)
      returns (run: seq<Event<Tables<E, R>>>)
    ensures Legal(Init(db), run) && Follows(Init(db), Run(Init(db), run), Plan([change], [], account, n))
    ensures Run(Init(db), run).db == Perform(Prune(account, n - 1), db).db
  {
    hide Does, Perform, Legal, Run;
    var s := Init(db);
    RunNothing(s);
    var first, op0 := Attempt(s, [], change, false);
    var all, op1 := Attempt(s, first, Prune(account, n - 1), true);
    run := all;
    hide Follows;
    TwoFollow(s, Run(s, run), op0, op1, change, account, n);
  }

  lemma RunNothing<Db>(s: State<Db>)
    ensures Legal(s, []) && Run(s, []) == s
  {
  }

  /**
   With a failed transaction the promise fails: a scan sees the one indexed path, the COMMIT of its
   slice fails, the prune commits, and the row is gone.
   */
  lemma RolledBackSliceLosesRow() returns (run: seq<Event<Tables<int, ()>>>)
    ensures ScanRun(OneRow(), Init(OneRow()), run, [OneSlice()], [], "a", 2)
    ensures NoneFails([OneSlice()]) && Seen([OneSlice()], "p")
    ensures Lookup(OneRow(), "a", "p") == Some(Row(0, 1))
    ensures Lookup(Run(Init(OneRow()), run).db, "a", "p") == None
  {
    hide Does, Inv, Perform, Follows, Legal, Run, IsGeneration, OneScan, NoneFails, Seen, OneRow, OneSlice, Lookup;
    OneRowScan();
    RunNothing(Init(OneRow()));
    RefinesLog(OneRow(), []);
    run := LostSlice(OneRow(), OneSlice(), "a", 2);
  }
}
