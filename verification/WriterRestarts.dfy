/**
 The lives of the writer thread of onedriveui/data/writer.py: `start_writer` starts it again on the
 queue it left, `submit` does so when it is not running, and `stop` on a thread that is not running
 only sets its flag.
 */
module WriterRestarts {
  import opened WriterLog
  import opened WriterMachine

  /** The writer, and how many `stop` calls that saw its thread running have yet to put their sentinel. */
  datatype Life<!Db> = Life(s: State<Db>, owed: nat)

  function Start<Db>(db: Db): Life<Db> {
    Life(Init(db), 0)
  }

  /** `start_writer` on a writer whose thread has exited: the queue is kept as it is. */
  function Restarted<Db>(s: State<Db>): State<Db> {
    s.(stopping := false, phase := Idle)
  }

  datatype Call<!Db> =
    | Act(event: Event<Db>)                              // of the thread, or on a running one
    | PayStop                                            // the second half of a `stop`
    | StartWriter
    | SubmitStarts(urgent: bool, fn: Db -> Effect<Db>)   // `submit` without a running thread
    | StopIdle                                           // `stop` that saw no running thread

  /**
   `stop` looks whether the thread runs before it sets the flag: the thread may have exited, or have
   been started, in between.
   */
  ghost predicate Can<Db>(l: Life<Db>, c: Call<Db>) {
    match c
    case Act(e) => Enabled(l.s, e) && !e.PutSentinel?
    case PayStop => l.owed > 0
    case StartWriter => l.s.phase.Exited?
    case StopIdle => true
    case SubmitStarts(_, _) => l.s.phase.Exited? && !l.s.stopping
  }

  ghost function Do<Db>(l: Life<Db>, c: Call<Db>): Life<Db>
    requires Can(l, c)
  {
    match c
    case Act(e) => Life(Step(l.s, e), if e.RequestStop? then l.owed + 1 else l.owed)
    case PayStop => Life(l.s.(queue := l.s.queue + [Sentinel]), l.owed - 1)
    case StartWriter => l.(s := Restarted(l.s))
    case SubmitStarts(urgent, fn) => l.(s := Step(Restarted(l.s), Submit(urgent, fn)))
    case StopIdle => l.(s := l.s.(stopping := true))
  }

  ghost predicate Possible<Db>(l: Life<Db>, calls: seq<Call<Db>>)
    decreases |calls|, 0
  {
    calls == [] || (Possible(l, calls[..|calls| - 1]) && Can(After(l, calls[..|calls| - 1]), calls[|calls| - 1]))
  }

  ghost function After<Db>(l: Life<Db>, calls: seq<Call<Db>>): Life<Db>
    requires Possible(l, calls)
    decreases |calls|, 1
  {
    if calls == [] then l else Do(After(l, calls[..|calls| - 1]), calls[|calls| - 1])
  }

  // ---------------------------------------------------------------------------------------------
  // Over all lives

  /** Order, database, replies and counters, whatever the queue holds besides. */
  ghost predicate Kept<Db>(db: Db, s: State<Db>) {
    Fifo(s) && Ledger(db, s) && Counters(s)
  }

  lemma {:induction false} KeptCall<Db>(db: Db, l: Life<Db>, c: Call<Db>)
    requires Kept(db, l.s) && Can(l, c)
    ensures Kept(db, Do(l, c).s)
  {
    hide Kept, Step, Enabled;
    match c {
      case Act(e) => KeptStep(db, l.s, e);
      case SubmitStarts(urgent, fn) =>
        KeptIdle(db, l.s);
        FreshAccepts(l.s, urgent, fn);
        KeptStep(db, Restarted(l.s), Submit(urgent, fn));
      case PayStop => KeptSentinel(db, l.s);
      case StartWriter => KeptIdle(db, l.s);
      case StopIdle => KeptFlagged(db, l.s);
    }
  }

  lemma {:induction false} KeptSentinel<Db>(db: Db, s: State<Db>)
    requires Kept(db, s)
    ensures Kept(db, s.(queue := s.queue + [Sentinel]))
  {
    QueuedConcat(s.queue, [Sentinel]);
  }

  lemma {:induction false} KeptIdle<Db>(db: Db, s: State<Db>)
    requires Kept(db, s) && s.phase.Exited?
    ensures Kept(db, Restarted(s))
  {
  }

  lemma {:induction false} KeptFlagged<Db>(db: Db, s: State<Db>)
    requires Kept(db, s)
    ensures Kept(db, s.(stopping := true))
  {
  }

  lemma {:induction false} FreshAccepts<Db>(s: State<Db>, urgent: bool, fn: Db -> Effect<Db>)
    ensures Enabled(Restarted(s), Submit(urgent, fn))
  {
  }

  lemma {:induction false} KeptStep<Db>(db: Db, s: State<Db>, e: Event<Db>)
    requires Kept(db, s) && Enabled(s, e)
    ensures Kept(db, Step(s, e))
  {
    hide Step, Enabled;
    FifoStep(s, e);
    LedgerStep(db, s, e);
    CountersStep(s, e);
  }

  /** However often the thread is stopped and started, it follows one sequential log. */
  lemma {:induction false} EveryLife<Db>(db: Db, l: Life<Db>, calls: seq<Call<Db>>)
    requires Kept(db, l.s) && Possible(l, calls)
    ensures Kept(db, After(l, calls).s)
    decreases |calls|
  {
    hide Kept;
    if calls != [] {
      EveryLife(db, l, calls[..|calls| - 1]);
      KeptCall(db, After(l, calls[..|calls| - 1]), calls[|calls| - 1]);
    }
  }

  lemma {:induction false} StartIsKept<Db>(db: Db)
    ensures Kept(db, Start(db).s)
  {
  }

  // ---------------------------------------------------------------------------------------------
  // One life, from a start to the next exit

  /** The thread has left an accepted operation in the queue behind it. */
  predicate LeftBehind<Db>(s: State<Db>) {
    s.phase.Exited? && exists i :: 0 <= i < |s.queue| && s.queue[i].Work?
  }

  predicate HoldsSentinel<Db>(queue: seq<Msg<Db>>) {
    exists i :: 0 <= i < |queue| && queue[i].Sentinel?
  }

  /** Nobody starts the thread anew. */
  predicate OneLife<Db>(calls: seq<Call<Db>>) {
    forall i :: 0 <= i < |calls| ==> calls[i].Act? || calls[i].PayStop? || calls[i].StopIdle?
  }

  ghost predicate SafeLife<Db(!new)>(l: Life<Db>) {
    forall calls: seq<Call<Db>> :: Possible(l, calls) && OneLife(calls) ==> !LeftBehind(After(l, calls).s)
  }

  /** Every stop that still owes its sentinel has set the flag. */
  ghost predicate Orderly<Db>(l: Life<Db>) {
    Fifo(l.s) && Shutdown(l.s) && (l.owed > 0 ==> l.s.stopping)
  }

  lemma {:induction false} OrderlyCall<Db>(l: Life<Db>, c: Call<Db>)
    requires Orderly(l) && Can(l, c) && (c.Act? || c.PayStop? || c.StopIdle?)
    ensures Orderly(Do(l, c))
  {
    match c {
      case Act(e) =>
        FifoStep(l.s, e);
        ShutdownStep(l.s, e);
        FlagStays(l.s, e);
      case PayStop =>
        FifoStep(l.s, PutSentinel);
        ShutdownStep(l.s, PutSentinel);
      case StopIdle =>
        FifoStep(l.s, RequestStop);
        ShutdownStep(l.s, RequestStop);
    }
  }

  lemma {:induction false} FlagStays<Db>(s: State<Db>, e: Event<Db>)
    requires Enabled(s, e)
    ensures s.stopping ==> Step(s, e).stopping
    ensures e.RequestStop? ==> Step(s, e).stopping
  {
  }

  lemma {:induction false} OrderlyLife<Db>(l: Life<Db>, calls: seq<Call<Db>>)
    requires Orderly(l) && Possible(l, calls) && OneLife(calls)
    ensures Orderly(After(l, calls))
    decreases |calls|
  {
    hide Orderly;
    if calls != [] {
      OrderlyLife(l, calls[..|calls| - 1]);
      OrderlyCall(After(l, calls[..|calls| - 1]), calls[|calls| - 1]);
    }
  }

  lemma {:induction false} LifeSafeIff<Db(!new)>(db: Db, l: Life<Db>)
    requires Kept(db, l.s) && l.s.phase.Idle? && !l.s.stopping
    ensures SafeLife(l) <==> !HoldsSentinel(l.s.queue) && l.owed == 0
  {
    if !HoldsSentinel(l.s.queue) && l.owed == 0 {
      assert Orderly(l);
      forall calls: seq<Call<Db>> | Possible(l, calls) && OneLife(calls)
        ensures !LeftBehind(After(l, calls).s)
      {
        OrderlyLife(l, calls);
        OnlySentinels(After(l, calls).s.queue);
      }
    } else {
      var calls := UnsafeLife(l);
    }
  }

  /**
   A thread that is started again, by `start_writer` or by `submit`, leaves no accepted operation behind
   in that life, whatever is called, exactly when its queue holds no sentinel and no earlier stop still
   owes one.  With one it drains and leaves while `submit` still takes it for running, because nobody
   has set the flag.
   */
  lemma {:induction false} RestartSafeIff<Db(!new)>(db: Db, l: Life<Db>, urgent: bool, fn: Db -> Effect<Db>)
    requires Kept(db, l.s) && l.s.phase.Exited?
    ensures SafeLife(Do(l, StartWriter)) <==> !HoldsSentinel(l.s.queue) && l.owed == 0
    ensures !l.s.stopping ==>
      (SafeLife(Do(l, SubmitStarts(urgent, fn))) <==> !HoldsSentinel(l.s.queue) && l.owed == 0)
  {
    hide Kept, SafeLife;
    KeptCall(db, l, StartWriter);
    LifeSafeIff(db, Do(l, StartWriter));
    if !l.s.stopping {
      var started := Do(l, SubmitStarts(urgent, fn));
      KeptCall(db, l, SubmitStarts(urgent, fn));
      LifeSafeIff(db, started);
      assert started.s.queue == l.s.queue + [Work(Op(|l.s.accepted|, urgent, fn))];
      assert forall i :: 0 <= i < |l.s.queue| ==> started.s.queue[i] == l.s.queue[i];
    }
  }

  lemma {:induction false} UnsafeLife<Db>(l: Life<Db>) returns (calls: seq<Call<Db>>)
    requires l.s.phase.Idle? && !l.s.stopping && (HoldsSentinel(l.s.queue) || l.owed > 0)
    ensures Possible(l, calls) && OneLife(calls) && LeftBehind(After(l, calls).s)
  {
    hide LeftBehind, Possible, After;
    if HoldsSentinel(l.s.queue) {
      var run := SentinelThenLeave(l.s);
      ActsAreRuns(l, run);
      calls := Acts(run);
    } else {
      var paid := Do(l, PayStop);
      assert paid.s.queue[|l.s.queue|].Sentinel?;
      var run := SentinelThenLeave(paid.s);
      ActsAreRuns(paid, run);
      CallsCons(l, PayStop, Acts(run));
      calls := [PayStop] + Acts(run);
    }
  }

  /** Of a thread and its producers, without `stop`. */
  predicate NoStops<Db>(run: seq<Event<Db>>) {
    forall i :: 0 <= i < |run| ==> !run[i].RequestStop? && !run[i].PutSentinel?
  }

  /** From an idle thread with a sentinel nobody announced: refuse what is before it, drain, and leave. */
  lemma {:induction false} SentinelThenLeave<Db>(s: State<Db>) returns (run: seq<Event<Db>>)
    requires s.phase.Idle? && !s.stopping && HoldsSentinel(s.queue)
    ensures Legal(s, run) && LeftBehind(Run(s, run)) && NoStops(run)
    decreases |s.queue|
  {
    hide Legal, Run, LeftBehind;
    var t := Step(s, Get);
    if s.queue[0].Sentinel? {
      var rest := DrainThenLeave(t);
      RunCons(s, Get, rest);
      run := [Get] + rest;
    } else {
      var i :| 0 <= i < |s.queue| && s.queue[i].Sentinel?;
      assert s.queue[1..][i - 1].Sentinel?;
      if t.phase.Gathering? {
        var u := Step(t, CloseWindow);
        var rest := SentinelThenLeave(Step(u, BeginFails));
        RunCons(u, BeginFails, rest);
        RunCons(t, CloseWindow, [BeginFails] + rest);
        RunCons(s, Get, [CloseWindow] + ([BeginFails] + rest));
        run := [Get] + ([CloseWindow] + ([BeginFails] + rest));
      } else {
        var rest := SentinelThenLeave(Step(t, BeginFails));
        RunCons(t, BeginFails, rest);
        RunCons(s, Get, [BeginFails] + rest);
        run := [Get] + ([BeginFails] + rest);
      }
    }
  }

  /** A drain that nobody asked for ends with an operation accepted and not taken. */
  lemma {:induction false} DrainThenLeave<Db>(s: State<Db>) returns (run: seq<Event<Db>>)
    requires s.phase.Draining? && !s.stopping
    ensures Legal(s, run) && LeftBehind(Run(s, run)) && NoStops(run)
    decreases |s.queue|
  {
    if s.queue == [] {
      run := LeaveOne(s);
    } else {
      hide Legal, Run, LeftBehind;
      var rest := DrainThenLeave(Step(s, DrainGet));
      RunCons(s, DrainGet, rest);
      run := [DrainGet] + rest;
    }
  }

  lemma {:induction false} LeaveOne<Db>(s: State<Db>) returns (run: seq<Event<Db>>)
    requires s.phase.Draining? && !s.stopping && s.queue == []
    ensures Legal(s, run) && LeftBehind(Run(s, run)) && NoStops(run)
  {
    hide Legal, Run;
    NothingRun(s);
    var fn := d => Effect(d, Value(0));
    run := Extend(s, [], Submit(false, fn));
    run := Extend(s, run, DrainGet);
    run := Extend(s, run, DrainEnds);
    run := Extend(s, run, Submit(false, fn));
    run := Extend(s, run, BeginFails);
    assert Run(s, run).queue[0].Work?;
  }

  lemma {:induction false} NothingRun<Db>(s: State<Db>)
    ensures Legal(s, []) && Run(s, []) == s
  {
  }

  /** `stop` sets the flag first and puts its sentinel second: the thread can leave in between. */
  lemma {:induction false} StaleSentinelReachable<Db>(db: Db) returns (calls: seq<Call<Db>>)
    ensures Possible(Start(db), calls)
    ensures var l := After(Start(db), calls); l.s.phase.Exited? && l.s.queue == [Sentinel] && l.owed == 0
  {
    calls := OwedSentinelReachable(db);
    calls := More(Start(db), calls, PayStop);
  }

  /** The same with the sentinel still owed: the queue is empty, and a new life is not safe. */
  lemma {:induction false} OwedSentinelReachable<Db>(db: Db) returns (calls: seq<Call<Db>>)
    ensures Possible(Start(db), calls)
    ensures var l := After(Start(db), calls); l.s.phase.Exited? && l.s.queue == [] && l.owed == 1
  {
    var l := Start(db);
    NothingCalled(l);
    QuietEnd(l.s);
    hide Possible, After, Enabled, Step;
    var asked := l.s.(stopping := true);
    calls := More(l, [], Act(RequestStop));
    assert After(l, calls) == Life(asked, 1);
    calls := More(l, calls, Act(GetTimesOut));
    assert After(l, calls) == Life(asked.(phase := TimedOut), 1);
    calls := More(l, calls, Act(CheckStop));
    assert After(l, calls) == Life(asked.(phase := Draining([])), 1);
    calls := More(l, calls, Act(DrainEnds));
    assert After(l, calls) == Life(asked.(phase := Exited), 1);
  }

  /** The four steps by which a thread with nothing to do leaves. */
  lemma {:induction false} QuietEnd<Db>(s: State<Db>)
    requires s.queue == [] && s.phase.Idle?
    ensures Enabled(s, RequestStop) && Step(s, RequestStop) == s.(stopping := true)
    ensures var asked := s.(stopping := true);
      var timedOut, draining := asked.(phase := TimedOut), asked.(phase := Draining([]));
      && Enabled(asked, GetTimesOut) && Step(asked, GetTimesOut) == timedOut
      && Enabled(timedOut, CheckStop) && Step(timedOut, CheckStop) == draining
      && Enabled(draining, DrainEnds) && Step(draining, DrainEnds) == asked.(phase := Exited)
  {
  }

  lemma {:induction false} NothingCalled<Db>(l: Life<Db>)
    ensures Possible(l, []) && After(l, []) == l
  {
  }

  lemma {:induction false} More<Db>(l: Life<Db>, calls: seq<Call<Db>>, c: Call<Db>) returns (longer: seq<Call<Db>>)
    requires Possible(l, calls) && Can(After(l, calls), c)
    ensures longer == calls + [c]
    ensures Possible(l, longer) && After(l, longer) == Do(After(l, calls), c)
  {
    longer := calls + [c];
    assert longer[..|longer| - 1] == calls;
  }

  function Acts<Db>(run: seq<Event<Db>>): (calls: seq<Call<Db>>)
    ensures |calls| == |run| && forall i :: 0 <= i < |run| ==> calls[i] == Act(run[i])
  {
    if run == [] then [] else Acts(run[..|run| - 1]) + [Act(run[|run| - 1])]
  }

  lemma {:induction false} ActsAreRuns<Db>(l: Life<Db>, run: seq<Event<Db>>)
    requires Legal(l.s, run) && NoStops(run)
    ensures Possible(l, Acts(run)) && After(l, Acts(run)) == Life(Run(l.s, run), l.owed)
    decreases |run|
  {
    if run != [] {
      ActsAreRuns(l, run[..|run| - 1]);
      assert Acts(run)[..|run| - 1] == Acts(run[..|run| - 1]);
    }
  }

  lemma {:induction false} CallsCons<Db>(l: Life<Db>, c: Call<Db>, rest: seq<Call<Db>>)
    requires Can(l, c) && Possible(Do(l, c), rest)
    ensures Possible(l, [c] + rest) && After(l, [c] + rest) == After(Do(l, c), rest)
    decreases |rest|
  {
    var all := [c] + rest;
    if rest == [] {
      assert all[..|all| - 1] == [];
      NothingCalled(l);
    } else {
      CallsCons(l, c, rest[..|rest| - 1]);
      assert all[..|all| - 1] == [c] + rest[..|rest| - 1];
    }
  }

  // ---------------------------------------------------------------------------------------------
  // What becomes of operations left behind

  /** `Remaining`, as a natural number. */
  ghost function Weight<Db>(s: State<Db>): nat {
    if Remaining(s) >= 0 then Remaining(s) else 0
  }

  ghost predicate AtRest<Db>(s: State<Db>) {
    (s.phase.Exited? || s.phase.Idle?) && s.queue == []
  }

  /** A thread at work, which leaves only when nothing is queued any more. */
  ghost predicate AtWork<Db>(s: State<Db>) {
    !s.phase.TimedOut? && (LastPhases(s.phase) ==> s.queue == [])
  }

  predicate ThreadOnly<Db>(run: seq<Event<Db>>) {
    forall i :: 0 <= i < |run| ==> IsThreadEvent(run[i])
  }

  lemma {:induction false} RestIsSettled<Db>(db: Db, s: State<Db>)
    requires Kept(db, s) && AtRest(s)
    ensures Legal(s, []) && Run(s, []) == s && SettledOps(s.history) == s.accepted
  {
    assert SettledOps(s.history) + [] + [] == SettledOps(s.history);
  }

  /** From a thread at work, its own steps alone settle everything accepted. */
  lemma {:induction false} SettleAll<Db>(db: Db, s: State<Db>) returns (run: seq<Event<Db>>)
    requires Kept(db, s) && AtWork(s)
    ensures Legal(s, run) && ThreadOnly(run)
    ensures SettledOps(Run(s, run).history) == Run(s, run).accepted == s.accepted
    decreases Weight(s)
  {
    hide Kept, Legal, Run, Enabled, AtWork, AtRest, Weight, SettledOps, IsThreadEvent;
    if AtRest(s) {
      RestIsSettled(db, s);
      run := [];
    } else {
      var e := NextStep(db, s);
      var rest := SettleAll(db, Step(s, e));
      hide Step;
      RunCons(s, e, rest);
      run := [e] + rest;
    }
  }

  lemma {:induction false} NextStep<Db>(db: Db, s: State<Db>) returns (e: Event<Db>)
    requires Kept(db, s) && AtWork(s) && !AtRest(s)
    ensures Enabled(s, e) && IsThreadEvent(e)
    ensures Kept(db, Step(s, e)) && AtWork(Step(s, e))
    ensures Step(s, e).accepted == s.accepted && Weight(Step(s, e)) < Weight(s)
  {
    e := NextWork(db, s);
    KeptStep(db, s, e);
    ThreadShrinks(s, e);
    hide Kept, Step, Enabled, QueuedCount, Sentinels;
    WeightBound(db, s);
    WeightBound(db, Step(s, e));
  }

  lemma {:induction false} WeightBound<Db>(db: Db, s: State<Db>)
    requires Kept(db, s)
    ensures Remaining(s) >= 0
  {
  }

  lemma {:induction false} OwnFits<Db>(db: Db, s: State<Db>)
    requires Kept(db, s) && s.phase.InTransaction?
    ensures |s.phase.own| <= |s.phase.batch|
  {
  }

  lemma {:induction false} NextWork<Db>(db: Db, s: State<Db>) returns (e: Event<Db>)
    requires Kept(db, s) && AtWork(s) && !AtRest(s)
    ensures Enabled(s, e) && IsThreadEvent(e) && !e.CheckStop?
    ensures AtWork(Step(s, e)) && Step(s, e).accepted == s.accepted
  {
    hide Kept;
    match s.phase {
      case Idle => e := Get;
      case Gathering(_) => e := CloseWindow;
      case Ready(_, _) => e := Begin;
      case InTransaction(batch, _, _, own) =>
        OwnFits(db, s);
        e := if |own| < |batch| then RunNext else Commit;
      case Draining(_) => e := if s.queue == [] then DrainEnds else DrainGet;
    }
    WorkGoesOn(s, e);
  }

  lemma {:induction false} WorkGoesOn<Db>(s: State<Db>, e: Event<Db>)
    requires AtWork(s) && Enabled(s, e) && (s.phase.Gathering? ==> e.CloseWindow?)
    requires e.Get? || e.CloseWindow? || e.Begin? || e.RunNext? || e.Commit? || e.DrainEnds? || e.DrainGet?
    ensures AtWork(Step(s, e)) && Step(s, e).accepted == s.accepted
  {
    hide CountValues;
  }

  /** The next `submit` can have the thread settle what was left behind and the new operation. */
  lemma {:induction false} NextSubmitSettles<Db>(db: Db, l: Life<Db>, urgent: bool, fn: Db -> Effect<Db>)
    returns (calls: seq<Call<Db>>)
    requires Kept(db, l.s) && l.s.phase.Exited? && !l.s.stopping
    ensures calls != [] && calls[0] == SubmitStarts(urgent, fn) && Possible(l, calls)
    ensures forall i :: 0 < i < |calls| ==> calls[i].Act? && IsThreadEvent(calls[i].event)
    ensures var t := After(l, calls).s;
      SettledOps(t.history) == t.accepted == l.s.accepted + [Op(|l.s.accepted|, urgent, fn)]
  {
    var c := SubmitStarts(urgent, fn);
    KeptCall(db, l, c);
    var run := SettleAll(db, Do(l, c).s);
    hide Possible, After, SettledOps;
    ActsAreRuns(Do(l, c), run);
    CallsCons(l, c, Acts(run));
    calls := [c] + Acts(run);
  }

  /** Once the thread is in its last phases, these many operations are settled or in flight. */
  ghost predicate Reached<Db>(s: State<Db>, count: nat) {
    |s.accepted| >= count && (LastPhases(s.phase) ==> |SettledOps(s.history)| + |InFlight(s.phase)| >= count)
  }

  lemma {:induction false} ReachedSettle<Db>(s: State<Db>, e: Event<Db>, count: nat)
    requires Enabled(s, e) && Reached(s, count) && (e.BeginFails? || e.Commit? || e.CommitFails?)
    ensures Reached(Step(s, e), count)
  {
    hide CountValues, UndoneAll, Refused;
    var fate := if e.BeginFails? then NotBegun else if e.Commit? then Committed else RolledBack;
    assert Step(s, e).history == s.history + [Batch(s.phase.batch, fate)];
    SettledMore(s, fate);
    hide SettledOps;
  }

  lemma {:induction false} ReachedDrainEnds<Db>(s: State<Db>, count: nat)
    requires Fifo(s) && Enabled(s, DrainEnds) && Reached(s, count)
    ensures Reached(Step(s, DrainEnds), count)
  {
    hide SettledOps;
    assert Queued(s.queue) == [];
  }

  lemma {:induction false} ReachedStep<Db>(s: State<Db>, e: Event<Db>, count: nat)
    requires Fifo(s) && Enabled(s, e) && Reached(s, count)
    ensures Reached(Step(s, e), count)
  {
    hide Fifo, SettledOps;
    match e {
      case BeginFails | Commit | CommitFails => ReachedSettle(s, e, count);
      case DrainEnds => ReachedDrainEnds(s, count);
      case Submit(_, _) | RequestStop | PutSentinel | Begin | RunNext =>
      case Get | GetTimesOut | CheckStop | CloseWindow | DrainGet =>
    }
  }

  lemma {:induction false} SettledMore<Db>(s: State<Db>, fate: Fate)
    requires s.phase.Ready? || s.phase.InTransaction?
    ensures |SettledOps(s.history + [Batch(s.phase.batch, fate)])| == |SettledOps(s.history)| + |s.phase.batch|
  {
    assert (s.history + [Batch(s.phase.batch, fate)])[..|s.history|] == s.history;
  }

  lemma {:induction false} ReachedLife<Db>(db: Db, l: Life<Db>, calls: seq<Call<Db>>, count: nat)
    requires Kept(db, l.s) && Reached(l.s, count) && Possible(l, calls) && OneLife(calls)
    ensures Kept(db, After(l, calls).s) && Reached(After(l, calls).s, count)
    ensures l.s.accepted <= After(l, calls).s.accepted
    decreases |calls|
  {
    hide Kept, Reached, Fifo, Ledger, Counters;
    if calls != [] {
      var before, c := After(l, calls[..|calls| - 1]), calls[|calls| - 1];
      ReachedLife(db, l, calls[..|calls| - 1], count);
      KeptCall(db, before, c);
      ReachedCall(db, before, c, count);
    }
  }

  lemma {:induction false} ReachedCall<Db>(db: Db, l: Life<Db>, c: Call<Db>, count: nat)
    requires Kept(db, l.s) && Can(l, c) && (c.Act? || c.PayStop? || c.StopIdle?) && Reached(l.s, count)
    ensures Reached(Do(l, c).s, count) && l.s.accepted <= Do(l, c).s.accepted
  {
    hide Ledger, Counters, Fifo, Step, Enabled, SettledOps;
    if c.Act? {
      ReachedStep(l.s, c.event, count);
      StepGrows(l.s, c.event);
    }
  }

  /**
   And whatever the thread and others do, when the thread that this `submit` started next exits, what
   was left behind and the new operation are settled.
   */
  lemma {:induction false} NextExitSettles<Db>(db: Db, l: Life<Db>, urgent: bool, fn: Db -> Effect<Db>,
                                               calls: seq<Call<Db>>)
    requires Kept(db, l.s) && Can(l, SubmitStarts(urgent, fn))
    requires Possible(Do(l, SubmitStarts(urgent, fn)), calls) && OneLife(calls)
    requires After(Do(l, SubmitStarts(urgent, fn)), calls).s.phase.Exited?
    ensures var end := After(Do(l, SubmitStarts(urgent, fn)), calls).s;
      l.s.accepted + [Op(|l.s.accepted|, urgent, fn)] <= SettledOps(end.history)
  {
    var started := Do(l, SubmitStarts(urgent, fn));
    KeptCall(db, l, SubmitStarts(urgent, fn));
    var all := l.s.accepted + [Op(|l.s.accepted|, urgent, fn)];
    assert started.s.accepted == all && Reached(started.s, |all|);
    hide Possible, After, Can, Do;
    ReachedLife(db, started, calls, |all|);
    var end := After(started, calls).s;
    assert SettledOps(end.history) <= end.accepted by {
      hide Reached;
      SettledFirst(end);
    }
  }

  lemma {:induction false} SettledFirst<Db>(s: State<Db>)
    requires Fifo(s)
    ensures SettledOps(s.history) <= s.accepted
  {
  }

  ghost predicate NoStart<Db>(calls: seq<Call<Db>>) {
    forall i :: 0 <= i < |calls| ==> !calls[i].StartWriter?
  }

  /** No call but an explicit `start_writer` will ever settle anything more. */
  ghost predicate SettlesNoMore<Db(!new)>(l: Life<Db>) {
    forall calls: seq<Call<Db>> :: Possible(l, calls) && NoStart(calls) ==> After(l, calls).s.history == l.s.history
  }

  lemma {:induction false} StoppedStays<Db>(l: Life<Db>, calls: seq<Call<Db>>)
    requires l.s.phase.Exited? && l.s.stopping && Possible(l, calls) && NoStart(calls)
    ensures var t := After(l, calls).s; t.phase.Exited? && t.stopping && t.history == l.s.history
    decreases |calls|
  {
    if calls != [] {
      StoppedStays(l, calls[..|calls| - 1]);
    }
  }

  /**
   Operations left behind are lost, unless somebody calls `start_writer`, exactly when the flag is
   set; otherwise the next `submit` settles them.
   */
  lemma {:induction false} LostIffStopped<Db(!new)>(db: Db, l: Life<Db>)
    requires Kept(db, l.s) && LeftBehind(l.s)
    ensures SettlesNoMore(l) <==> l.s.stopping
  {
    hide Kept, LeftBehind, Possible, After, NoStart;
    if l.s.stopping {
      forall calls: seq<Call<Db>> | Possible(l, calls) && NoStart(calls)
        ensures After(l, calls).s.history == l.s.history
      {
        assert l.s.phase.Exited? by {
          LeftIsExited(l.s);
        }
        StoppedStays(l, calls);
      }
    } else {
      var calls := SettlesMore(db, l);
    }
  }

  lemma {:induction false} LeftIsExited<Db>(s: State<Db>)
    requires LeftBehind(s)
    ensures s.phase.Exited?
  {
  }

  lemma {:induction false} SettlesMore<Db>(db: Db, l: Life<Db>) returns (calls: seq<Call<Db>>)
    requires Kept(db, l.s) && LeftBehind(l.s) && !l.s.stopping
    ensures Possible(l, calls) && NoStart(calls) && After(l, calls).s.history != l.s.history
  {
    OnlySentinels(l.s.queue);
    calls := NextSubmitSettles(db, l, false, d => Effect(d, Value(0)));
    assert NoStart(calls);
    hide Possible, After, SettledOps, Queued;
    assert SettledOps(l.s.history) + [] + Queued(l.s.queue) == l.s.accepted;
    assert |SettledOps(After(l, calls).s.history)| > |SettledOps(l.s.history)|;
  }

  /** And it is a `stop` as the next call that sets it, without draining and without a sentinel. */
  lemma {:induction false} NextStopLoses<Db(!new)>(db: Db, l: Life<Db>)
    requires Kept(db, l.s) && LeftBehind(l.s)
    ensures var t := Do(l, StopIdle);
      SettlesNoMore(t) && LeftBehind(t.s) && t.owed == l.owed && t.s.queue == l.s.queue && t.s.history == l.s.history
  {
    KeptCall(db, l, StopIdle);
    assert LeftBehind(Do(l, StopIdle).s);
    LostIffStopped(db, Do(l, StopIdle));
  }
}
