/**
 The writer thread of onedriveui/data/writer.py and its producers as one step system: every
 `queue.get`, every operation run, every transaction statement and every producer call is a step,
 so a run is an arbitrary interleaving.  The check of `_stopping` and the `put` in `submit` are
 one step.
 */
module WriterMachine {
  import opened WriterLog

  /** The hard ceiling on one transaction. */
  const MAX_BATCH := 5000

  /** A queue entry; `Sentinel` is the `None` that asks the thread to leave. */
  datatype Msg<!Db> = Work(op: Op<Db>) | Sentinel

  datatype Phase<!Db> =
    | Idle
    | TimedOut
    | Gathering(batch: seq<Op<Db>>)
    | Ready(batch: seq<Op<Db>>, final: bool)
    | InTransaction(batch: seq<Op<Db>>, final: bool, work: Db, own: seq<Reply>)
    | Draining(batch: seq<Op<Db>>)
    | Exited

  datatype State<!Db> = State(
    queue: seq<Msg<Db>>, stopping: bool, phase: Phase<Db>, db: Db,
    accepted: seq<Op<Db>>, history: seq<Batch<Db>>, replies: seq<Reply>,
    batches: nat, opsApplied: nat, opsFailed: nat, transactionErrors: nat)

  datatype Event<!Db> =
    // Producers.
    | Submit(urgent: bool, fn: Db -> Effect<Db>) | RequestStop | PutSentinel
    // The writer thread.
    | Get | GetTimesOut | CheckStop | CloseWindow
    | Begin | BeginFails | RunNext | Commit | CommitFails
    | DrainGet | DrainEnds

  predicate IsThreadEvent<Db>(e: Event<Db>) {
    !e.Submit? && !e.RequestStop? && !e.PutSentinel?
  }

  function Init<Db>(db: Db): State<Db> {
    State([], false, Idle, db, [], [], [], 0, 0, 0, 0)
  }

  ghost predicate Enabled<Db>(s: State<Db>, e: Event<Db>) {
    match e
    case Submit(_, _) => !s.stopping && !s.phase.Exited?
    case RequestStop => true
    case PutSentinel => s.stopping
    case Get => s.queue != [] && (s.phase.Idle? || (s.phase.Gathering? && |s.phase.batch| < MAX_BATCH))
    case GetTimesOut => s.queue == [] && s.phase.Idle?
    case CheckStop => s.phase.TimedOut?
    case CloseWindow => s.phase.Gathering?
    case Begin | BeginFails => s.phase.Ready?
    case RunNext => s.phase.InTransaction? && |s.phase.own| < |s.phase.batch|
    case Commit | CommitFails => s.phase.InTransaction? && |s.phase.own| == |s.phase.batch|
    case DrainGet => s.phase.Draining? && s.queue != []
    case DrainEnds => s.phase.Draining? && s.queue == []
  }

  ghost function Step<Db>(s: State<Db>, e: Event<Db>): State<Db>
    requires Enabled(s, e)
  {
    match e
    case Submit(urgent, fn) =>
      var op := Op(|s.accepted|, urgent, fn);
      s.(queue := s.queue + [Work(op)], accepted := s.accepted + [op])
    case RequestStop => s.(stopping := true)
    case PutSentinel => s.(queue := s.queue + [Sentinel])
    case Get => if s.phase.Idle? then TakeFirst(s) else TakeNext(s)
    case GetTimesOut => s.(phase := TimedOut)
    case CheckStop => s.(phase := if s.stopping then Draining([]) else Idle)
    case CloseWindow => s.(phase := Ready(s.phase.batch, false))
    case Begin => s.(phase := InTransaction(s.phase.batch, s.phase.final, s.db, []))
    case BeginFails =>
      var batch := s.phase.batch;
      s.(phase := AfterBatch(s.phase.final),
         history := s.history + [Batch(batch, NotBegun)],
         replies := s.replies + Refused(|batch|),
         transactionErrors := s.transactionErrors + 1)
    case RunNext =>
      var effect := s.phase.batch[|s.phase.own|].fn(s.phase.work);
      s.(phase := s.phase.(work := effect.db, own := s.phase.own + [effect.reply]))
    case Commit => Settle(s.(db := s.phase.work), s.phase, Committed, s.phase.own)
    case CommitFails =>
      Settle(s.(transactionErrors := s.transactionErrors + 1), s.phase, RolledBack,
             UndoneAll(s.phase.own))
    case DrainGet =>
      var batch := s.phase.batch;
      s.(queue := s.queue[1..],
         phase := Draining(if s.queue[0].Work? then batch + [s.queue[0].op] else batch))
    case DrainEnds =>
      s.(phase := if s.phase.batch == [] then Exited else Ready(s.phase.batch, true))
  }

  /** The first `get` of `_collect`. */
  function TakeFirst<Db>(s: State<Db>): State<Db>
    requires s.queue != []
  {
    match s.queue[0]
    case Sentinel => s.(queue := s.queue[1..], phase := Draining([]))
    case Work(op) =>
      s.(queue := s.queue[1..], phase := if op.urgent then Ready([op], false) else Gathering([op]))
  }

  /** A later `get` of `_collect`: a sentinel is put back behind everything queued. */
  function TakeNext<Db>(s: State<Db>): State<Db>
    requires s.queue != [] && s.phase.Gathering?
  {
    match s.queue[0]
    case Sentinel =>
      s.(queue := s.queue[1..] + [Sentinel], stopping := true, phase := Ready(s.phase.batch, false))
    case Work(op) =>
      var batch := s.phase.batch + [op];
      s.(queue := s.queue[1..], phase := if op.urgent then Ready(batch, false) else Gathering(batch))
  }

  function AfterBatch<Db>(final: bool): Phase<Db> {
    if final then Exited else Idle
  }

  function CountValues(replies: seq<Reply>): nat {
    if replies == [] then 0
    else CountValues(replies[..|replies| - 1]) + if replies[|replies| - 1].Value? then 1 else 0
  }

  function Settle<Db>(s: State<Db>, phase: Phase<Db>, fate: Fate, replies: seq<Reply>): State<Db>
    requires phase.InTransaction?
  {
    CountBound(replies);
    s.(phase := AfterBatch(phase.final),
       history := s.history + [Batch(phase.batch, fate)],
       replies := s.replies + replies,
       batches := s.batches + 1,
       opsApplied := s.opsApplied + CountValues(replies),
       opsFailed := s.opsFailed + |replies| - CountValues(replies))
  }

  lemma CountBound(replies: seq<Reply>)
    ensures CountValues(replies) <= |replies|
  {
  }

  lemma {:induction false} CountConcat(a: seq<Reply>, b: seq<Reply>)
    ensures CountValues(a + b) == CountValues(a) + CountValues(b)
    decreases |b|
  {
    if b == [] {
      assert a + b == a;
    } else {
      CountConcat(a, b[..|b| - 1]);
      assert (a + b)[..|a + b| - 1] == a + b[..|b| - 1];
    }
  }

  lemma {:induction false} CountNone(replies: seq<Reply>)
    requires forall reply :: reply in replies ==> reply.Error?
    ensures CountValues(replies) == 0
  {
    if replies != [] {
      assert replies[|replies| - 1] in replies;
      CountNone(replies[..|replies| - 1]);
    }
  }

  // ---------------------------------------------------------------------------------------------
  // Runs

  ghost predicate Legal<Db>(s: State<Db>, run: seq<Event<Db>>)
    decreases |run|, 0
  {
    run == [] || (Legal(s, run[..|run| - 1]) && Enabled(Run(s, run[..|run| - 1]), run[|run| - 1]))
  }

  ghost function Run<Db>(s: State<Db>, run: seq<Event<Db>>): State<Db>
    requires Legal(s, run)
    decreases |run|, 1
  {
    if run == [] then s else Step(Run(s, run[..|run| - 1]), run[|run| - 1])
  }

  // ---------------------------------------------------------------------------------------------
  // The invariant

  function InFlight<Db>(phase: Phase<Db>): seq<Op<Db>> {
    if phase.Idle? || phase.TimedOut? || phase.Exited? then [] else phase.batch
  }

  function Queued<Db>(queue: seq<Msg<Db>>): seq<Op<Db>> {
    if queue == [] then []
    else (if queue[0].Work? then [queue[0].op] else []) + Queued(queue[1..])
  }

  /** Settled, then in flight, then queued: the submission order, every operation once. */
  ghost predicate Fifo<Db>(s: State<Db>) {
    && SettledOps(s.history) + InFlight(s.phase) + Queued(s.queue) == s.accepted
    && forall i :: 0 <= i < |s.accepted| ==> s.accepted[i].id == i
  }

  /** The database and the replies are those of the sequential log. */
  ghost predicate Ledger<Db>(db: Db, s: State<Db>) {
    && s.db == Replay(db, s.history)
    && s.replies == ReplayReplies(db, s.history)
    && (s.phase.InTransaction? ==>
          && |s.phase.own| <= |s.phase.batch|
          && s.phase.work == DbAfter(s.db, s.phase.batch[..|s.phase.own|])
          && s.phase.own == OwnReplies(s.db, s.phase.batch[..|s.phase.own|]))
  }

  /** How many settled operations never saw a transaction. */
  ghost function UnbegunOps<Db>(history: seq<Batch<Db>>): nat {
    if history == [] then 0
    else
      var n := |history| - 1;
      UnbegunOps(history[..n]) + if history[n].fate == NotBegun then |history[n].ops| else 0
  }

  ghost function CountFate<Db>(history: seq<Batch<Db>>, fate: Fate): nat {
    if history == [] then 0
    else
      var n := |history| - 1;
      CountFate(history[..n], fate) + if history[n].fate == fate then 1 else 0
  }

  ghost predicate Counters<Db>(s: State<Db>) {
    && s.opsApplied == CountValues(s.replies)
    && s.opsApplied + s.opsFailed + UnbegunOps(s.history) == |s.replies|
    && s.batches == CountFate(s.history, Committed) + CountFate(s.history, RolledBack)
    && s.transactionErrors == CountFate(s.history, NotBegun) + CountFate(s.history, RolledBack)
  }

  /** What `_collect` may return: at most 5000 operations, an urgent one only in last place. */
  predicate Collected<Db>(batch: seq<Op<Db>>) {
    && 1 <= |batch| <= MAX_BATCH
    && forall i :: 0 <= i < |batch| - 1 ==> !batch[i].urgent
  }

  ghost predicate Shapes<Db>(s: State<Db>) {
    && (forall k :: 0 <= k < |s.history| ==>
          Collected(s.history[k].ops) || (s.phase.Exited? && k == |s.history| - 1))
    && (s.phase.Gathering? ==>
          Collected(s.phase.batch) && !s.phase.batch[|s.phase.batch| - 1].urgent)
    && ((s.phase.Ready? || s.phase.InTransaction?) && !s.phase.final ==> Collected(s.phase.batch))
  }

  predicate LastPhases<Db>(phase: Phase<Db>) {
    phase.Exited? || ((phase.Ready? || phase.InTransaction?) && phase.final)
  }

  /** Sentinels appear only after a stop, and behind every operation still queued. */
  ghost predicate SentinelsLast<Db>(s: State<Db>) {
    && (forall i :: 0 <= i < |s.queue| && s.queue[i].Sentinel? ==> s.stopping)
    && (forall i, j :: 0 <= i < j < |s.queue| && s.queue[i].Sentinel? ==> s.queue[j].Sentinel?)
  }

  ghost predicate Shutdown<Db>(s: State<Db>) {
    && SentinelsLast(s)
    && (s.phase.Draining? || LastPhases(s.phase) ==> s.stopping)
    && (LastPhases(s.phase) ==> Queued(s.queue) == [])
  }

  ghost predicate Inv<Db>(db: Db, s: State<Db>) {
    Fifo(s) && Ledger(db, s) && Counters(s) && Shapes(s) && Shutdown(s)
  }

  // ---------------------------------------------------------------------------------------------
  // Every step keeps it

  lemma {:induction false} QueuedConcat<Db>(a: seq<Msg<Db>>, b: seq<Msg<Db>>)
    ensures Queued(a + b) == Queued(a) + Queued(b)
  {
    if a == [] {
      assert a + b == b;
    } else {
      QueuedConcat(a[1..], b);
      assert (a + b)[0] == a[0] && (a + b)[1..] == a[1..] + b;
      var head := if a[0].Work? then [a[0].op] else [];
      assert Queued(a + b) == head + Queued(a[1..] + b);
      assert head + (Queued(a[1..]) + Queued(b)) == head + Queued(a[1..]) + Queued(b);
    }
  }

  lemma {:induction false} OnlySentinels<Db>(queue: seq<Msg<Db>>)
    ensures Queued(queue) == [] <==> forall i :: 0 <= i < |queue| ==> queue[i].Sentinel?
  {
    if queue != [] {
      OnlySentinels(queue[1..]);
      if forall i :: 0 <= i < |queue[1..]| ==> queue[1..][i].Sentinel? {
        assert forall i :: 1 <= i < |queue| ==> queue[i] == queue[1..][i - 1];
      }
    }
  }

  lemma FifoSubmit<Db>(s: State<Db>, e: Event<Db>)
    requires Fifo(s) && e.Submit? && Enabled(s, e)
    ensures Fifo(Step(s, e))
  {
    var op := Op(|s.accepted|, e.urgent, e.fn);
    QueuedConcat(s.queue, [Work(op)]);
    assert Queued([Work(op)]) == [op];
    var known := SettledOps(s.history) + InFlight(s.phase);
    assert known + Queued(s.queue + [Work(op)]) == known + Queued(s.queue) + [op];
  }

  lemma FifoGet<Db>(s: State<Db>)
    requires Fifo(s) && Enabled(s, Get)
    ensures Fifo(Step(s, Get))
  {
    var t := Step(s, Get);
    if s.queue[0].Sentinel? {
      if s.phase.Gathering? {
        QueuedConcat(s.queue[1..], [Sentinel]);
      }
      assert InFlight(t.phase) == InFlight(s.phase) && Queued(t.queue) == Queued(s.queue);
    } else {
      assert InFlight(t.phase) == InFlight(s.phase) + [s.queue[0].op];
      FifoMoved(SettledOps(s.history), InFlight(s.phase), s.queue[0].op, Queued(t.queue));
    }
  }

  lemma FifoMoved<Db>(a: seq<Op<Db>>, b: seq<Op<Db>>, op: Op<Db>, c: seq<Op<Db>>)
    ensures a + (b + [op]) + c == a + b + ([op] + c)
  {
  }

  lemma FifoDrain<Db>(s: State<Db>)
    requires Fifo(s) && Enabled(s, DrainGet)
    ensures Fifo(Step(s, DrainGet))
  {
    if s.queue[0].Work? {
      FifoMoved(SettledOps(s.history), InFlight(s.phase), s.queue[0].op, Queued(s.queue[1..]));
    }
  }

  lemma FifoSettled<Db>(s: State<Db>, t: State<Db>, fate: Fate)
    requires Fifo(s) && (s.phase.Ready? || s.phase.InTransaction?)
    requires t.history == s.history + [Batch(s.phase.batch, fate)]
    requires InFlight(t.phase) == [] && t.queue == s.queue && t.accepted == s.accepted
    ensures Fifo(t)
  {
    assert t.history[..|s.history|] == s.history;
  }

  lemma FifoStep<Db>(s: State<Db>, e: Event<Db>)
    requires Fifo(s) && Enabled(s, e)
    ensures Fifo(Step(s, e))
  {
    match e {
      case Submit(_, _) => FifoSubmit(s, e);
      case PutSentinel => QueuedConcat(s.queue, [Sentinel]);
      case Get => FifoGet(s);
      case DrainGet => FifoDrain(s);
      case BeginFails => FifoSettled(s, Step(s, e), NotBegun);
      case Commit => FifoSettled(s, Step(s, e), Committed);
      case CommitFails => FifoSettled(s, Step(s, e), RolledBack);
      case RequestStop | GetTimesOut | CheckStop | CloseWindow | Begin | RunNext | DrainEnds =>
        assert InFlight(Step(s, e).phase) == InFlight(s.phase);
    }
  }

  lemma {:induction false} OwnReplyNext<Db>(db: Db, batch: seq<Op<Db>>, n: nat)
    requires n < |batch|
    ensures DbAfter(db, batch[..n + 1]) == batch[n].fn(DbAfter(db, batch[..n])).db
    ensures OwnReplies(db, batch[..n + 1])
         == OwnReplies(db, batch[..n]) + [batch[n].fn(DbAfter(db, batch[..n])).reply]
  {
    var some, more := batch[..n], batch[..n + 1];
    assert more[..n] == some;
    forall i | 0 <= i < n ensures OwnReplies(db, more)[i] == OwnReplies(db, some)[i] {
      assert more[..i] == some[..i];
    }
  }

  lemma {:induction false} LedgerRunNext<Db>(db: Db, s: State<Db>)
    requires Ledger(db, s) && Enabled(s, RunNext)
    ensures Ledger(db, Step(s, RunNext))
  {
    hide Replay, ReplayReplies, OwnReplies, DbAfter;
    OwnReplyNext(s.db, s.phase.batch, |s.phase.own|);
  }

  lemma LedgerSettled<Db>(db: Db, s: State<Db>, t: State<Db>, fate: Fate)
    requires Ledger(db, s) && (s.phase.Ready? || s.phase.InTransaction?)
    requires t.history == s.history + [Batch(s.phase.batch, fate)]
    requires t.replies == s.replies + BatchReplies(s.db, Batch(s.phase.batch, fate))
    requires t.db == if fate == Committed then DbAfter(s.db, s.phase.batch) else s.db
    requires !t.phase.InTransaction?
    ensures Ledger(db, t)
  {
    assert t.history[..|s.history|] == s.history;
  }

  lemma WholeBatchRun<Db>(db: Db, s: State<Db>)
    requires Ledger(db, s) && Enabled(s, Commit)
    ensures s.phase.work == DbAfter(s.db, s.phase.batch)
    ensures s.phase.own == OwnReplies(s.db, s.phase.batch)
  {
    assert s.phase.batch[..|s.phase.own|] == s.phase.batch;
  }

  lemma {:induction false} LedgerBeginFails<Db>(db: Db, s: State<Db>)
    requires Ledger(db, s) && Enabled(s, BeginFails)
    ensures Ledger(db, Step(s, BeginFails))
  {
    hide Replay, ReplayReplies, OwnReplies, DbAfter, Refused;
    LedgerSettled(db, s, Step(s, BeginFails), NotBegun);
  }

  lemma {:induction false} LedgerCommit<Db>(db: Db, s: State<Db>)
    requires Ledger(db, s) && Enabled(s, Commit)
    ensures Ledger(db, Step(s, Commit))
  {
    hide Replay, ReplayReplies, OwnReplies, DbAfter, CountValues;
    WholeBatchRun(db, s);
    LedgerSettled(db, s, Step(s, Commit), Committed);
  }

  lemma {:induction false} LedgerCommitFails<Db>(db: Db, s: State<Db>)
    requires Ledger(db, s) && Enabled(s, CommitFails)
    ensures Ledger(db, Step(s, CommitFails))
  {
    hide Replay, ReplayReplies, OwnReplies, DbAfter, CountValues, UndoneAll;
    WholeBatchRun(db, s);
    LedgerSettled(db, s, Step(s, CommitFails), RolledBack);
  }

  lemma {:induction false} LedgerBegin<Db>(db: Db, s: State<Db>)
    requires Ledger(db, s) && Enabled(s, Begin)
    ensures Ledger(db, Step(s, Begin))
  {
    hide Replay, ReplayReplies;
    assert s.phase.batch[..0] == [];
  }

  /** The other steps touch neither the database nor the replies. */
  lemma {:induction false} LedgerUntouched<Db>(db: Db, s: State<Db>, e: Event<Db>)
    requires Ledger(db, s) && Enabled(s, e)
    requires !e.Begin? && !e.BeginFails? && !e.RunNext? && !e.Commit? && !e.CommitFails?
    ensures Ledger(db, Step(s, e))
  {
    hide Replay, ReplayReplies, OwnReplies, DbAfter;
    match e {
      case Submit(_, _) | RequestStop | PutSentinel =>
        assert Step(s, e).phase == s.phase;
      case Get | GetTimesOut | CheckStop | CloseWindow | DrainGet | DrainEnds =>
        assert !Step(s, e).phase.InTransaction?;
    }
  }

  lemma {:induction false} LedgerStep<Db>(db: Db, s: State<Db>, e: Event<Db>)
    requires Ledger(db, s) && Enabled(s, e)
    ensures Ledger(db, Step(s, e))
  {
    hide Ledger, Step;
    match e {
      case Begin => LedgerBegin(db, s);
      case BeginFails => LedgerBeginFails(db, s);
      case RunNext => LedgerRunNext(db, s);
      case Commit => LedgerCommit(db, s);
      case CommitFails => LedgerCommitFails(db, s);
      case Submit(_, _) | RequestStop | PutSentinel => LedgerUntouched(db, s, e);
      case Get | GetTimesOut | CheckStop | CloseWindow | DrainGet | DrainEnds => LedgerUntouched(db, s, e);
    }
  }

  /** What the last step of a transaction changes, and what it leaves. */
  lemma EndOfTransaction<Db>(s: State<Db>, e: Event<Db>, replies: seq<Reply>)
    requires Enabled(s, e) && (e.Commit? || e.CommitFails?)
    requires replies == if e.Commit? then s.phase.own else UndoneAll(s.phase.own)
    ensures var t := Step(s, e);
      && t.replies == s.replies + replies && t.batches == s.batches + 1
      && t.opsApplied == s.opsApplied + CountValues(replies)
      && t.opsFailed == s.opsFailed + |replies| - CountValues(replies)
      && t.db == (if e.Commit? then s.phase.work else s.db)
      && t.transactionErrors == s.transactionErrors + (if e.Commit? then 0 else 1)
      && t.queue == s.queue && t.accepted == s.accepted && t.stopping == s.stopping
      && t.phase == AfterBatch(s.phase.final)
  {
    assert |replies| == |s.phase.own|;
  }

  lemma CountersSettled<Db>(s: State<Db>, t: State<Db>, batch: Batch<Db>, added: seq<Reply>)
    requires Counters(s) && |added| == |batch.ops|
    requires t.history == s.history + [batch] && t.replies == s.replies + added
    requires batch.fate == NotBegun ==>
      && t.opsApplied == s.opsApplied && t.opsFailed == s.opsFailed && t.batches == s.batches
      && forall reply :: reply in added ==> reply.Error?
    requires batch.fate != NotBegun ==>
      && t.opsApplied == s.opsApplied + CountValues(added)
      && t.opsFailed == s.opsFailed + |added| - CountValues(added) && t.batches == s.batches + 1
    requires t.transactionErrors == s.transactionErrors + if batch.fate == Committed then 0 else 1
    ensures Counters(t)
  {
    assert t.history[..|s.history|] == s.history;
    CountConcat(s.replies, added);
    if batch.fate == NotBegun {
      CountNone(added);
    }
  }

  lemma CountersEnd<Db>(s: State<Db>, e: Event<Db>, fate: Fate, replies: seq<Reply>)
    requires Counters(s) && Enabled(s, e)
    requires (e.Commit? && fate == Committed) || (e.CommitFails? && fate == RolledBack)
    requires replies == if e.Commit? then s.phase.own else UndoneAll(s.phase.own)
    ensures Counters(Step(s, e))
  {
    EndOfTransaction(s, e, replies);
    CountersSettled(s, Step(s, e), Batch(s.phase.batch, fate), replies);
  }

  lemma CountersStep<Db>(s: State<Db>, e: Event<Db>)
    requires Counters(s) && Enabled(s, e)
    ensures Counters(Step(s, e))
  {
    match e {
      case BeginFails =>
        CountersSettled(s, Step(s, e), Batch(s.phase.batch, NotBegun), Refused(|s.phase.batch|));
      case Commit => CountersEnd(s, e, Committed, s.phase.own);
      case CommitFails => CountersEnd(s, e, RolledBack, UndoneAll(s.phase.own));
      case _ =>
    }
  }

  lemma ShapesStep<Db>(s: State<Db>, e: Event<Db>)
    requires Shapes(s) && Enabled(s, e)
    ensures Shapes(Step(s, e))
  {
  }

  lemma SentinelsLastStep<Db>(s: State<Db>, e: Event<Db>)
    requires SentinelsLast(s) && Enabled(s, e)
    ensures SentinelsLast(Step(s, e))
  {
    if e.Get? || e.DrainGet? {
      assert forall i :: 0 <= i < |s.queue| - 1 ==> s.queue[1..][i] == s.queue[i + 1];
    }
  }

  lemma ShutdownStep<Db>(s: State<Db>, e: Event<Db>)
    requires Shutdown(s) && Enabled(s, e)
    ensures Shutdown(Step(s, e))
  {
    SentinelsLastStep(s, e);
    match e {
      case PutSentinel => QueuedConcat(s.queue, [Sentinel]);
      case DrainEnds => assert Queued(s.queue) == [];
      case _ =>
    }
  }

  lemma InvStep<Db>(db: Db, s: State<Db>, e: Event<Db>)
    requires Inv(db, s) && Enabled(s, e)
    ensures Inv(db, Step(s, e))
  {
    FifoStep(s, e);
    LedgerStep(db, s, e);
    CountersStep(s, e);
    ShapesStep(s, e);
    ShutdownStep(s, e);
  }

  /**
   In every reachable state the writer agrees with the sequential log: nothing is lost, reordered
   or run twice, the committed database is the replay of the committed batches, every reply is
   the one the log gives, and every batch of `_collect` respects the ceiling and urgency.
   */
  lemma {:induction false} RefinesLog<Db>(db: Db, run: seq<Event<Db>>)
    requires Legal(Init(db), run)
    ensures Inv(db, Run(Init(db), run))
  {
    if run != [] {
      RefinesLog(db, run[..|run| - 1]);
      InvStep(db, Run(Init(db), run[..|run| - 1]), run[|run| - 1]);
    }
  }

  /** The operations in flight are the ones accepted right after the settled ones. */
  lemma InFlightIds<Db>(db: Db, s: State<Db>)
    requires Inv(db, s)
    ensures |s.replies| + |InFlight(s.phase)| <= |s.accepted|
    ensures forall i :: 0 <= i < |InFlight(s.phase)| ==> InFlight(s.phase)[i].id == |s.replies| + i
  {
    ReplyCount(db, s.history);
    forall i | 0 <= i < |InFlight(s.phase)|
      ensures InFlight(s.phase)[i].id == |s.replies| + i
    {
      assert s.accepted[|s.replies| + i] == InFlight(s.phase)[i];
    }
  }

  lemma ReachedIds<Db>(db: Db, run: seq<Event<Db>>, s: State<Db>)
    requires Legal(Init(db), run) && s == Run(Init(db), run)
    ensures |s.replies| + |InFlight(s.phase)| <= |s.accepted|
    ensures forall i :: 0 <= i < |InFlight(s.phase)| ==> InFlight(s.phase)[i].id == |s.replies| + i
  {
    RefinesLog(db, run);
    InFlightIds(db, s);
  }

  // ---------------------------------------------------------------------------------------------
  // Shutdown

  function Sentinels<Db>(queue: seq<Msg<Db>>): nat {
    |queue| - QueuedCount(queue)
  }

  function QueuedCount<Db>(queue: seq<Msg<Db>>): (n: nat)
    ensures n == |Queued(queue)| <= |queue|
  {
    if queue == [] then 0 else QueuedCount(queue[1..]) + if queue[0].Work? then 1 else 0
  }

  function PhaseWeight<Db>(phase: Phase<Db>): int {
    match phase
    case Exited => 0
    case InTransaction(batch, final, _, own) => (if final then 1 else 6) + |batch| - |own|
    case Ready(batch, final) => (if final then 2 else 7) + |batch|
    case Draining(batch) => 3 + |batch|
    case TimedOut => 4
    case Idle => 5
    case Gathering(batch) => 8 + |batch|
  }

  /** A bound on how many more steps a stopping writer thread can take. */
  function Remaining<Db>(s: State<Db>): int {
    5 * QueuedCount(s.queue) + Sentinels(s.queue) + PhaseWeight(s.phase)
  }

  lemma RemainingNonNegative<Db>(db: Db, s: State<Db>)
    requires Inv(db, s)
    ensures Remaining(s) >= 0
    ensures Remaining(s) == 0 ==> s.phase.Exited?
  {
  }

  lemma QueueWeight<Db>(queue: seq<Msg<Db>>)
    requires queue != []
    ensures queue[0].Work? ==> QueuedCount(queue) == QueuedCount(queue[1..]) + 1
    ensures queue[0].Work? ==> Sentinels(queue) == Sentinels(queue[1..])
    ensures queue[0].Sentinel? ==> QueuedCount(queue) == QueuedCount(queue[1..])
    ensures queue[0].Sentinel? ==> Sentinels(queue) == Sentinels(queue[1..]) + 1
  {
  }

  lemma SentinelWeight<Db>(queue: seq<Msg<Db>>)
    ensures QueuedCount(queue + [Sentinel]) == QueuedCount(queue)
    ensures Sentinels(queue + [Sentinel]) == Sentinels(queue) + 1
  {
    QueuedConcat(queue, [Sentinel]);
  }

  lemma GetShrinks<Db>(s: State<Db>)
    requires Enabled(s, Get)
    ensures Remaining(Step(s, Get)) < Remaining(s)
  {
    hide QueuedCount, Sentinels;
    QueueWeight(s.queue);
    if s.queue[0].Sentinel? && s.phase.Gathering? {
      SentinelWeight(s.queue[1..]);
    }
  }

  /** Every thread step makes progress, but for the check that finds no stop requested. */
  lemma ThreadShrinks<Db>(s: State<Db>, e: Event<Db>)
    requires Enabled(s, e) && IsThreadEvent(e) && (e.CheckStop? ==> s.stopping)
    ensures Remaining(Step(s, e)) < Remaining(s)
  {
    match e {
      case Get => GetShrinks(s);
      case DrainGet => QueueWeight(s.queue);
      case _ =>
    }
  }

  /** Every thread step after a stop makes progress; another `stop` adds one step at most. */
  lemma StoppingStep<Db>(s: State<Db>, e: Event<Db>)
    requires s.stopping && Enabled(s, e)
    ensures Step(s, e).stopping
    ensures IsThreadEvent(e) ==> Remaining(Step(s, e)) < Remaining(s)
    ensures e.PutSentinel? ==> Remaining(Step(s, e)) == Remaining(s) + 1
    ensures e.Submit? || e.RequestStop? ==> Remaining(Step(s, e)) == Remaining(s)
  {
    match e {
      case PutSentinel => SentinelWeight(s.queue);
      case Submit(_, _) | RequestStop =>
      case _ => ThreadShrinks(s, e);
    }
  }

  ghost function ThreadSteps<Db>(run: seq<Event<Db>>): nat {
    if run == [] then 0
    else ThreadSteps(run[..|run| - 1]) + if IsThreadEvent(run[|run| - 1]) then 1 else 0
  }

  ghost function StopCalls<Db>(run: seq<Event<Db>>): nat {
    if run == [] then 0
    else StopCalls(run[..|run| - 1]) + if run[|run| - 1].PutSentinel? then 1 else 0
  }

  /**
   Once a stop is requested, however producers and further `stop` calls interleave, the thread
   takes at most `Remaining` steps plus one per extra sentinel before it has exited.
   */
  lemma {:induction false} StopTerminates<Db>(db: Db, s: State<Db>, run: seq<Event<Db>>)
    requires Inv(db, s) && s.stopping && Legal(s, run)
    ensures Inv(db, Run(s, run)) && Run(s, run).stopping
    ensures 0 <= Remaining(Run(s, run)) <= Remaining(s) + StopCalls(run) - ThreadSteps(run)
    ensures Run(s, run).accepted == s.accepted
  {
    if run == [] {
      RemainingNonNegative(db, s);
    } else {
      var prior := run[..|run| - 1];
      StopTerminates(db, s, prior);
      var t := Run(s, prior);
      InvStep(db, t, run[|run| - 1]);
      StoppingStep(t, run[|run| - 1]);
      RemainingNonNegative(db, Run(s, run));
    }
  }

  /** The thread is never stuck: until it has exited, one of its own steps is possible. */
  lemma NeverStuck<Db>(db: Db, s: State<Db>) returns (e: Event<Db>)
    requires Inv(db, s) && !s.phase.Exited?
    ensures IsThreadEvent(e) && Enabled(s, e)
  {
    match s.phase {
      case Idle => e := if s.queue == [] then GetTimesOut else Get;
      case TimedOut => e := CheckStop;
      case Gathering(_) => e := CloseWindow;
      case Ready(_, _) => e := Begin;
      case InTransaction(batch, _, _, own) => e := if |own| < |batch| then RunNext else Commit;
      case Draining(_) => e := if s.queue == [] then DrainEnds else DrainGet;
    }
  }

  /** A thread that has exited has settled every accepted operation, once and in order. */
  lemma ExitLosesNothing<Db>(db: Db, s: State<Db>)
    requires Inv(db, s) && s.phase.Exited?
    ensures s.stopping && Queued(s.queue) == []
    ensures SettledOps(s.history) == s.accepted
    ensures |s.replies| == |s.accepted|
  {
    ReplyCount(db, s.history);
    assert SettledOps(s.history) + [] + [] == SettledOps(s.history);
  }

  /**
   From any reachable state, requesting a stop and letting the thread run ends with every
   accepted operation settled.
   */
  lemma {:induction false} StopDrains<Db>(db: Db, s: State<Db>) returns (run: seq<Event<Db>>)
    requires Inv(db, s) && s.stopping
    ensures Legal(s, run) && Run(s, run).phase.Exited?
    ensures SettledOps(Run(s, run).history) == s.accepted
    ensures forall i :: 0 <= i < |run| ==> IsThreadEvent(run[i])
    decreases if s.phase.Exited? then 0 else Remaining(s) + 1
  {
    RemainingNonNegative(db, s);
    if s.phase.Exited? {
      ExitLosesNothing(db, s);
      run := [];
    } else {
      var e := NeverStuck(db, s);
      StoppingStep(s, e);
      InvStep(db, s, e);
      var rest := StopDrains(db, Step(s, e));
      RunCons(s, e, rest);
      run := [e] + rest;
      StopTerminates(db, s, run);
      StopTerminates(db, Step(s, e), rest);
    }
  }

  lemma Extend<Db>(s: State<Db>, run: seq<Event<Db>>, e: Event<Db>) returns (longer: seq<Event<Db>>)
    requires Legal(s, run) && Enabled(Run(s, run), e)
    ensures longer == run + [e]
    ensures Legal(s, longer) && Run(s, longer) == Step(Run(s, run), e)
  {
    longer := run + [e];
    assert longer[..|longer| - 1] == run;
  }

  lemma {:induction false} RunCons<Db>(s: State<Db>, e: Event<Db>, rest: seq<Event<Db>>)
    requires Enabled(s, e) && Legal(Step(s, e), rest)
    ensures Legal(s, [e] + rest) && Run(s, [e] + rest) == Run(Step(s, e), rest)
    decreases |rest|
  {
    var all := [e] + rest;
    if rest == [] {
      assert all[..|all| - 1] == [];
      assert Legal(s, []) && Run(s, []) == s;
    } else {
      RunCons(s, e, rest[..|rest| - 1]);
      assert all[..|all| - 1] == [e] + rest[..|rest| - 1];
    }
  }

  // ---------------------------------------------------------------------------------------------
  // What a waiter may conclude

  /**
   `submit_sync` returns normally only when its reply is a value.  Then the transaction that ran
   the operation has committed: the database is the in-order effect of a list of operations that
   contains it, and every operation submitted before it has been settled.
   */
  lemma ReturnMeansCommitted<Db>(db: Db, s: State<Db>, id: nat)
    requires Inv(db, s) && id < |s.replies| && s.replies[id].Value?
    ensures id < |s.accepted| && s.accepted[id] in CommittedOps(s.history)
    ensures s.db == DbAfter(db, CommittedOps(s.history))
    ensures |SettledOps(s.history)| > id && SettledOps(s.history)[..id] == s.accepted[..id]
  {
    hide Counters, Shapes, Shutdown;
    ReplyCount(db, s.history);
    var at, offset := NoErrorIffCommitted(db, s.history, id);
    hide SettledOps, CommittedOps, Replay, InFlight, Queued;
    InCommittedOps(s.history, at, offset);
    ReplayIsSequential(db, s.history);
    assert s.accepted[..|SettledOps(s.history)|] == SettledOps(s.history);
    assert SettledOps(s.history)[id] == s.accepted[id];
  }

  lemma {:induction false} InCommittedOps<Db>(history: seq<Batch<Db>>, at: nat, offset: nat)
    requires at < |history| && offset < |history[at].ops| && history[at].fate == Committed
    ensures history[at].ops[offset] in CommittedOps(history)
  {
    if at < |history| - 1 {
      InCommittedOps(history[..|history| - 1], at, offset);
    }
  }

  /** When the marker of `flush` has a reply, everything submitted before it has one too. */
  lemma FlushCoversEarlier<Db>(db: Db, run: seq<Event<Db>>, later: seq<Event<Db>>, marker: nat)
    requires Legal(Init(db), run) && Legal(Run(Init(db), run), later)
    requires marker == |Run(Init(db), run).accepted|
    requires marker < |Run(Run(Init(db), run), later).replies|
    ensures Run(Init(db), run).accepted <= SettledOps(Run(Run(Init(db), run), later).history)
  {
    RefinesLog(db, run);
    var s := Run(Init(db), run);
    AcceptedGrows(db, s, later);
    var t := Run(s, later);
    ReplyCount(db, t.history);
    assert SettledOps(t.history) <= t.accepted;
  }

  ghost predicate Grown<Db>(s: State<Db>, t: State<Db>) {
    s.history <= t.history && s.replies <= t.replies && s.accepted <= t.accepted
  }

  lemma {:induction false} StepGrows<Db>(s: State<Db>, e: Event<Db>)
    requires Enabled(s, e)
    ensures Grown(s, Step(s, e))
  {
    hide CountValues, UndoneAll, Refused;
  }

  lemma {:induction false} AcceptedGrows<Db>(db: Db, s: State<Db>, run: seq<Event<Db>>)
    requires Inv(db, s) && Legal(s, run)
    ensures Inv(db, Run(s, run)) && s.accepted <= Run(s, run).accepted
  {
    hide Inv, Step, Enabled;
    if run != [] {
      var n := |run| - 1;
      AcceptedGrows(db, s, run[..n]);
      InvStep(db, Run(s, run[..n]), run[n]);
      StepGrows(Run(s, run[..n]), run[n]);
    }
  }

  // ---------------------------------------------------------------------------------------------
  // Failed transactions

  lemma {:induction false} SettledLast<Db>(history: seq<Batch<Db>>, batch: Batch<Db>)
    ensures SettledOps(history + [batch]) == SettledOps(history) + batch.ops
  {
    assert (history + [batch])[..|history|] == history;
  }

  lemma {:induction false} SettledConcat<Db>(a: seq<Batch<Db>>, b: seq<Batch<Db>>)
    ensures SettledOps(a + b) == SettledOps(a) + SettledOps(b)
    decreases |b|
  {
    if b == [] {
      assert a + b == a;
    } else {
      hide SettledOps;
      var front, last := b[..|b| - 1], b[|b| - 1];
      SettledConcat(a, front);
      assert a + b == a + front + [last] && b == front + [last];
      SettledLast(a + front, last);
      SettledLast(front, last);
    }
  }

  /** What has been written to the log stays in it. */
  lemma {:induction false} LogGrows<Db>(db: Db, s: State<Db>, run: seq<Event<Db>>)
    requires Ledger(db, s) && Legal(s, run)
    ensures Ledger(db, Run(s, run)) && Grown(s, Run(s, run))
  {
    hide Ledger, Step, Enabled;
    if run != [] {
      var n := |run| - 1;
      LogGrows(db, s, run[..n]);
      LedgerStep(db, Run(s, run[..n]), run[n]);
      StepGrows(Run(s, run[..n]), run[n]);
    }
  }

  /** A committed operation stands in a committed batch, at the place that is its number. */
  lemma {:induction false} CommittedAt<Db>(history: seq<Batch<Db>>, op: Op<Db>) returns (at: nat, offset: nat)
    requires op in CommittedOps(history)
    ensures at < |history| && history[at].fate == Committed
    ensures offset < |history[at].ops| && history[at].ops[offset] == op
    ensures var place := |SettledOps(history[..at])| + offset;
      place < |SettledOps(history)| && SettledOps(history)[place] == op
  {
    var n := |history| - 1;
    if op in CommittedOps(history[..n]) {
      at, offset := CommittedAt(history[..n], op);
      assert history[..n][..at] == history[..at];
    } else {
      at := n;
      offset :| 0 <= offset < |history[n].ops| && history[n].ops[offset] == op;
    }
  }

  lemma PlaceOf<Db>(history: seq<Batch<Db>>, at: nat)
    requires at < |history|
    ensures |SettledOps(history[..at])| + |history[at].ops| == |SettledOps(history[..at + 1])|
    ensures forall b :: at < b <= |history| ==> |SettledOps(history[..at + 1])| <= |SettledOps(history[..b])|
  {
    assert history[..at + 1][..at] == history[..at];
    forall b | at < b <= |history| ensures |SettledOps(history[..at + 1])| <= |SettledOps(history[..b])| {
      assert history[..b] == history[..at + 1] + history[at + 1..b];
      SettledConcat(history[..at + 1], history[at + 1..b]);
    }
  }

  /** No operation of a batch that did not commit is ever among the committed ones. */
  lemma NotAmongCommitted<Db>(s: State<Db>, h: nat, op: Op<Db>)
    requires Fifo(s) && h < |s.history| && s.history[h].fate != Committed && op in CommittedOps(s.history)
    ensures var first := |SettledOps(s.history[..h])|;
      !(first <= op.id < first + |s.history[h].ops|)
  {
    var at, offset := CommittedAt(s.history, op);
    assert s.accepted[|SettledOps(s.history[..at])| + offset] == op;
    PlaceOf(s.history, at);
    PlaceOf(s.history, h);
  }

  /** The operations of a settled batch are those that were accepted at its place. */
  lemma BatchInOrder<Db>(s: State<Db>, h: nat)
    requires Fifo(s) && h < |s.history|
    ensures var first := |SettledOps(s.history[..h])|;
      var next := first + |s.history[h].ops|;
      next <= |s.accepted| && s.accepted[first..next] == s.history[h].ops
  {
    var before, batch, rest := SettledOps(s.history[..h]), s.history[h].ops, s.history[h + 1..];
    assert s.history == s.history[..h + 1] + rest && s.history[..h + 1][..h] == s.history[..h];
    SettledConcat(s.history[..h + 1], rest);
    assert SettledOps(s.history[..h + 1]) == before + batch;
    assert (before + batch)[|before|..] == batch;
  }

  lemma FailedStep<Db>(db: Db, s: State<Db>, e: Event<Db>)
    requires Inv(db, s) && Enabled(s, e) && (e.BeginFails? || e.CommitFails?)
    ensures var t := Step(s, e);
      && t.db == s.db && s.replies <= t.replies && |t.replies| == |s.replies| + |s.phase.batch|
      && (forall i :: |s.replies| <= i < |t.replies| ==> t.replies[i].Error?)
      && |t.history| == |s.history| + 1 && t.history[..|s.history|] == s.history
      && t.history[|s.history|].ops == s.phase.batch && t.history[|s.history|].fate != Committed
  {
    var added := if e.BeginFails? then Refused(|s.phase.batch|) else UndoneAll(s.phase.own);
    assert Step(s, e).replies == s.replies + added;
  }

  /** A batch of a longer log stays out of its committed operations, if it was not committed. */
  lemma {:induction false} StaysOut<Db>(end: State<Db>, h: nat, first: nat)
    requires Fifo(end) && h < |end.history| && end.history[h].fate != Committed
    requires first == |SettledOps(end.history[..h])|
    ensures var next := first + |end.history[h].ops|;
      && next <= |end.accepted| && end.accepted[first..next] == end.history[h].ops
      && (forall op :: op in CommittedOps(end.history) ==> !(first <= op.id < next))
  {
    hide Fifo, SettledOps, CommittedOps;
    BatchInOrder(end, h);
    forall op | op in CommittedOps(end.history)
      ensures !(first <= op.id < first + |end.history[h].ops|)
    {
      NotAmongCommitted(end, h, op);
    }
  }

  lemma {:induction false} FailedSince<Db>(db: Db, s: State<Db>, e: Event<Db>, end: State<Db>)
    requires Inv(db, s) && Enabled(s, e) && (e.BeginFails? || e.CommitFails?)
    requires Fifo(end) && Step(s, e).history <= end.history
    ensures var first, next := |s.replies|, |s.replies| + |s.phase.batch|;
      && next <= |end.accepted| && end.accepted[first..next] == s.phase.batch
      && (forall op :: op in CommittedOps(end.history) ==> !(first <= op.id < next))
  {
    hide Step, Enabled, Fifo, SettledOps, CommittedOps, Counters, Shapes, Shutdown, ReplayReplies, Replay;
    FailedStep(db, s, e);
    ReplyCount(db, s.history);
    var h := |s.history|;
    assert end.history[..h] == Step(s, e).history[..h] && end.history[h] == Step(s, e).history[h];
    StaysOut(end, h, |s.replies|);
  }

  lemma {:induction false} FailedIn<Db>(db: Db, s: State<Db>, e: Event<Db>, end: State<Db>)
    requires Inv(db, s) && Enabled(s, e) && (e.BeginFails? || e.CommitFails?)
    requires Fifo(end) && Grown(Step(s, e), end)
    ensures var t := Step(s, e);
      var first, next := |s.replies|, |s.replies| + |s.phase.batch|;
      && t.db == s.db && |t.replies| == next && s.replies <= t.replies <= end.replies
      && (forall i :: first <= i < next ==> t.replies[i].Error?)
      && next <= |end.accepted| && end.accepted[first..next] == s.phase.batch
      && (forall op :: op in CommittedOps(end.history) ==> !(first <= op.id < next))
  {
    hide Inv, Step, Enabled, Fifo, CommittedOps;
    FailedStep(db, s, e);
    FailedSince(db, s, e, end);
  }

  /**
   A failed BEGIN or COMMIT, for good: the committed database is the one before the step, exactly the
   operations of that batch are answered, each with an error, and however the run goes on those
   replies stay and none of these operations is ever among the committed ones.
   */
  lemma {:induction false} FailedForGood<Db>(db: Db, run: seq<Event<Db>>, e: Event<Db>, later: seq<Event<Db>>)
    requires Legal(Init(db), run) && Enabled(Run(Init(db), run), e) && (e.BeginFails? || e.CommitFails?)
    requires Legal(Step(Run(Init(db), run), e), later)
    ensures var s, t := Run(Init(db), run), Step(Run(Init(db), run), e);
      var end := Run(t, later);
      var first, next := |s.replies|, |s.replies| + |s.phase.batch|;
      && t.db == s.db && |t.replies| == next && s.replies <= t.replies <= end.replies
      && (forall i :: first <= i < next ==> t.replies[i].Error?)
      && next <= |end.accepted| && end.accepted[first..next] == s.phase.batch
      && (forall op :: op in CommittedOps(end.history) ==> !(first <= op.id < next))
  {
    hide Legal, Run, Enabled, Step, Fifo, Ledger, Counters, Shapes, Shutdown, CommittedOps, Grown, Init;
    var s := Run(Init(db), run);
    RefinesLog(db, run);
    InvStep(db, s, e);
    AcceptedGrows(db, Step(s, e), later);
    LogGrows(db, Step(s, e), later);
    FailedIn(db, s, e, Run(Step(s, e), later));
  }
}
