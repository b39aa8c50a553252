/**
 `DbWriter` of onedriveui/data/writer.py: the object the producers and the thread share, its
 loops, and the proof that everything they do is a run of the step system in `WriterMachine`.

 The calls of other threads are the object's `schedule`: before each `queue.get` the next entry
 of it is performed.  When it is used up the application calls `stop`.
 */
module DbWriterThread {
  import opened Basics
  import opened WriterLog
  import opened WriterMachine

  datatype Call<!Db> = SubmitCall(urgent: bool, fn: Db -> Effect<Db>) | StopCall

  /** One submitted mutation and its result channel. */
  class WriteOp<Db> {
    const op: Op<Db>
    var result: int
    var error: Option<Fault>
    var done: bool

    constructor (op: Op<Db>)
      ensures this.op == op && error == None && !done
    {
      this.op := op;
      result, error, done := 0, None, false;
    }

    ghost function Reply(): Reply
      reads this
    {
      if error.Some? then Error(error.value) else Value(result)
    }
  }

  /** `w` is the object that was created for `op`. */
  ghost predicate Represents<Db>(ops: seq<WriteOp<Db>>, w: WriteOp<Db>, op: Op<Db>) {
    op.id < |ops| && w == ops[op.id] && w.op == op
  }

  ghost predicate SameQueue<Db>(ops: seq<WriteOp<Db>>, queue: seq<WriteOp?<Db>>, msgs: seq<Msg<Db>>) {
    && |queue| == |msgs|
    && forall i :: 0 <= i < |queue| ==>
         if msgs[i].Sentinel? then queue[i] == null
         else queue[i] != null && Represents(ops, queue[i], msgs[i].op)
  }

  /** `batch` is what the thread holds in flight. */
  ghost predicate Holds<Db>(ops: seq<WriteOp<Db>>, batch: seq<WriteOp<Db>>, phase: Phase<Db>) {
    && |batch| == |InFlight(phase)|
    && forall i :: 0 <= i < |batch| ==> Represents(ops, batch[i], InFlight(phase)[i])
  }

  /** The batch is the `settled`-th operation and the ones after it, each its own object. */
  ghost predicate Takes<Db>(ops: seq<WriteOp<Db>>, settled: nat, batch: seq<WriteOp<Db>>) {
    && settled + |batch| <= |ops|
    && batch == ops[settled..settled + |batch|]
  }

  /** The batch in flight has been settled, one way or another, and nothing else happened. */
  ghost predicate AppliedAs<Db>(before: State<Db>, after: State<Db>)
    requires before.phase.Ready?
  {
    && after.phase == AfterBatch(before.phase.final)
    && |after.history| == |before.history| + 1
    && after.history[..|before.history|] == before.history
    && after.history[|before.history|].ops == before.phase.batch
    && after.queue == before.queue && after.accepted == before.accepted
  }

  /** However its transaction ends, the batch has been settled. */
  lemma AppliedAtEnd<Db>(before: State<Db>, s: State<Db>)
    requires before.phase.Ready? && s.phase.InTransaction? && Enabled(s, Commit)
    requires s == before.(phase := s.phase) && s.phase.batch == before.phase.batch
    requires s.phase.final == before.phase.final
    ensures AppliedAs(before, Step(s, Commit)) && AppliedAs(before, Step(s, CommitFails))
  {
    hide CountValues, UndoneAll;
  }

  class DbWriter<Db> {
    var queue: seq<WriteOp?<Db>>   // null is the sentinel
    var stopping: bool
    var running: bool              // `isRunning`, until the thread body has returned
    var db: Db
    var batches: nat
    var opsApplied: nat
    var opsFailed: nat
    var transactionErrors: nat
    var issued: nat                // numbers the operations, standing for their identity
    var schedule: seq<seq<Call<Db>>>

    ghost const start: Db
    ghost var run: seq<Event<Db>>
    ghost var state: State<Db>
    ghost var ops: seq<WriteOp<Db>>   // every accepted operation

    constructor (db: Db, schedule: seq<seq<Call<Db>>>)
      ensures Valid() && state == Init(db) && this.schedule == schedule && start == db && running
    {
      queue, stopping, running, this.db := [], false, true, db;
      batches, opsApplied, opsFailed, transactionErrors := 0, 0, 0, 0;
      issued, this.schedule := 0, schedule;
      start, run, state, ops := db, [], Init(db), [];
    }

    /** The state is the end of a legal run. */
    ghost predicate Linked()
      reads this
    {
      Legal(Init(start), run) && state == Run(Init(start), run)
    }

    /** Settled operations carry their reply; nothing has been reported from `clean` on. */
    ghost predicate Channels(clean: nat)
      reads this, ops
    {
      && |ops| == |state.accepted|
      && (forall i :: 0 <= i < |ops| ==> ops[i].op == state.accepted[i])
      && Distinct(ops)
      && |state.replies| <= |ops|
      && (forall i :: 0 <= i < |state.replies| ==>
            ops[i].done && ops[i].Reply() == state.replies[i])
      && (forall i :: clean <= i < |ops| ==> !ops[i].done && ops[i].error == None)
    }

    ghost predicate SameCounters()
      reads this
    {
      && batches == state.batches && transactionErrors == state.transactionErrors
      && opsApplied == state.opsApplied && opsFailed == state.opsFailed
    }

    ghost predicate Valid()
      reads this, ops
    {
      && Linked() && Channels(|state.replies|) && SameQueue(ops, queue, state.queue) && SameCounters()
      && stopping == state.stopping && db == state.db && issued == |ops|
      && (!running ==> state.phase.Exited?)
    }

    /** Record one step of the machine. */
    ghost method Take(e: Event<Db>)
      requires Linked() && Enabled(state, e)
      modifies this`run, this`state
      ensures Linked() && state == Step(old(state), e) && run == old(run) + [e]
    {
      run := Extend(Init(start), run, e);
      state := Step(state, e);
    }

    lemma Reachable()
      requires Linked()
      ensures Inv(start, state)
    {
      RefinesLog(start, run);
    }

    // -------------------------------------------------------------------------------------------
    // Producers

    /** In one life of the thread only a stop ends it. */
    lemma RunningUnlessStopped()
      requires Valid()
      ensures stopping || !state.phase.Exited?
    {
      Reachable();
    }

    /** Returns false where the source raises because the writer is stopping. */
    method Submit(urgent: bool, fn: Db -> Effect<Db>) returns (accepted: bool)
      requires Valid()
      modifies this`queue, this`issued, this`run, this`state, this`ops
      ensures Valid()
      ensures accepted == !old(stopping)
      ensures accepted ==> !old(state).phase.Exited?
      ensures accepted ==> state == Step(old(state), WriterMachine.Event.Submit(urgent, fn))
      ensures !accepted ==> state == old(state)
      ensures Grown(old(ops))
    {
      hide Legal, Run;
      RunningUnlessStopped();
      if stopping {
        return false;
      }
      var work := new WriteOp(Op(issued, urgent, fn));
      queue := queue + [work];
      issued, ops := issued + 1, ops + [work];
      Take(WriterMachine.Event.Submit(urgent, fn));
      return true;
    }

    /** `stop`, without its wait.  Only a running thread gets a sentinel. */
    method Stop()
      requires Valid()
      modifies this`stopping, this`queue, this`run, this`state
      ensures Valid() && stopping
      ensures state == if running then Step(Step(old(state), RequestStop), PutSentinel)
                       else Step(old(state), RequestStop)
    {
      hide Legal, Run;
      stopping := true;
      Take(RequestStop);
      if running {
        queue := queue + [null];
        Take(PutSentinel);
      }
    }

    /** What is left to do before the thread must have gone: schedule, then stop, then work. */
    ghost predicate CloserToExit(entries: nat, wasStopping: bool, remaining: int)
      reads this
    {
      || |schedule| < entries
      || (|schedule| == entries && stopping && !wasStopping)
      || (|schedule| == entries && stopping && wasStopping && Remaining(state) < remaining)
    }

    ghost predicate NoFurther(entries: nat, wasStopping: bool, remaining: int)
      reads this
    {
      || CloserToExit(entries, wasStopping, remaining)
      || (|schedule| == entries && stopping == wasStopping && Remaining(state) <= remaining)
    }

    /** The other threads, between two steps of the writer. */
    method OtherThreads()
      requires Valid()
      modifies this`queue, this`stopping, this`issued, this`schedule, this`run, this`state, this`ops
      ensures Valid()
      ensures state.phase == old(state.phase)
      ensures NoFurther(|old(schedule)|, old(stopping), Remaining(old(state)))
      ensures old(stopping) ==> stopping
      ensures CloserToExit(|old(schedule)|, old(stopping), Remaining(old(state)))
        || (schedule == [] && state == old(state) && stopping)
      ensures Grown(old(ops))
    {
      hide Legal, Run;
      if schedule == [] {
        if !stopping {
          Stop();
        }
        return;
      }
      var calls := schedule[0];
      schedule := schedule[1..];
      var i := 0;
      while i < |calls|
        invariant 0 <= i <= |calls| && Valid()
        invariant schedule == old(schedule)[1..]
        invariant state.phase == old(state.phase)
        invariant old(stopping) ==> stopping
        invariant Grown(old(ops))
      {
        match calls[i] {
          case SubmitCall(urgent, fn) =>
            var accepted := Submit(urgent, fn);
          case StopCall =>
            Stop();
        }
        i := i + 1;
      }
    }

    // -------------------------------------------------------------------------------------------
    // The thread

    /** `None` means leave; an empty batch means that nothing arrived. */
    method Collect() returns (batch: Option<seq<WriteOp<Db>>>)
      requires Valid() && state.phase.Idle?
      modifies this`queue, this`stopping, this`issued, this`schedule, this`run, this`state, this`ops
      ensures Valid()
      ensures batch == None ==> state.phase == Draining([])
      ensures batch == Some([]) ==> state.phase.Idle?
      ensures batch.Some? && batch.value != [] ==>
        state.phase.Ready? && !state.phase.final && Holds(ops, batch.value, state.phase) && Collected(state.phase.batch)
      ensures CloserToExit(|old(schedule)|, old(stopping), Remaining(old(state)))
      ensures Grown(old(ops))
    {
      var empty, first := QueueGet(false);
      if empty {
        batch := NothingArrived();
        return;
      }
      if first == null {
        return None;
      }
      var got: seq<WriteOp<Db>> := [first];
      if !first.op.urgent {
        got := CollectMore(got);
      }
      CollectedNow();
      return Some(got);
    }

    /** `queue.get` with a timeout; `empty` is the exception. */
    method QueueGet(gathering: bool) returns (empty: bool, item: WriteOp?<Db>)
      requires Valid()
      requires if gathering then state.phase.Gathering? && |state.phase.batch| < MAX_BATCH else state.phase.Idle?
      modifies this`queue, this`stopping, this`issued, this`schedule, this`run, this`state, this`ops
      ensures Valid()
      ensures empty ==> queue == [] && state.phase == old(state.phase)
      ensures !empty && item == null ==>
        state.phase == if gathering then Ready(InFlight(old(state.phase)), false) else Draining([])
      ensures !empty && item != null ==>
        && state.phase == (var batch := InFlight(old(state.phase)) + [item.op];
                           if item.op.urgent then Ready(batch, false) else Gathering(batch))
        && Represents(ops, item, item.op)
      ensures NoFurther(|old(schedule)|, old(stopping), Remaining(old(state)))
      ensures CloserToExit(|old(schedule)|, old(stopping), Remaining(old(state)))
        || (empty && schedule == [] && stopping && state == old(state))
      ensures Grown(old(ops))
    {
      hide Legal, Run;
      OtherThreads();
      if queue == [] {
        return true, null;
      }
      empty := false;
      item := TakeItem(gathering);
    }

    method NothingArrived() returns (batch: Option<seq<WriteOp<Db>>>)
      requires Valid() && state.phase.Idle? && queue == []
      modifies this`queue, this`stopping, this`issued, this`schedule, this`run, this`state, this`ops
      ensures Valid()
      ensures batch == if old(schedule) == [] || stopping then None else Some([])
      ensures state.phase == if batch == None then Draining([]) else Idle
      ensures CloserToExit(|old(schedule)|, old(stopping), Remaining(old(state)))
      ensures Grown(old(ops))
    {
      hide Legal, Run;
      StepBound(GetTimesOut);
      Take(GetTimesOut);
      OtherThreads();
      StepBound(CheckStop);
      Take(CheckStop);
      return if stopping then None else Some([]);
    }

    /** The batch window: more operations until it closes, the queue is quiet or one is urgent. */
    method CollectMore(first: seq<WriteOp<Db>>) returns (got: seq<WriteOp<Db>>)
      requires Valid() && state.phase.Gathering? && Holds(ops, first, state.phase) && 1 <= |first| <= MAX_BATCH
      modifies this`queue, this`stopping, this`issued, this`schedule, this`run, this`state, this`ops
      ensures Valid() && state.phase.Ready? && !state.phase.final && Holds(ops, got, state.phase) && first <= got
      ensures NoFurther(|old(schedule)|, old(stopping), Remaining(old(state)))
      ensures Grown(old(ops))
    {
      hide Holds, Legal, Run, Remaining;
      got := first;
      var open := true;
      while open && |got| < MAX_BATCH
        invariant Valid() && Holds(ops, got, state.phase) && first <= got && |got| <= MAX_BATCH
        invariant if open then state.phase.Gathering? else state.phase.Ready? && !state.phase.final
        invariant NoFurther(|old(schedule)|, old(stopping), Remaining(old(state)))
        invariant Grown(old(ops))
        decreases open, MAX_BATCH - |got|
      {
        got, open := GatherOne(got);
      }
      if open {
        EndWindow(got);
      }
    }

    /** One turn of the batch window; `open` says whether the window is still open after it. */
    method GatherOne(got: seq<WriteOp<Db>>) returns (more: seq<WriteOp<Db>>, open: bool)
      requires Valid() && state.phase.Gathering? && Holds(ops, got, state.phase) && |got| < MAX_BATCH
      modifies this`queue, this`stopping, this`issued, this`schedule, this`run, this`state, this`ops
      ensures Valid() && Holds(ops, more, state.phase) && got <= more && |more| <= |got| + 1
      ensures open ==> state.phase.Gathering? && |more| == |got| + 1
      ensures !open ==> state.phase.Ready? && !state.phase.final
      ensures NoFurther(|old(schedule)|, old(stopping), Remaining(old(state)))
      ensures Grown(old(ops))
    {
      hide Legal, Run;
      more, open := got, false;
      var expired: bool := *;
      if !expired {
        var empty, item := QueueGet(true);
        if !empty {
          if item != null {
            more, open := got + [item], !item.op.urgent;
          }
          return;
        }
      }
      EndWindow(got);
    }

    ghost method EndWindow(got: seq<WriteOp<Db>>)
      requires Valid() && state.phase.Gathering? && Holds(ops, got, state.phase)
      modifies this`run, this`state
      ensures Valid() && state.phase.Ready? && !state.phase.final && Holds(ops, got, state.phase)
      ensures Remaining(state) <= Remaining(old(state))
      ensures stopping ==> Remaining(state) < Remaining(old(state))
    {
      StepBound(CloseWindow);
      Take(CloseWindow);
    }

    twostate predicate Grown(before: seq<WriteOp<Db>>)
      reads this
    {
      before <= ops && forall i :: |before| <= i < |ops| ==> fresh(ops[i])
    }

    lemma CollectedNow()
      requires Linked()
      ensures state.phase.Ready? && !state.phase.final ==> Collected(state.phase.batch)
    {
      Reachable();
    }

    /** `queue.get` on a queue that has an entry; in the batch window a sentinel is put back. */
    method TakeItem(gathering: bool) returns (item: WriteOp?<Db>)
      requires Valid() && Enabled(state, Get) && gathering == state.phase.Gathering?
      modifies this`queue, this`stopping, this`run, this`state
      ensures Valid()
      ensures item == old(queue)[0]
      ensures state == Step(old(state), Get)
      ensures item == null <==> old(state).queue[0].Sentinel?
      ensures item != null ==> Represents(ops, item, old(state).queue[0].op)
      ensures old(stopping) ==> stopping && Remaining(state) < Remaining(old(state))
    {
      hide Legal, Run, Remaining;
      item := queue[0];
      queue := queue[1..];
      StepBound(Get);
      Take(Get);
      if item == null && gathering {
        stopping := true;
        queue := queue + [null];
      }
    }

    lemma StepBound(e: Event<Db>)
      requires Linked() && Enabled(state, e) && IsThreadEvent(e)
      ensures state.stopping ==>
        Step(state, e).stopping && Remaining(Step(state, e)) < Remaining(state)
    {
      if state.stopping {
        StoppingStep(state, e);
      }
    }

    lemma BatchTakes(batch: seq<WriteOp<Db>>)
      requires Valid() && Holds(ops, batch, state.phase)
      ensures Takes(ops, |state.replies|, batch)
    {
      ReachedIds(start, run, state);
    }

    /** BEGIN and every operation of the batch, as machine steps. */
    ghost method TakeTransaction()
      requires Linked() && state.phase.Ready?
      modifies this`run, this`state
      ensures Linked()
      ensures state.phase.InTransaction?
      ensures state == old(state).(phase := InTransaction(
        old(state).phase.batch, old(state).phase.final,
        DbAfter(state.db, old(state).phase.batch), OwnReplies(state.db, old(state).phase.batch)))
      ensures old(state).stopping ==> Remaining(state) < Remaining(old(state))
    {
      StepBound(Begin);
      Take(Begin);
      while |state.phase.own| < |state.phase.batch|
        invariant Linked() && state.phase.InTransaction?
        invariant state == old(state).(phase := state.phase)
        invariant state.phase.batch == old(state).phase.batch
        invariant state.phase.final == old(state).phase.final
        invariant |state.phase.own| <= |state.phase.batch|
        invariant old(state).stopping ==> Remaining(state) < Remaining(old(state))
        decreases |state.phase.batch| - |state.phase.own|
      {
        StepBound(RunNext);
        Take(RunNext);
      }
      Reachable();
      WholeBatchRun(start, state);
    }

    /** No operation before or after the batch is in it. */
    lemma OutsideBatch(batch: seq<WriteOp<Db>>)
      requires Distinct(ops) && Takes(ops, |state.replies|, batch)
      ensures forall i :: 0 <= i < |state.replies| ==> ops[i] !in batch
      ensures forall i :: |state.replies| + |batch| <= i < |ops| ==> ops[i] !in batch
      ensures Distinct(batch)
    {
      forall i, w | 0 <= i < |ops| && w in batch && w == ops[i]
        ensures |state.replies| <= i < |state.replies| + |batch|
      {
        var j :| 0 <= j < |batch| && batch[j] == w;
        assert ops[|state.replies| + j] == ops[i];
      }
    }

    /** Once the batch has its replies, every channel is in order again. */
    lemma ChannelsSettled(batch: seq<WriteOp<Db>>, before: State<Db>, replies: seq<Reply>)
      requires state.replies == before.replies + replies && state.accepted == before.accepted
      requires |ops| == |before.accepted| && Distinct(ops)
      requires forall i :: 0 <= i < |ops| ==> ops[i].op == before.accepted[i]
      requires Takes(ops, |before.replies|, batch)
      requires forall i :: 0 <= i < |before.replies| ==>
        ops[i].done && ops[i].Reply() == before.replies[i]
      requires forall i :: |before.replies| + |batch| <= i < |ops| ==> !ops[i].done && ops[i].error == None
      requires Answered(batch, replies) && AllDone(batch, true)
      ensures Channels(|state.replies|)
    {
      var n := |before.replies|;
      forall i | n <= i < |state.replies|
        ensures ops[i].done && ops[i].Reply() == state.replies[i]
      {
        assert ops[i] == batch[i - n] && state.replies[i] == replies[i - n];
      }
    }

    /** Run one batch inside a single transaction, then release its waiters. */
    method Apply(batch: seq<WriteOp<Db>>)
      requires Valid() && state.phase.Ready? && Holds(ops, batch, state.phase)
      modifies this`db, this`batches, this`opsApplied, this`opsFailed, this`transactionErrors
      modifies this`run, this`state, batch
      ensures Valid() && AppliedAs(old(state), state)
      ensures stopping ==> Remaining(state) < Remaining(old(state))
    {
      BatchTakes(batch);
      var beginFails: bool := *;
      if beginFails {
        CannotBegin(batch);
      } else {
        RunTransaction(batch);
      }
    }

    method CannotBegin(batch: seq<WriteOp<Db>>)
      requires Valid() && state.phase.Ready? && Takes(ops, |state.replies|, batch) && Specs(batch) == state.phase.batch
      modifies this`transactionErrors, this`run, this`state, batch
      ensures Valid() && state == Step(old(state), BeginFails)
      ensures stopping ==> Remaining(state) < Remaining(old(state))
    {
      OutsideBatch(batch);
      transactionErrors := transactionErrors + 1;
      ghost var replies := Refused(|batch|);
      ErrorAll(batch, replies);
      StepBound(BeginFails);
      Take(BeginFails);
      ChannelsSettled(batch, old(state), replies);
    }

    method RunTransaction(batch: seq<WriteOp<Db>>)
      requires Valid() && state.phase.Ready? && Takes(ops, |state.replies|, batch) && Specs(batch) == state.phase.batch
      modifies this`db, this`batches, this`opsApplied, this`opsFailed, this`transactionErrors
      modifies this`run, this`state, batch
      ensures Valid() && AppliedAs(old(state), state)
      ensures stopping ==> Remaining(state) < Remaining(old(state))
    {
      hide Remaining, CountValues, DbAfter, OwnReplies, AppliedAs, Step;
      TakeTransaction();
      OutsideBatch(batch);
      var work, applied, failed := RunAll(db, batch);
      StepBound(Commit);
      StepBound(CommitFails);
      AppliedAtEnd(old(state), state);
      Finish(batch, work, applied, failed);
    }

    /** COMMIT, or ROLLBACK of the whole batch, then the counters, then the waiters. */
    method Finish(batch: seq<WriteOp<Db>>, work: Db, applied: nat, failed: nat)
      requires BatchRan(batch, work)
      requires Answered(batch, state.phase.own) && AllDone(batch, false)
      requires applied == CountValues(state.phase.own) && applied + failed == |batch|
      requires db == state.db && SameCounters()
      modifies this`db, this`batches, this`opsApplied, this`opsFailed, this`transactionErrors
      modifies this`run, this`state, batch
      ensures Valid()
      ensures state == Step(old(state), Commit) || state == Step(old(state), CommitFails)
    {
      var commitFails: bool := *;
      if commitFails {
        RollBack(batch, applied, failed);
      } else {
        db := work;
        EndOfTransaction(state, Commit, state.phase.own);
        Conclude(batch, applied, failed, state.phase.own, Commit, Step(state, Commit));
      }
    }

    method RollBack(batch: seq<WriteOp<Db>>, applied: nat, failed: nat)
      requires state.phase.InTransaction? && BatchRan(batch, state.phase.work)
      requires Answered(batch, state.phase.own) && AllDone(batch, false)
      requires applied == CountValues(state.phase.own) && applied + failed == |batch|
      requires db == state.db && SameCounters()
      modifies this`batches, this`opsApplied, this`opsFailed, this`transactionErrors
      modifies this`run, this`state, batch
      ensures Valid() && state == Step(old(state), CommitFails)
    {
      hide CountValues;
      transactionErrors := transactionErrors + 1;
      OutsideBatch(batch);
      var good, bad, undone := Undo(batch, applied, failed, state.phase.own);
      CountNone(undone);
      EndOfTransaction(state, CommitFails, undone);
      Conclude(batch, good, bad, undone, CommitFails, Step(state, CommitFails));
    }

    /** All operations of the batch have run on `work`, and nothing is settled yet. */
    ghost predicate BatchRan(batch: seq<WriteOp<Db>>, work: Db)
      reads this, ops
    {
      && Linked() && Enabled(state, Commit) && work == state.phase.work
      && |state.phase.batch| == |batch| && Takes(ops, |state.replies|, batch)
      && Channels(|state.replies| + |batch|) && SameQueue(ops, queue, state.queue)
      && stopping == state.stopping && issued == |ops| && running
    }

    method Conclude(batch: seq<WriteOp<Db>>, good: int, bad: nat, ghost replies: seq<Reply>,
                    ghost end: Event<Db>, ghost after: State<Db>)
      requires state.phase.InTransaction? && BatchRan(batch, state.phase.work)
      requires IsThreadEvent(end) && Enabled(state, end) && after == Step(state, end)
      requires after.replies == state.replies + replies && after.accepted == state.accepted
      requires after.queue == state.queue && after.stopping == stopping
      requires after.db == db && after.transactionErrors == transactionErrors
      requires after.batches == batches + 1
      requires after.opsApplied == opsApplied + if good > 0 then good else 0
      requires after.opsFailed == opsFailed + bad
      requires Answered(batch, replies)
      modifies this`batches, this`opsApplied, this`opsFailed, this`run, this`state, batch
      ensures Valid() && state == after
    {
      hide SameQueue, Enabled, Step, IsThreadEvent, CountValues;
      OutsideBatch(batch);
      batches := batches + 1;
      opsApplied := opsApplied + if good > 0 then good else 0;
      opsFailed := opsFailed + bad;
      Release(batch, replies);
      Take(end);
      ChannelsSettled(batch, old(state), replies);
    }

    /** Apply whatever is still queued, in one last batch. */
    method DrainRemaining()
      requires Valid() && state.phase == Draining([])
      modifies this, set w | w in ops
      ensures Valid() && state.phase.Exited? && Grown(old(ops))
    {
      var leftovers := DrainQueue();
      if leftovers != [] {
        Apply(leftovers);
      }
    }

    method DrainQueue() returns (leftovers: seq<WriteOp<Db>>)
      requires Valid() && state.phase == Draining([])
      modifies this
      ensures Valid() && Grown(old(ops))
      ensures if leftovers == [] then state.phase.Exited?
              else state.phase.Ready? && state.phase.final && Holds(ops, leftovers, state.phase)
    {
      hide Legal, Run, SameCounters, Channels;
      leftovers := [];
      while true
        invariant Valid() && state.phase.Draining? && Holds(ops, leftovers, state.phase)
        invariant Grown(old(ops))
        decreases |schedule|, !stopping, Remaining(state)
      {
        OtherThreads();
        if queue == [] {
          EndDrain();
          return;
        }
        leftovers := DrainOne(leftovers);
      }
    }

    ghost method EndDrain()
      requires Valid() && state.phase.Draining? && queue == []
      modifies this`run, this`state
      ensures Valid() && state == Step(old(state), DrainEnds)
    {
      Take(DrainEnds);
    }

    method DrainOne(leftovers: seq<WriteOp<Db>>) returns (more: seq<WriteOp<Db>>)
      requires Valid() && state.phase.Draining? && Holds(ops, leftovers, state.phase) && queue != []
      modifies this`queue, this`run, this`state
      ensures Valid() && state.phase.Draining? && Holds(ops, more, state.phase)
      ensures stopping ==> Remaining(state) < Remaining(old(state))
    {
      hide Valid, Remaining, Legal, Run;
      more := leftovers;
      var item := TakeDrained();
      if item != null {
        more := more + [item];
      }
    }

    /** `get_nowait` after the thread was told to leave. */
    method TakeDrained() returns (item: WriteOp?<Db>)
      requires Valid() && state.phase.Draining? && queue != []
      modifies this`queue, this`run, this`state
      ensures Valid() && item == old(queue)[0]
      ensures Enabled(old(state), DrainGet) && state == Step(old(state), DrainGet)
      ensures item == null <==> old(state).queue[0].Sentinel?
      ensures item != null ==> Represents(ops, item, old(state).queue[0].op)
      ensures stopping ==> Remaining(state) < Remaining(old(state))
    {
      hide Legal, Run, Remaining;
      item := queue[0];
      queue := queue[1..];
      StepBound(DrainGet);
      Take(DrainGet);
    }

    /** One turn of the thread's loop: collect a batch and, if there is one, apply it. */
    method OneBatch() returns (leave: bool)
      requires Valid() && state.phase.Idle?
      modifies this, set w | w in ops
      ensures Valid() && Grown(old(ops))
      ensures leave ==> state.phase == Draining([])
      ensures !leave ==>
        state.phase.Idle? && CloserToExit(|old(schedule)|, old(stopping), Remaining(old(state)))
    {
      var batch := Collect();
      if batch == None {
        return true;
      }
      leave := false;
      if batch.value != [] {
        Apply(batch.value);
      }
    }

    /** The thread body: batches until it is told to leave, then the last batch. */
    method ThreadBody()
      requires Valid() && state.phase.Idle?
      modifies this, set w | w in ops
      ensures Valid() && state.phase.Exited? && !running
      ensures stopping && forall i :: 0 <= i < |queue| ==> queue[i] == null
      ensures old(ops) <= ops && forall i :: 0 <= i < |ops| ==> ops[i].done
    {
      while true
        invariant Valid() && state.phase.Idle?
        invariant Grown(old(ops))
        decreases |schedule|, !stopping, Remaining(state)
      {
        var leave := OneBatch();
        if leave {
          break;
        }
      }
      DrainRemaining();
      AllSettled();
      running := false;
    }

    lemma AllSettled()
      requires Valid() && state.phase.Exited?
      ensures stopping && |state.replies| == |ops|
      ensures forall i :: 0 <= i < |queue| ==> queue[i] == null
    {
      Reachable();
      ExitLosesNothing(start, state);
      OnlySentinels(state.queue);
    }
  }

  ghost function Specs<Db>(batch: seq<WriteOp<Db>>): seq<Op<Db>> {
    seq(|batch|, i requires 0 <= i < |batch| => batch[i].op)
  }

  ghost predicate Distinct<Db>(batch: seq<WriteOp<Db>>) {
    forall i, j :: 0 <= i < j < |batch| ==> batch[i] != batch[j]
  }

  ghost predicate Answered<Db>(batch: seq<WriteOp<Db>>, replies: seq<Reply>)
    reads batch
  {
    |replies| == |batch| && forall j :: 0 <= j < |batch| ==> batch[j].Reply() == replies[j]
  }

  ghost predicate AllDone<Db>(batch: seq<WriteOp<Db>>, done: bool)
    reads batch
  {
    forall j :: 0 <= j < |batch| ==> batch[j].done == done
  }

  /** No transaction could be started: every operation gets the error and is released. */
  method ErrorAll<Db>(batch: seq<WriteOp<Db>>, ghost replies: seq<Reply>)
    requires replies == Refused(|batch|)
    modifies batch
    ensures Answered(batch, replies)
    ensures AllDone(batch, true)
  {
    var i := 0;
    while i < |batch|
      invariant 0 <= i <= |batch|
      invariant forall j :: 0 <= j < i ==> batch[j].error == Some(BeginFailed) && batch[j].done
    {
      batch[i].error := Some(BeginFailed);
      batch[i].done := true;
      i := i + 1;
    }
  }

  /** Every operation runs on the open transaction; a failing one keeps its effects. */
  method RunAll<Db>(db: Db, batch: seq<WriteOp<Db>>) returns (work: Db, applied: nat, failed: nat)
    requires Distinct(batch) && AllDone(batch, false)
    requires forall j :: 0 <= j < |batch| ==> batch[j].error == None
    modifies batch
    ensures work == DbAfter(db, Specs(batch))
    ensures Answered(batch, OwnReplies(db, Specs(batch)))
    ensures applied == CountValues(OwnReplies(db, Specs(batch))) && applied + failed == |batch|
    ensures AllDone(batch, false)
  {
    work, applied, failed := db, 0, 0;
    NothingYet(db, Specs(batch));
    hide DbAfter, CountValues, OwnReplies;
    ghost var ops := Specs(batch);
    ghost var own := OwnReplies(db, ops);
    var i := 0;
    while i < |batch|
      invariant 0 <= i <= |batch|
      invariant work == DbAfter(db, ops[..i])
      invariant forall j :: 0 <= j < i ==> batch[j].Reply() == own[j]
      invariant forall j :: i <= j < |batch| ==> batch[j].error == None
      invariant AllDone(batch, false)
      invariant applied == CountValues(own[..i]) && applied + failed == i
    {
      NextReply(db, ops, i);
      var good;
      work, good := RunOne(work, batch[i]);
      applied, failed := if good then applied + 1 else applied, if good then failed else failed + 1;
      i := i + 1;
    }
    assert own[..|batch|] == own && ops[..|batch|] == ops;
  }

  /** One operation: its result, or the exception it raised. */
  method RunOne<Db>(db: Db, w: WriteOp<Db>) returns (work: Db, good: bool)
    requires w.error == None
    modifies w`result, w`error
    ensures work == w.op.fn(db).db && w.Reply() == w.op.fn(db).reply && good == w.Reply().Value?
  {
    var effect := w.op.fn(db);
    work, good := effect.db, effect.reply.Value?;
    match effect.reply {
      case Value(v) => w.result := v;
      case Error(fault) => w.error := Some(fault);
    }
  }

  lemma NothingYet<Db>(db: Db, ops: seq<Op<Db>>)
    ensures DbAfter(db, ops[..0]) == db && CountValues(OwnReplies(db, ops)[..0]) == 0
    ensures |OwnReplies(db, ops)| == |ops|
  {
  }

  /** What the next operation of a transaction does to the database and reports. */
  lemma NextReply<Db>(db: Db, ops: seq<Op<Db>>, i: nat)
    requires i < |ops|
    ensures var own, effect := OwnReplies(db, ops), ops[i].fn(DbAfter(db, ops[..i]));
      && DbAfter(db, ops[..i + 1]) == effect.db && own[i] == effect.reply
      && CountValues(own[..i + 1]) == CountValues(own[..i]) + if effect.reply.Value? then 1 else 0
  {
    var own := OwnReplies(db, ops);
    assert own[..i + 1][..i] == own[..i];
    assert ops[..i + 1][..i] == ops[..i];
  }

  /** A failed COMMIT reports itself to every operation that had succeeded. */
  method Undo<Db>(batch: seq<WriteOp<Db>>, applied: nat, failed: nat, ghost own: seq<Reply>)
    returns (good: int, bad: int, ghost undone: seq<Reply>)
    requires Distinct(batch) && Answered(batch, own) && AllDone(batch, false)
    requires applied == CountValues(own) && applied + failed == |batch|
    modifies batch
    ensures undone == UndoneAll(own)
    ensures Answered(batch, undone)
    ensures AllDone(batch, false)
    ensures good == 0 && bad == |batch|
  {
    good, bad := applied, failed;
    undone := UndoneAll(own);
    var i := 0;
    while i < |batch|
      invariant 0 <= i <= |batch|
      invariant forall j :: 0 <= j < i ==> batch[j].Reply() == Undone(own[j])
      invariant forall j :: i <= j < |batch| ==> batch[j].Reply() == own[j]
      invariant AllDone(batch, false)
      invariant good == applied - CountValues(own[..i]) && bad == failed + CountValues(own[..i])
    {
      assert own[..i + 1][..i] == own[..i];
      if batch[i].error == None {
        batch[i].error := Some(CommitFailed);
        good, bad := good - 1, bad + 1;
      }
      i := i + 1;
    }
    assert own[..|batch|] == own;
  }

  /** Wake every waiter. */
  method Release<Db>(batch: seq<WriteOp<Db>>, ghost replies: seq<Reply>)
    requires Answered(batch, replies)
    modifies batch
    ensures AllDone(batch, true) && Answered(batch, replies)
  {
    var i := 0;
    while i < |batch|
      invariant 0 <= i <= |batch|
      invariant forall j :: 0 <= j < i ==> batch[j].done
      invariant Answered(batch, replies)
    {
      batch[i].done := true;
      i := i + 1;
    }
  }
}
