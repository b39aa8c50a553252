/**
 `IOPool` of onedriveui/platform/iopool.py: admission by kind, retirement and cancellation, as the
 GUI thread performs them.  What a worker does between a task's start and its `retired` signal is
 not part of the object.
 */
module IoPool {
  /** The concurrency classes of the table, and any other name. */
  datatype Kind =
    | Hydrate | CacheScan | Evict | Preflight | Kfm | Thumbnail | TreeSize | Rc
    | Unlisted(name: string)

  function KindLimit(kind: Kind, maxThreads: nat): nat {
    match kind
    case Hydrate => 3
    case CacheScan | Evict | Preflight | Kfm | TreeSize => 1
    case Thumbnail | Rc => 2
    case Unlisted(_) => maxThreads
  }

  class CancelToken {
    var cancelled: bool

    constructor ()
      ensures !cancelled
    {
      cancelled := false;
    }

    method Cancel()
      modifies this
      ensures cancelled
    {
      cancelled := true;
    }
  }

  datatype Task = Task(id: nat, kind: Kind, token: CancelToken)

  // ---------------------------------------------------------------------------------------------
  // Counting tasks by kind

  function OfKind(tasks: set<Task>, kind: Kind): set<Task> {
    set t | t in tasks && t.kind == kind
  }

  lemma OfKindAdd(tasks: set<Task>, task: Task, kind: Kind)
    requires task !in tasks
    ensures |OfKind(tasks + {task}, kind)| == |OfKind(tasks, kind)| + if task.kind == kind then 1 else 0
  {
    if task.kind == kind {
      assert OfKind(tasks + {task}, kind) == OfKind(tasks, kind) + {task};
    } else {
      assert OfKind(tasks + {task}, kind) == OfKind(tasks, kind);
    }
  }

  lemma LiveAdds(live: set<Task>, task: Task)
    requires task !in live
    ensures forall kind :: |OfKind(live + {task}, kind)| == |OfKind(live, kind)| + if task.kind == kind then 1 else 0
  {
    hide OfKind;
    forall kind ensures |OfKind(live + {task}, kind)| == |OfKind(live, kind)| + if task.kind == kind then 1 else 0 {
      OfKindAdd(live, task, kind);
    }
  }

  /** The counters are those of the tasks that run, and no kind exceeds its limit. */
  ghost predicate Counted(running: map<Kind, nat>, live: set<Task>, maxThreads: nat) {
    forall kind :: Started(running, kind) == |OfKind(live, kind)| <= KindLimit(kind, maxThreads)
  }

  lemma OneMoreCounted(running: map<Kind, nat>, live: set<Task>, maxThreads: nat, task: Task)
    requires Counted(running, live, maxThreads) && task !in live
    requires Started(running, task.kind) < KindLimit(task.kind, maxThreads)
    ensures Counted(running[task.kind := Started(running, task.kind) + 1], live + {task}, maxThreads)
  {
    LiveAdds(live, task);
    hide OfKind, KindLimit;
  }

  lemma OneLessCounted(running: map<Kind, nat>, live: set<Task>, maxThreads: nat, task: Task)
    requires Counted(running, live, maxThreads) && task in live
    ensures Started(running, task.kind) > 0
    ensures Counted(running[task.kind := Started(running, task.kind) - 1], live - {task}, maxThreads)
  {
    assert task in OfKind(live, task.kind);
    hide KindLimit;
    forall kind
      ensures |OfKind(live - {task}, kind)| == |OfKind(live, kind)| - if task.kind == kind then 1 else 0
    {
      OfKindRemove(live, task, kind);
    }
  }

  lemma OfKindRemove(tasks: set<Task>, task: Task, kind: Kind)
    requires task in tasks
    ensures |OfKind(tasks - {task}, kind)| == |OfKind(tasks, kind)| - if task.kind == kind then 1 else 0
  {
    OfKindAdd(tasks - {task}, task, kind);
    assert tasks - {task} + {task} == tasks;
  }

  // ---------------------------------------------------------------------------------------------
  // Admission order

  ghost predicate Increasing(tasks: seq<Task>, kind: Kind) {
    && (forall i :: 0 <= i < |tasks| ==> tasks[i].kind == kind)
    && forall i, j :: 0 <= i < j < |tasks| ==> tasks[i].id < tasks[j].id
  }

  /** Tasks of one kind have started in submission order, and before those still waiting. */
  ghost predicate StartOrder(started: seq<Task>, queued: map<Kind, seq<Task>>) {
    && (forall kind :: kind in queued ==> Increasing(queued[kind], kind))
    && (forall i, j :: 0 <= i < j < |started| && started[i].kind == started[j].kind ==>
          started[i].id < started[j].id)
    && (forall i :: 0 <= i < |started| && started[i].kind in queued ==>
          forall j :: 0 <= j < |queued[started[i].kind]| ==> started[i].id < queued[started[i].kind][j].id)
  }

  ghost predicate Waiting(task: Task, queued: map<Kind, seq<Task>>) {
    task.kind in queued && task in queued[task.kind]
  }

  /** A submitted task is exactly one of waiting, live, retired and dropped. */
  ghost predicate OneFate(task: Task, queued: map<Kind, seq<Task>>, live: set<Task>,
                          retired: set<Task>, dropped: set<Task>) {
    if Waiting(task, queued) then task !in live && task !in retired && task !in dropped
    else if task in live then task !in retired && task !in dropped
    else if task in retired then task !in dropped
    else task in dropped
  }

  /** Every submitted task is accounted for, and nothing else is. */
  ghost predicate Books(submitted: seq<Task>, queued: map<Kind, seq<Task>>, live: set<Task>,
                        retired: set<Task>, dropped: set<Task>, started: seq<Task>) {
    && (forall i :: 0 <= i < |submitted| ==> submitted[i].id == i)
    && (forall i :: 0 <= i < |submitted| ==> OneFate(submitted[i], queued, live, retired, dropped))
    && (forall kind, i :: kind in queued && 0 <= i < |queued[kind]| ==> queued[kind][i] in submitted)
    && (forall t :: t in live + retired + dropped ==> t in submitted)
    && (forall t :: t in started ==> t in live + retired)
    && (forall t :: t in live + retired ==> t in started)
    && StartOrder(started, queued)
  }

  /** The first of its kind starts behind all that have started, and before all that still wait. */
  lemma StartedOrder(queued: map<Kind, seq<Task>>, started: seq<Task>, task: Task)
    requires StartOrder(started, queued)
    requires task.kind in queued && queued[task.kind] != [] && task == queued[task.kind][0]
    ensures StartOrder(started + [task], queued[task.kind := queued[task.kind][1..]])
    ensures task !in queued[task.kind][1..]
  {
    var rest := queued[task.kind][1..];
    assert forall i :: 0 <= i < |rest| ==> rest[i] == queued[task.kind][i + 1];
  }

  lemma StartedFate(t: Task, queued: map<Kind, seq<Task>>, live: set<Task>, retired: set<Task>,
                    dropped: set<Task>, task: Task)
    requires OneFate(t, queued, live, retired, dropped)
    requires task.kind in queued && queued[task.kind] != [] && task == queued[task.kind][0]
    requires task !in queued[task.kind][1..]
    ensures OneFate(t, queued[task.kind := queued[task.kind][1..]], live + {task}, retired, dropped)
    ensures t == task ==> task !in live
  {
    assert queued[task.kind] == [task] + queued[task.kind][1..];
  }

  lemma StartedBooks(submitted: seq<Task>, queued: map<Kind, seq<Task>>, live: set<Task>,
                     retired: set<Task>, dropped: set<Task>, started: seq<Task>, task: Task)
    requires Books(submitted, queued, live, retired, dropped, started)
    requires task.kind in queued && queued[task.kind] != [] && task == queued[task.kind][0]
    ensures task in submitted && task !in live
    ensures Books(submitted, queued[task.kind := queued[task.kind][1..]], live + {task},
                  retired, dropped, started + [task])
  {
    hide StartOrder, OneFate;
    StartedOrder(queued, started, task);
    forall i | 0 <= i < |submitted|
      ensures OneFate(submitted[i], queued[task.kind := queued[task.kind][1..]], live + {task}, retired, dropped)
      ensures submitted[i] == task ==> task !in live
    {
      StartedFate(submitted[i], queued, live, retired, dropped, task);
    }
    var rest := queued[task.kind][1..];
    assert forall i :: 0 <= i < |rest| ==> rest[i] == queued[task.kind][i + 1];
  }

  /** A task that starts only changes from waiting to live. */
  lemma WaitsOrLives(queued: map<Kind, seq<Task>>, live: set<Task>, task: Task)
    requires task.kind in queued && queued[task.kind] != [] && task == queued[task.kind][0]
    ensures forall t :: Waiting(t, queued[task.kind := queued[task.kind][1..]]) || t in live + {task} ==>
      Waiting(t, queued) || t in live
  {
  }

  lemma SubmittedBooks(submitted: seq<Task>, queued: map<Kind, seq<Task>>, live: set<Task>,
                       retired: set<Task>, dropped: set<Task>, started: seq<Task>, task: Task)
    requires Books(submitted, queued, live, retired, dropped, started)
    requires task.id == |submitted| && task.kind in queued
    ensures Books(submitted + [task], queued[task.kind := queued[task.kind] + [task]], live,
                  retired, dropped, started)
  {
    var more := submitted + [task];
    var later := queued[task.kind := queued[task.kind] + [task]];
    assert task !in submitted;
    forall t | t in submitted
      ensures t.id < |submitted| && (Waiting(t, later) <==> Waiting(t, queued))
    {
    }
    forall i | 0 <= i < |more|
      ensures OneFate(more[i], later, live, retired, dropped)
    {
      if i < |submitted| {
        assert OneFate(submitted[i], queued, live, retired, dropped);
        assert Waiting(submitted[i], later) <==> Waiting(submitted[i], queued);
      }
    }
    forall i | 0 <= i < |queued[task.kind]|
      ensures queued[task.kind][i].id < task.id
    {
      assert queued[task.kind][i] in submitted;
    }
    forall i | 0 <= i < |started|
      ensures started[i].id < task.id
    {
      assert started[i] in started;
      assert started[i] in live + retired + dropped;
    }
  }

  lemma RetiredBooks(submitted: seq<Task>, queued: map<Kind, seq<Task>>, live: set<Task>,
                     retired: set<Task>, dropped: set<Task>, started: seq<Task>, task: Task)
    requires Books(submitted, queued, live, retired, dropped, started) && task in live
    ensures Books(submitted, queued, live - {task}, retired + {task}, dropped, started)
  {
    assert live - {task} + (retired + {task}) == live + retired;
    forall i | 0 <= i < |submitted|
      ensures OneFate(submitted[i], queued, live - {task}, retired + {task}, dropped)
    {
      assert OneFate(submitted[i], queued, live, retired, dropped);
    }
  }

  lemma DroppedBooks(submitted: seq<Task>, queued: map<Kind, seq<Task>>, live: set<Task>,
                     retired: set<Task>, dropped: set<Task>, started: seq<Task>, gone: set<Task>)
    requires Books(submitted, queued, live, retired, dropped, started)
    requires forall t :: t in gone ==> t in submitted && Waiting(t, queued)
    requires forall i :: 0 <= i < |submitted| && Waiting(submitted[i], queued) ==> submitted[i] in gone
    ensures Books(submitted, map[], live, retired, dropped + gone, started)
  {
    forall i | 0 <= i < |submitted|
      ensures OneFate(submitted[i], map[], live, retired, dropped + gone)
    {
      assert OneFate(submitted[i], queued, live, retired, dropped);
    }
  }

  function Started(running: map<Kind, nat>, kind: Kind): nat {
    if kind in running then running[kind] else 0
  }

  /** How many waiting tasks of a kind a pump starts. */
  function Admitted(waiting: seq<Task>, active: nat, limit: nat): (n: nat)
    ensures n <= |waiting|
  {
    if active >= limit then 0
    else if |waiting| <= limit - active then |waiting| else limit - active
  }

  /** The kind has been pumped: exactly as many of its tasks have started as fit. */
  ghost predicate Served(kind: Kind, limit: nat, queued: map<Kind, seq<Task>>, running: map<Kind, nat>,
                         before: map<Kind, seq<Task>>, ran: map<Kind, nat>) {
    && kind in queued && kind in before
    && queued[kind] == before[kind][Admitted(before[kind], Started(ran, kind), limit)..]
    && (queued[kind] == [] || Started(running, kind) == limit)
  }

  ghost predicate Untouched(kind: Kind, queued: map<Kind, seq<Task>>, running: map<Kind, nat>,
                            before: map<Kind, seq<Task>>, ran: map<Kind, nat>) {
    && kind in queued && kind in before
    && queued[kind] == before[kind] && Started(running, kind) == Started(ran, kind)
  }

  /** Pumping another kind changes nothing for this one. */
  lemma PumpChain(kind: Kind, limit: nat, q0: map<Kind, seq<Task>>, r0: map<Kind, nat>,
                  q1: map<Kind, seq<Task>>, r1: map<Kind, nat>, q2: map<Kind, seq<Task>>, r2: map<Kind, nat>)
    ensures Served(kind, limit, q1, r1, q0, r0) && Untouched(kind, q2, r2, q1, r1)
      ==> Served(kind, limit, q2, r2, q0, r0)
    ensures Untouched(kind, q1, r1, q0, r0) && Served(kind, limit, q2, r2, q1, r1)
      ==> Served(kind, limit, q2, r2, q0, r0)
    ensures Untouched(kind, q1, r1, q0, r0) && Untouched(kind, q2, r2, q1, r1)
      ==> Untouched(kind, q2, r2, q0, r0)
  {
  }

  /** The kinds before the `i`th have been pumped, the others not yet. */
  ghost predicate PumpedBefore(kinds: seq<Kind>, i: nat, maxThreads: nat, queued: map<Kind, seq<Task>>,
                               running: map<Kind, nat>, before: map<Kind, seq<Task>>, ran: map<Kind, nat>) {
    forall j :: 0 <= j < |kinds| ==>
      if j < i then Served(kinds[j], KindLimit(kinds[j], maxThreads), queued, running, before, ran)
      else Untouched(kinds[j], queued, running, before, ran)
  }

  lemma NonePumped(kinds: seq<Kind>, maxThreads: nat, queued: map<Kind, seq<Task>>, running: map<Kind, nat>)
    requires forall i :: 0 <= i < |kinds| ==> kinds[i] in queued
    ensures PumpedBefore(kinds, 0, maxThreads, queued, running, queued, running)
  {
  }

  lemma OnePumped(kinds: seq<Kind>, i: nat, maxThreads: nat, q0: map<Kind, seq<Task>>, r0: map<Kind, nat>,
                  q1: map<Kind, seq<Task>>, r1: map<Kind, nat>, q2: map<Kind, seq<Task>>, r2: map<Kind, nat>)
    requires i < |kinds| && PumpedBefore(kinds, i, maxThreads, q1, r1, q0, r0)
    requires forall j, k :: 0 <= j < k < |kinds| ==> kinds[j] != kinds[k]
    requires forall j :: 0 <= j < |kinds| ==> kinds[j] in q1
    requires Served(kinds[i], KindLimit(kinds[i], maxThreads), q2, r2, q1, r1)
    requires forall other :: other != kinds[i] && other in q1 ==> Untouched(other, q2, r2, q1, r1)
    ensures PumpedBefore(kinds, i + 1, maxThreads, q2, r2, q0, r0)
  {
    hide Served, Untouched, KindLimit;
    forall j | 0 <= j < |kinds|
      ensures if j < i + 1 then Served(kinds[j], KindLimit(kinds[j], maxThreads), q2, r2, q0, r0)
              else Untouched(kinds[j], q2, r2, q0, r0)
    {
      PumpChain(kinds[j], KindLimit(kinds[j], maxThreads), q0, r0, q1, r1, q2, r2);
    }
  }

  /** A kind that has nothing waiting or no free slot is left alone. */
  lemma FullStays(kind: Kind, limit: nat, q0: map<Kind, seq<Task>>, r0: map<Kind, nat>,
                  q2: map<Kind, seq<Task>>, r2: map<Kind, nat>)
    requires Served(kind, limit, q2, r2, q0, r0)
    requires q0[kind] == [] || Started(r0, kind) >= limit
    ensures q2[kind] == q0[kind]
  {
    assert q0[kind][0..] == q0[kind];
  }

  lemma OneAdmitted(kind: Kind, limit: nat, q0: map<Kind, seq<Task>>, r0: map<Kind, nat>,
                    q2: map<Kind, seq<Task>>, r2: map<Kind, nat>)
    requires Served(kind, limit, q2, r2, q0, r0)
    requires q0[kind] != [] && Started(r0, kind) < limit
    requires |q0[kind]| == 1 || Started(r0, kind) == limit - 1
    ensures q2[kind] == q0[kind][1..]
  {
    assert Admitted(q0[kind], Started(r0, kind), limit) == 1;
  }

  /** With one slot of a kind freed the pump starts its first waiting task; without, it starts none. */
  lemma OneSlotFreed(kind: Kind, limit: nat, freed: bool, q0: map<Kind, seq<Task>>, r0: map<Kind, nat>,
                     r1: map<Kind, nat>, q2: map<Kind, seq<Task>>, r2: map<Kind, nat>)
    requires kind in q0 && kind in q2 && Served(kind, limit, q2, r2, q0, r1)
    requires q0[kind] == [] || Started(r0, kind) == limit
    requires if freed then Started(r0, kind) == Started(r1, kind) + 1 else Started(r1, kind) == Started(r0, kind)
    ensures q2[kind] == if freed && q0[kind] != [] then q0[kind][1..] else q0[kind]
  {
    hide Served;
    if freed && q0[kind] != [] {
      OneAdmitted(kind, limit, q0, r1, q2, r2);
    } else {
      FullStays(kind, limit, q0, r1, q2, r2);
    }
  }

  class IOPool {
    const maxThreads: nat
    var kinds: seq<Kind>   // the keys of `queued`, in insertion order
    var queued: map<Kind, seq<Task>>
    var running: map<Kind, nat>
    var tokens: set<CancelToken>
    var live: set<Task>
    var issued: nat

    ghost var submitted: seq<Task>
    ghost var started: seq<Task>
    ghost var retired: set<Task>
    ghost var dropped: set<Task>

    function Limit(kind: Kind): nat {
      KindLimit(kind, maxThreads)
    }

    ghost predicate Admission()
      reads this
    {
      && (forall i :: 0 <= i < |kinds| ==> kinds[i] in queued)
      && (forall i, j :: 0 <= i < j < |kinds| ==> kinds[i] != kinds[j])
      && (forall kind :: kind in queued ==> kind in kinds)
      && Counted(running, live, maxThreads)
    }

    /** The token of everything outstanding that has not been cancelled can be reached. */
    ghost predicate Reachable()
      reads this, set t | t in submitted :: t.token
    {
      forall i :: 0 <= i < |submitted| && (Waiting(submitted[i], queued) || submitted[i] in live) ==>
        submitted[i].token.cancelled || submitted[i].token in tokens
    }

    ghost predicate Valid()
      reads this, set t | t in submitted :: t.token
    {
      && issued == |submitted| && Books(submitted, queued, live, retired, dropped, started)
      && Admission() && Reachable()
    }

    /** Nothing waits that could start. */
    ghost predicate Pumped()
      reads this
    {
      forall kind :: kind in queued ==> queued[kind] == [] || Started(running, kind) == Limit(kind)
    }

    constructor (maxThreads: nat)
      ensures Valid() && Pumped() && submitted == [] && this.maxThreads == if maxThreads > 1 then maxThreads else 1
    {
      this.maxThreads := if maxThreads > 1 then maxThreads else 1;
      kinds, queued, running, tokens, live, issued := [], map[], map[], {}, {}, 0;
      submitted, started, retired, dropped := [], [], {}, {};
      new;
      forall kind
        ensures OfKind(live, kind) == {}
      {
      }
    }

    /** Hand the first waiting task of a kind to the threads. */
    method StartOne(kind: Kind)
      requires Valid() && kind in queued && queued[kind] != [] && Started(running, kind) < Limit(kind)
      modifies this`queued, this`running, this`live, this`started
      ensures Valid()
      ensures queued == old(queued)[kind := old(queued)[kind][1..]]
      ensures started == old(started) + [old(queued)[kind][0]]
      ensures running == old(running)[kind := Started(old(running), kind) + 1]
    {
      var task := queued[kind][0];
      assert task.kind == kind;
      hide Books, Waiting, OfKind, KindLimit;
      StartedBooks(submitted, queued, live, retired, dropped, started, task);
      OneMoreCounted(running, live, maxThreads, task);
      WaitsOrLives(queued, live, task);
      hide Counted;
      queued := queued[kind := queued[kind][1..]];
      running := running[kind := Started(running, kind) + 1];
      live := live + {task};
      started := started + [task];
    }

    /** The inner loop of `_pump`. */
    method PumpKind(kind: Kind)
      requires Valid() && kind in queued
      modifies this`queued, this`running, this`live, this`started
      ensures Valid() && queued.Keys == old(queued).Keys
      ensures Served(kind, Limit(kind), queued, running, old(queued), old(running))
      ensures forall other :: other != kind && other in old(queued) ==>
        Untouched(other, queued, running, old(queued), old(running))
      ensures started ==
        old(started) + old(queued)[kind][..|old(queued)[kind]| - |queued[kind]|]
    {
      hide Books, Reachable, KindLimit, OfKind;
      ghost var n := 0;
      ghost var waiting := queued[kind];
      while queued[kind] != [] && Started(running, kind) < Limit(kind)
        invariant Valid() && kind in queued
        invariant n <= |waiting| && queued == old(queued)[kind := waiting[n..]]
        invariant started == old(started) + waiting[..n]
        invariant Started(running, kind) == Started(old(running), kind) + n
        invariant n > 0 ==> Started(running, kind) <= Limit(kind)
        invariant forall other :: other != kind ==> Started(running, other) == Started(old(running), other)
        decreases |queued[kind]|
      {
        StartOne(kind);
        assert waiting[n..][1..] == waiting[n + 1..];
        assert waiting[..n] + [waiting[n]] == waiting[..n + 1];
        n := n + 1;
      }
      assert Started(running, kind) == |OfKind(live, kind)|;
    }

    lemma KindsAreKeys()
      requires Valid()
      ensures forall i :: 0 <= i < |kinds| ==> kinds[i] in queued
      ensures forall i, j :: 0 <= i < j < |kinds| ==> kinds[i] != kinds[j]
      ensures forall kind :: kind in queued ==> kind in kinds
    {
    }

    /** Start every waiting task whose kind has a free slot. */
    method Pump()
      requires Valid()
      modifies this`queued, this`running, this`live, this`started
      ensures Valid() && Pumped()
      ensures queued.Keys == old(queued).Keys && old(started) <= started
      ensures forall kind :: kind in old(queued) ==>
        Served(kind, Limit(kind), queued, running, old(queued), old(running))
    {
      KindsAreKeys();
      ghost var q0, r0 := queued, running;
      NonePumped(kinds, maxThreads, queued, running);
      hide Valid, Served, Untouched, PumpedBefore, KindLimit, Admitted;
      var i := 0;
      while i < |kinds|
        invariant 0 <= i <= |kinds| && Valid()
        invariant queued.Keys == q0.Keys && old(started) <= started
        invariant PumpedBefore(kinds, i, maxThreads, queued, running, q0, r0)
      {
        ghost var q1, r1 := queued, running;
        PumpKind(kinds[i]);
        OnePumped(kinds, i, maxThreads, q0, r0, q1, r1, queued, running);
        i := i + 1;
      }
      AllServed(q0, r0);
    }

    lemma AllServed(before: map<Kind, seq<Task>>, ran: map<Kind, nat>)
      requires Valid() && queued.Keys == before.Keys
      requires PumpedBefore(kinds, |kinds|, maxThreads, queued, running, before, ran)
      ensures Pumped()
      ensures forall kind :: kind in before ==> Served(kind, Limit(kind), queued, running, before, ran)
    {
      KindsAreKeys();
    }

    /**
     `submit`.  The task starts at once when nothing of its kind waits and a slot is free, and
     otherwise waits behind the earlier ones; no other kind is affected.
     */
    method Submit(kind: Kind, shared: CancelToken?) returns (task: Task)
      requires Valid() && Pumped()
      modifies this`kinds, this`queued, this`running, this`tokens, this`live, this`issued
      modifies this`submitted, this`started
      ensures Valid() && Pumped()
      ensures submitted == old(submitted) + [task] && old(started) <= started
      ensures task.kind == kind && task.token in tokens
      ensures shared != null ==> task.token == shared
      ensures shared == null ==> fresh(task.token) && !task.token.cancelled
      ensures var waiting := if kind in old(queued) then old(queued)[kind] else [];
        kind in queued && queued[kind] ==
          if waiting == [] && Started(old(running), kind) < Limit(kind) then [] else waiting + [task]
      ensures forall other :: other in old(queued) && other != kind ==>
        other in queued && queued[other] == old(queued)[other]
    {
      var token := shared;
      if token == null {
        token := new CancelToken();
      }
      task := Task(issued, kind, token);
      Enqueue(task);
      Admit(task, old(queued));
    }

    /** The pump of `submit`: at most the new task can start. */
    method Admit(task: Task, ghost q0: map<Kind, seq<Task>>)
      requires Valid()
      requires queued == q0[task.kind := (if task.kind in q0 then q0[task.kind] else []) + [task]]
      requires forall kind :: kind in q0 ==> q0[kind] == [] || Started(running, kind) == Limit(kind)
      modifies this`queued, this`running, this`live, this`started
      ensures Valid() && Pumped() && old(started) <= started
      ensures var waiting := if task.kind in q0 then q0[task.kind] else [];
        task.kind in queued && queued[task.kind] ==
          if waiting == [] && Started(old(running), task.kind) < Limit(task.kind) then []
          else waiting + [task]
      ensures forall other :: other in q0 && other != task.kind ==>
        other in queued && queued[other] == q0[other]
    {
      hide Valid, Served, Pumped, KindLimit;
      ghost var q1, r0 := queued, running;
      ghost var kind := task.kind;
      ghost var waiting := if kind in q0 then q0[kind] else [];
      Pump();
      if waiting == [] && Started(r0, kind) < Limit(kind) {
        OneAdmitted(kind, Limit(kind), q1, r0, queued, running);
      } else {
        FullStays(kind, Limit(kind), q1, r0, queued, running);
      }
      forall other | other in q0 && other != kind
        ensures other in queued && queued[other] == q0[other]
      {
        FullStays(other, Limit(other), q1, r0, queued, running);
      }
    }

    method Enqueue(task: Task)
      requires Valid() && task.id == issued
      modifies this`kinds, this`queued, this`tokens, this`issued, this`submitted
      ensures Valid() && submitted == old(submitted) + [task]
      ensures queued == old(queued)[task.kind :=
        (if task.kind in old(queued) then old(queued)[task.kind] else []) + [task]]
      ensures tokens == old(tokens) + {task.token}
    {
      hide Books;
      tokens := tokens + {task.token};
      if task.kind !in queued {
        AddKind(task.kind);
      }
      SubmittedBooks(submitted, queued, live, retired, dropped, started, task);
      queued := queued[task.kind := queued[task.kind] + [task]];
      issued := issued + 1;
      submitted := submitted + [task];
    }

    /** The default dictionary makes an empty queue for a kind seen for the first time. */
    method AddKind(kind: Kind)
      requires Valid() && kind !in queued
      modifies this`kinds, this`queued
      ensures Valid() && queued == old(queued)[kind := []]
    {
      hide Books;
      NewKind(kind);
      kinds := kinds + [kind];
      queued := queued[kind := []];
    }

    lemma NewKind(kind: Kind)
      requires Books(submitted, queued, live, retired, dropped, started) && kind !in queued
      ensures Books(submitted, queued[kind := []], live, retired, dropped, started)
    {
      forall i | 0 <= i < |submitted|
        ensures OneFate(submitted[i], queued[kind := []], live, retired, dropped)
      {
        assert OneFate(submitted[i], queued, live, retired, dropped);
      }
    }

    /** Nothing running and nothing queued. */
    predicate IdleNow()
      reads this
    {
      && (forall kind :: kind in running ==> running[kind] == 0)
      && (forall kind :: kind in queued ==> queued[kind] == [])
    }

    lemma IdleMeansEmpty()
      requires Valid()
      ensures IdleNow() <==> live == {} && forall kind :: kind in queued ==> queued[kind] == []
    {
      if t :| t in live {
        assert t in OfKind(live, t.kind);
        assert Started(running, t.kind) == |OfKind(live, t.kind)|;
      } else {
        forall kind | kind in running
          ensures running[kind] == 0
        {
          assert OfKind(live, kind) == {};
          assert Started(running, kind) == |OfKind(live, kind)|;
        }
      }
    }

    /** The slot of a task is free again, and the pump fills it. */
    method Release(task: Task)
      requires Valid() && Pumped() && task in live
      modifies this`queued, this`running, this`live, this`started, this`retired
      ensures Valid() && Pumped()
      ensures retired == old(retired) + {task} && old(started) <= started
      ensures queued.Keys == old(queued).Keys
      ensures forall kind :: kind in queued ==>
        queued[kind] == if kind == task.kind && old(queued)[kind] != [] then old(queued)[kind][1..]
                        else old(queued)[kind]
    {
      ghost var q0, r0 := queued, running;
      assert forall kind :: kind in q0 ==> q0[kind] == [] || Started(r0, kind) == Limit(kind);
      hide Valid, Served, Pumped, KindLimit;
      Retire(task);
      ghost var r1 := running;
      Pump();
      hide Admitted;
      forall kind | kind in queued
        ensures queued[kind] == if kind == task.kind && q0[kind] != [] then q0[kind][1..] else q0[kind]
      {
        OneSlotFreed(kind, Limit(kind), kind == task.kind, q0, r0, r1, queued, running);
      }
    }

    /** The `retired` signal of a task reaches the GUI thread. */
    method OnRetired(task: Task) returns (idle: bool)
      requires Valid() && Pumped() && task in live
      modifies this`queued, this`running, this`tokens, this`live, this`started, this`retired
      ensures Valid() && Pumped()
      ensures retired == old(retired) + {task} && old(started) <= started
      ensures idle <==> live == {} && forall kind :: kind in queued ==> queued[kind] == []
      ensures tokens == if idle then {} else old(tokens)
      ensures queued.Keys == old(queued).Keys
      ensures forall kind :: kind in queued ==>
        queued[kind] == if kind == task.kind && old(queued)[kind] != [] then old(queued)[kind][1..]
                        else old(queued)[kind]
    {
      hide Valid, Pumped, KindLimit;
      Release(task);
      IdleMeansEmpty();
      idle := IdleNow();
      if idle {
        ForgetTokens();
      }
    }

    /** With nothing outstanding no token can still be governing work. */
    method ForgetTokens()
      requires Valid() && live == {} && forall kind :: kind in queued ==> queued[kind] == []
      modifies this`tokens
      ensures Valid() && Pumped() && tokens == {}
    {
      tokens := {};
    }

    method Retire(task: Task)
      requires Valid() && task in live
      modifies this`running, this`live, this`retired
      ensures Valid() && retired == old(retired) + {task} && live == old(live) - {task}
      ensures Started(old(running), task.kind) > 0
      ensures running == old(running)[task.kind := Started(old(running), task.kind) - 1]
    {
      hide Books;
      OneLessCounted(running, live, maxThreads, task);
      hide Counted;
      RetiredBooks(submitted, queued, live, retired, dropped, started, task);
      var active := Started(running, task.kind);
      running := running[task.kind := if active > 0 then active - 1 else 0];
      live, retired := live - {task}, retired + {task};
    }

    lemma OutstandingTokens()
      requires Valid()
      ensures forall t :: t in live + WaitingTasks() ==> t.token.cancelled || t.token in tokens
    {
      forall t | t in live + WaitingTasks()
        ensures t.token.cancelled || t.token in tokens
      {
        assert t in submitted by {
          assert t in live ==> t in live + retired + dropped;
        }
        var i :| 0 <= i < |submitted| && submitted[i] == t;
        assert Waiting(submitted[i], queued) || submitted[i] in live;
      }
    }

    /** Everything waiting in a queue. */
    ghost function WaitingTasks(): set<Task>
      reads this
    {
      set i | 0 <= i < |submitted| && Waiting(submitted[i], queued) :: submitted[i]
    }

    /**
     `cancel_all`.  What waits is dropped and, being dropped, can never start; what runs keeps
     running with its token cancelled.
     */
    method CancelAll()
      requires Valid()
      modifies this`kinds, this`queued, this`tokens, this`dropped, tokens
      ensures Valid() && Pumped()
      ensures queued == map[] && tokens == {}
      ensures dropped == old(dropped) + old(WaitingTasks())
      ensures forall t :: t in live + old(WaitingTasks()) ==> t.token.cancelled
      ensures forall token :: token in old(tokens) ==> token.cancelled
    {
      hide Books;
      ghost var gone := WaitingTasks();
      OutstandingTokens();
      CancelTokens(tokens);
      DroppedBooks(submitted, queued, live, retired, dropped, started, gone);
      queued, kinds, tokens := map[], [], {};
      dropped := dropped + gone;
    }

    method CancelTokens(all: set<CancelToken>)
      modifies all
      ensures forall token :: token in all ==> token.cancelled
    {
      var rest := all;
      while rest != {}
        invariant rest <= all
        invariant forall token :: token in all && token !in rest ==> token.cancelled
        decreases rest
      {
        var token :| token in rest;
        rest := rest - {token};
        token.Cancel();
      }
    }
  }

  /** How many run at once: scans, evictions, checks, folder moves and size counts one by one. */
  lemma AtMost(pool: IOPool, name: string)
    requires pool.Valid()
    ensures |OfKind(pool.live, Hydrate)| <= 3
    ensures |OfKind(pool.live, CacheScan)| <= 1 && |OfKind(pool.live, Evict)| <= 1
    ensures |OfKind(pool.live, Preflight)| <= 1 && |OfKind(pool.live, Kfm)| <= 1 && |OfKind(pool.live, TreeSize)| <= 1
    ensures |OfKind(pool.live, Thumbnail)| <= 2 && |OfKind(pool.live, Rc)| <= 2
    ensures |OfKind(pool.live, Unlisted(name))| <= pool.maxThreads
  {
    hide Books, OfKind;
    forall kind ensures |OfKind(pool.live, kind)| <= KindLimit(kind, pool.maxThreads) {
      assert Started(pool.running, kind) == |OfKind(pool.live, kind)|;
    }
  }

  /** A dropped task has neither started nor does it wait; no call takes anything out of `dropped`. */
  lemma DroppedNeverStarts(pool: IOPool, task: Task)
    requires pool.Valid() && task in pool.dropped
    ensures task !in pool.started && task !in pool.live && !Waiting(task, pool.queued)
  {
    assert task in pool.live + pool.retired + pool.dropped;
    var i :| 0 <= i < |pool.submitted| && pool.submitted[i] == task;
    assert OneFate(pool.submitted[i], pool.queued, pool.live, pool.retired, pool.dropped);
  }
}
