/**
 The sequential log that the writer thread of onedriveui/data/writer.py is meant to implement:
 operations, the batches they were settled in, and the database and replies those batches leave.

 An operation is any function of the database.  It may fail after changing it, and the change
 is then kept, because a failing operation does not roll back its neighbours.
 */
module WriterLog {

  /** Why a write was reported as failed: its own exception, or its transaction's. */
  datatype Fault = OwnError(code: int) | BeginFailed | CommitFailed

  datatype Reply = Value(value: int) | Error(fault: Fault)

  /** What calling an operation on the connection leaves behind. */
  datatype Effect<Db> = Effect(db: Db, reply: Reply)

  datatype Op<!Db> = Op(id: nat, urgent: bool, fn: Db -> Effect<Db>)

  datatype Fate = NotBegun | RolledBack | Committed

  /** One transaction attempt, as it was settled. */
  datatype Batch<!Db> = Batch(ops: seq<Op<Db>>, fate: Fate)

  /** The database after running the operations in order, whether or not they fail. */
  ghost function DbAfter<Db>(db: Db, ops: seq<Op<Db>>): Db {
    if ops == [] then db else ops[|ops| - 1].fn(DbAfter(db, ops[..|ops| - 1])).db
  }

  /** What each operation itself reports when the operations run in order. */
  ghost function OwnReplies<Db>(db: Db, ops: seq<Op<Db>>): seq<Reply> {
    seq(|ops|, i requires 0 <= i < |ops| => ops[i].fn(DbAfter(db, ops[..i])).reply)
  }

  /** A rollback turns a success into the transaction's error and keeps an earlier error. */
  function Undone(reply: Reply): Reply {
    if reply.Value? then Error(CommitFailed) else reply
  }

  function UndoneAll(own: seq<Reply>): (undone: seq<Reply>)
    ensures |undone| == |own| && forall reply :: reply in undone ==> reply.Error?
  {
    seq(|own|, i requires 0 <= i < |own| => Undone(own[i]))
  }

  function Refused(count: nat): (replies: seq<Reply>)
    ensures |replies| == count && forall reply :: reply in replies ==> reply.Error?
  {
    seq(count, i => Error(BeginFailed))
  }

  ghost function BatchReplies<Db>(db: Db, batch: Batch<Db>): seq<Reply> {
    var own := OwnReplies(db, batch.ops);
    match batch.fate
    case NotBegun => Refused(|batch.ops|)
    case RolledBack => UndoneAll(own)
    case Committed => own
  }

  /** The committed database: the in-order effect of the committed batches and of no other. */
  ghost function Replay<Db>(db: Db, history: seq<Batch<Db>>): Db {
    if history == [] then db
    else
      var n := |history| - 1;
      var before := Replay(db, history[..n]);
      if history[n].fate == Committed then DbAfter(before, history[n].ops) else before
  }

  ghost function ReplayReplies<Db>(db: Db, history: seq<Batch<Db>>): seq<Reply> {
    if history == [] then []
    else
      var n := |history| - 1;
      ReplayReplies(db, history[..n]) + BatchReplies(Replay(db, history[..n]), history[n])
  }

  /** Every operation settled so far, in the order the batches took them. */
  ghost function SettledOps<Db>(history: seq<Batch<Db>>): seq<Op<Db>> {
    if history == [] then []
    else SettledOps(history[..|history| - 1]) + history[|history| - 1].ops
  }

  /** The operations whose effects are in the committed database. */
  ghost function CommittedOps<Db>(history: seq<Batch<Db>>): seq<Op<Db>> {
    if history == [] then []
    else
      var n := |history| - 1;
      CommittedOps(history[..n]) + (if history[n].fate == Committed then history[n].ops else [])
  }

  lemma {:induction false} DbAfterConcat<Db>(db: Db, first: seq<Op<Db>>, second: seq<Op<Db>>)
    ensures DbAfter(db, first + second) == DbAfter(DbAfter(db, first), second)
    decreases |second|
  {
    if second == [] {
      assert first + second == first;
    } else {
      var n := |second| - 1;
      DbAfterConcat(db, first, second[..n]);
      assert (first + second)[..|first + second| - 1] == first + second[..n];
    }
  }

  /** Replaying a history is running its committed operations one after the other. */
  lemma {:induction false} ReplayIsSequential<Db>(db: Db, history: seq<Batch<Db>>)
    ensures Replay(db, history) == DbAfter(db, CommittedOps(history))
  {
    if history != [] {
      var n := |history| - 1;
      ReplayIsSequential(db, history[..n]);
      if history[n].fate == Committed {
        DbAfterConcat(db, CommittedOps(history[..n]), history[n].ops);
      } else {
        assert CommittedOps(history) == CommittedOps(history[..n]);
      }
    }
  }

  lemma {:induction false} ReplyCount<Db>(db: Db, history: seq<Batch<Db>>)
    ensures |ReplayReplies(db, history)| == |SettledOps(history)|
  {
    if history != [] {
      ReplyCount(db, history[..|history| - 1]);
    }
  }

  /** Where in the history the settled operation at `index` was run. */
  ghost predicate Located<Db>(history: seq<Batch<Db>>, index: nat, at: nat, offset: nat) {
    && at < |history|
    && offset < |history[at].ops|
    && index == |SettledOps(history[..at])| + offset
  }

  /**
   A settled operation carries no error exactly when its transaction committed and the operation
   itself succeeded on the database it was given.
   */
  ghost predicate RanAndCommitted<Db>(db: Db, history: seq<Batch<Db>>, at: nat, offset: nat)
    requires at < |history| && offset < |history[at].ops|
  {
    var ops := history[at].ops;
    && history[at].fate == Committed
    && ops[offset].fn(DbAfter(Replay(db, history[..at]), ops[..offset])).reply.Value?
  }

  lemma {:induction false} NoErrorIffCommitted<Db>(db: Db, history: seq<Batch<Db>>, index: nat)
    returns (at: nat, offset: nat)
    requires index < |SettledOps(history)|
    ensures |ReplayReplies(db, history)| == |SettledOps(history)|
    ensures Located(history, index, at, offset)
    ensures SettledOps(history)[index] == history[at].ops[offset]
    ensures ReplayReplies(db, history)[index].Value? <==> RanAndCommitted(db, history, at, offset)
  {
    ReplyCount(db, history);
    var n := |history| - 1;
    var prior := history[..n];
    ReplyCount(db, prior);
    if index < |SettledOps(prior)| {
      at, offset := NoErrorIffCommitted(db, prior, index);
      assert prior[..at] == history[..at];
      assert ReplayReplies(db, history)[index] == ReplayReplies(db, prior)[index];
    } else {
      at, offset := n, index - |SettledOps(prior)|;
      assert ReplayReplies(db, history)[index] == BatchReplies(Replay(db, prior), history[n])[offset];
    }
  }
}
