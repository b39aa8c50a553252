/**
 The `decisions` table of onedriveui/data/repo_sync.py: blocking questions, their answers, and
 their expiry into a refusal.  The id of a row is its position plus one.
 */
module DecisionTable {
  import opened Basics
  import opened Stamps

  /** The refusal an expired question is answered with. */
  const EXPIRED_ANSWER := "expired"
  const EXPIRY_DAYS := 7

  datatype Decision = Decision(account: string, kind: string, payload: string, createdAt: string,
                               expiresAt: Option<string>, answeredAt: Option<string>, answer: Option<string>)

  predicate Pending(row: Decision) {
    row.answeredAt.None?
  }

  function Answered(row: Decision, answer: string, now: string): Decision {
    row.(answeredAt := Some(now), answer := Some(answer))
  }

  /** `expires_at <= now`, compared as text; a missing expiry never passes. */
  predicate Overdue(row: Decision, account: Option<string>, now: string) {
    && Pending(row)
    && row.expiresAt.Some? && !Less(now, row.expiresAt.value)
    && (account.Some? ==> row.account == account.value)
  }

  predicate Answerable(rows: seq<Decision>, id: int) {
    1 <= id <= |rows| && Pending(rows[id - 1])
  }

  function Lapsed(row: Decision, account: Option<string>, now: string): Decision {
    if Overdue(row, account, now) then Answered(row, EXPIRED_ANSWER, now) else row
  }

  function AfterExpire(rows: seq<Decision>, account: Option<string>, now: string): seq<Decision> {
    seq(|rows|, i requires 0 <= i < |rows| => Lapsed(rows[i], account, now))
  }

  function OverdueIds(rows: seq<Decision>, account: Option<string>, now: string): seq<nat> {
    if rows == [] then []
    else
      var n := |rows|;
      OverdueIds(rows[..n - 1], account, now) + if Overdue(rows[n - 1], account, now) then [n] else []
  }

  datatype Step =
    | Create(row: Decision)
    | Answer(id: int, answer: string, now: string)
    | Expire(account: Option<string>, now: string)

  function Do(rows: seq<Decision>, step: Step): seq<Decision> {
    match step
    case Create(row) => rows + [row]
    case Answer(id, answer, now) =>
      if Answerable(rows, id) then rows[id - 1 := Answered(rows[id - 1], answer, now)] else rows
    case Expire(account, now) => AfterExpire(rows, account, now)
  }

  function DoAll(rows: seq<Decision>, steps: seq<Step>): seq<Decision> {
    if steps == [] then rows else Do(DoAll(rows, steps[..|steps| - 1]), steps[|steps| - 1])
  }

  /**
   An answer is written at most once: whatever is called afterwards, an answered row keeps its
   answer and its time, and a pending one keeps its question.
   */
  lemma {:induction false} AnswersAreFinal(rows: seq<Decision>, steps: seq<Step>, i: nat)
    requires i < |rows|
    ensures |DoAll(rows, steps)| >= |rows|
    ensures var later := DoAll(rows, steps)[i];
      && (!Pending(rows[i]) ==> later == rows[i])
      && (Pending(rows[i]) && Pending(later) ==> later == rows[i])
      && later.(answeredAt := rows[i].answeredAt, answer := rows[i].answer) == rows[i]
  {
    if steps != [] {
      AnswersAreFinal(rows, steps[..|steps| - 1], i);
    }
  }

  /** The question of a row, without its answer. */
  predicate SameQuestion(a: Decision, b: Decision) {
    && a.account == b.account && a.kind == b.kind && a.payload == b.payload
    && a.createdAt == b.createdAt && a.expiresAt == b.expiresAt
  }

  /** What was answered is what is stored, and only on a row that was pending. */
  lemma AnswerStores(rows: seq<Decision>, id: int, answer: string, now: string)
    ensures var after := Do(rows, Answer(id, answer, now));
      var answerable := 1 <= id <= |rows| && rows[id - 1].answeredAt == None;
      && |after| == |rows| && (answerable <==> Answerable(rows, id))
      && (answerable ==>
            && after[id - 1].answer == Some(answer) && after[id - 1].answeredAt == Some(now)
            && SameQuestion(after[id - 1], rows[id - 1]))
      && forall j :: 0 <= j < |rows| && !(answerable && j == id - 1) ==> after[j] == rows[j]
  {
  }

  /** An expiry stores a refusal on each pending row whose time has come, and touches no other. */
  lemma ExpireStores(rows: seq<Decision>, account: Option<string>, now: string)
    ensures var after := Do(rows, Expire(account, now));
      && |after| == |rows|
      && forall i :: 0 <= i < |rows| ==>
           if rows[i].answeredAt == None && rows[i].expiresAt.Some? && !Less(now, rows[i].expiresAt.value)
              && (account == None || account == Some(rows[i].account)) then
             && after[i].answer == Some("expired") && after[i].answeredAt == Some(now)
             && SameQuestion(after[i], rows[i])
           else after[i] == rows[i]
  {
  }

  /** A row that was pending and is answered got its answer from exactly one of the later steps. */
  lemma {:induction false} OneStepAnswers(rows: seq<Decision>, steps: seq<Step>, i: nat) returns (k: nat)
    requires i < |rows| && Pending(rows[i])
    requires |DoAll(rows, steps)| > i && !Pending(DoAll(rows, steps)[i])
    ensures k < |steps|
    ensures |DoAll(rows, steps[..k])| > i && Pending(DoAll(rows, steps[..k])[i])
    ensures var row := DoAll(rows, steps)[i];
      SameQuestion(row, rows[i]) &&
      match steps[k]
      case Answer(id, answer, now) => id == i + 1 && row.answer == Some(answer) && row.answeredAt == Some(now)
      case Expire(account, now) =>
        && row.answer == Some(EXPIRED_ANSWER) && row.answeredAt == Some(now)
        && rows[i].expiresAt.Some? && !Less(now, rows[i].expiresAt.value)
        && (account == None || account == Some(rows[i].account))
      case Create(_) => false
  {
    var n := |steps| - 1;
    AnswersAreFinal(rows, steps[..n], i);
    if Pending(DoAll(rows, steps[..n])[i]) {
      k := n;
    } else {
      k := OneStepAnswers(rows, steps[..n], i);
      assert steps[..n][..k] == steps[..k];
    }
  }

  /**
   With stamps in the table, expiry answers exactly the pending rows whose time has come, and it
   answers them with a refusal.
   */
  lemma ExpiresExactlyTheOverdue(rows: seq<Decision>, account: Option<string>, i: nat, expiry: nat, now: nat)
    requires i < |rows| && rows[i].expiresAt == Some(Stamp(expiry)) && InRange(expiry) && InRange(now)
    ensures var row := Do(rows, Expire(account, Stamp(now)))[i];
      if rows[i].answeredAt == None && expiry <= now && (account == None || account == Some(rows[i].account))
      then row.answer == Some(EXPIRED_ANSWER) && row.answeredAt == Some(Stamp(now)) && SameQuestion(row, rows[i])
      else row == rows[i]
  {
    StampOrder(now, expiry);
  }

  lemma {:induction false} OverdueIdsExact(rows: seq<Decision>, account: Option<string>, now: string, id: nat)
    ensures id in OverdueIds(rows, account, now) <==> 1 <= id <= |rows| && Overdue(rows[id - 1], account, now)
  {
    if rows != [] {
      OverdueIdsExact(rows[..|rows| - 1], account, now, id);
    }
  }

  /** What `create_decision` stores when no expiry is given, for a creation stamp in range. */
  function DefaultExpiry(created: nat, days: int): Option<string> {
    var moved := PlusDays(created, days);
    if moved.Some? then Some(Stamp(moved.value)) else None
  }

  /**
   A decision created now with the default window is still pending at every expiry run before seven
   days have passed and is refused by any later one, whatever else happens to the table, unless
   somebody answers it first.
   */
  lemma {:induction false} DefaultWindow(rows: seq<Decision>, i: nat, created: nat, steps: seq<Step>, now: nat)
    requires i < |rows| && Pending(rows[i]) && InRange(created) && InRange(now)
    requires PlusDays(created, EXPIRY_DAYS).Some?
    requires rows[i].expiresAt == DefaultExpiry(created, EXPIRY_DAYS)
    requires |DoAll(rows, steps)| > i && Pending(DoAll(rows, steps)[i])
    ensures var after := DoAll(rows, steps + [Expire(None, Stamp(now))]);
      |after| > i &&
      if now >= created + EXPIRY_DAYS * DAY
      then && after[i].answer == Some(EXPIRED_ANSWER) && after[i].answeredAt == Some(Stamp(now))
           && SameQuestion(after[i], rows[i])
      else after[i] == rows[i]
  {
    AnswersAreFinal(rows, steps, i);
    var all := steps + [Expire(None, Stamp(now))];
    assert all[..|all| - 1] == steps;
    var due := PlusDays(created, EXPIRY_DAYS).value;
    ExpiresExactlyTheOverdue(DoAll(rows, steps), None, i, due, now);
  }

  // ---------------------------------------------------------------------------------------------
  // The table itself

  class Decisions {
    var rows: seq<Decision>

    constructor ()
      ensures rows == []
    {
      rows := [];
    }

    method CreateDecision(row: Decision) returns (id: nat)
      modifies this
      ensures rows == old(rows) + [row] && id == |rows|
    {
      rows := rows + [row];
      id := |rows|;
    }

    /** False when the row was already answered or does not exist. */
    method AnswerDecision(id: int, answer: string, now: string) returns (answered: bool)
      modifies this
      ensures rows == Do(old(rows), Answer(id, answer, now))
      ensures answered <==> 1 <= id <= |old(rows)| && old(rows)[id - 1].answeredAt == None
      ensures |rows| == |old(rows)|
      ensures answered ==> rows[id - 1].answer == Some(answer) && rows[id - 1].answeredAt == Some(now)
    {
      answered := Answerable(rows, id);
      if answered {
        rows := rows[id - 1 := Answered(rows[id - 1], answer, now)];
      }
    }

    /** Answer every overdue decision with a refusal, returning their ids. */
    method ExpireDecisions(account: Option<string>, now: string) returns (ids: seq<nat>)
      modifies this
      ensures rows == Do(old(rows), Expire(account, now))
      ensures ids == OverdueIds(old(rows), account, now)
    {
      ids := [];
      ghost var before := rows;
      var i := 0;
      while i < |rows|
        invariant 0 <= i <= |rows| == |before|
        invariant forall j :: 0 <= j < i ==> rows[j] == Lapsed(before[j], account, now)
        invariant forall j :: i <= j < |rows| ==> rows[j] == before[j]
        invariant ids == OverdueIds(before[..i], account, now)
      {
        assert before[..i + 1][..i] == before[..i];
        if Overdue(rows[i], account, now) {
          rows := rows[i := Answered(rows[i], EXPIRED_ANSWER, now)];
          ids := ids + [i + 1];
        }
        i := i + 1;
      }
      assert before[..i] == before;
      assert rows == AfterExpire(before, account, now);
    }
  }
}
