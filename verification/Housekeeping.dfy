/**
 The row deletions of `vacuum_and_prune` in onedriveui/data/db.py: the newest rows per account, and
 the rows older than a cutoff that SQLite spells differently from the stamps in the table.
 */
module Housekeeping {
  import opened Basics
  import opened Stamps

  datatype Row = Row(account: string, resolved: bool)

  /** The rows the subquery ranks: all of `activity`, but only the resolved ones of `issues`. */
  predicate Ranked(row: Row, resolvedOnly: bool) {
    resolvedOnly ==> row.resolved
  }

  /** The ranked rows of the same account with a larger id. */
  function Newer(rows: map<int, Row>, id: int, resolvedOnly: bool): set<int>
    requires id in rows
  {
    set other | other in rows && Ranked(rows[other], resolvedOnly)
                && rows[other].account == rows[id].account && other > id
  }

  /** `ORDER BY id DESC LIMIT n` returns the row; a negative limit is no limit. */
  predicate InNewest(rows: map<int, Row>, id: int, resolvedOnly: bool, limit: int)
    requires id in rows
  {
    Ranked(rows[id], resolvedOnly) && (limit < 0 || |Newer(rows, id, resolvedOnly)| < limit)
  }

  predicate Doomed(rows: map<int, Row>, id: int, resolvedOnly: bool, limit: int)
    requires id in rows
  {
    Ranked(rows[id], resolvedOnly) && !InNewest(rows, id, resolvedOnly, limit)
  }

  function Kept(rows: map<int, Row>, resolvedOnly: bool, limit: int): map<int, Row> {
    map id | id in rows && !Doomed(rows, id, resolvedOnly, limit) :: rows[id]
  }

  /** Among finitely many ids at least `limit` of them, if there are so many, are the newest. */
  lemma {:induction false} NewestOf(ids: set<int>, limit: nat)
    ensures var top := set id | id in ids && |(set j | j in ids && j > id)| < limit;
      |top| == if |ids| < limit then |ids| else limit
    decreases |ids|
  {
    var top := set id | id in ids && |(set j | j in ids && j > id)| < limit;
    if ids == {} {
      assert top == {};
    } else {
      var least := Least(ids);
      var rest := ids - {least};
      NewestOf(rest, limit);
      var topRest := set id | id in rest && |(set j | j in rest && j > id)| < limit;
      assert (set j | j in ids && j > least) == rest;
      forall id | id in rest
        ensures (set j | j in ids && j > id) == (set j | j in rest && j > id)
      {
      }
      assert least in top <==> |rest| < limit;
      assert forall id :: id in rest ==> (id in top <==> id in topRest);
      assert top == topRest + if |rest| < limit then {least} else {};
    }
  }

  lemma {:induction false} Least(ids: set<int>) returns (least: int)
    requires ids != {}
    ensures least in ids && forall id :: id in ids ==> least <= id
    decreases |ids|
  {
    var some := SomeOf(ids);
    var rest := ids - {some};
    least := some;
    if rest == {} {
      assert ids == {some};
    } else {
      var other := Least(rest);
      least := if other < some then other else some;
      assert forall id :: id in ids ==> id == some || id in rest;
    }
  }

  lemma Smaller(a: set<int>, b: set<int>)
    requires a <= b
    ensures |a| <= |b|
  {
    assert b == a + (b - a);
  }

  /**
   The subquery gives the same verdict on a table that has lost some of the doomed rows already:
   a doomed row never ranks among the newest, so losing one moves no other row.
   */
  lemma VerdictStable(rows: map<int, Row>, now: map<int, Row>, id: int, resolvedOnly: bool, limit: int)
    requires id in now && now.Keys <= rows.Keys && forall k :: k in now ==> now[k] == rows[k]
    requires forall k :: k in rows && k !in now ==> Doomed(rows, k, resolvedOnly, limit)
    ensures Doomed(now, id, resolvedOnly, limit) <==> Doomed(rows, id, resolvedOnly, limit)
  {
    var newer, newerNow := Newer(rows, id, resolvedOnly), Newer(now, id, resolvedOnly);
    assert newerNow <= newer;
    Smaller(newerNow, newer);
    if limit >= 0 && |newer| >= limit {
      NewestOf(newer, limit);
      var top := set k | k in newer && |(set j | j in newer && j > k)| < limit;
      forall k | k in top
        ensures k in newerNow
      {
        assert (set j | j in newer && j > k) == Newer(rows, k, resolvedOnly);
        assert !Doomed(rows, k, resolvedOnly, limit);
      }
      Smaller(top, newerNow);
    }
  }

  function RankedIds(rows: map<int, Row>, account: string, resolvedOnly: bool): set<int> {
    set id: int | id in rows && rows[id].account == account && Ranked(rows[id], resolvedOnly)
  }

  /** The newest `limit` ranked rows of an account are what is left of them. */
  lemma NewestSurvive(rows: map<int, Row>, account: string, resolvedOnly: bool, limit: nat)
    ensures var ranked := RankedIds(rows, account, resolvedOnly);
      var left := ranked * Kept(rows, resolvedOnly, limit).Keys;
      && |left| == (if |ranked| < limit then |ranked| else limit)
      && forall a, b :: a in left && b in ranked - left ==> a > b
  {
    var ranked := RankedIds(rows, account, resolvedOnly);
    var left := ranked * Kept(rows, resolvedOnly, limit).Keys;
    NewestOf(ranked, limit);
    forall id | id in ranked
      ensures (set j | j in ranked && j > id) == Newer(rows, id, resolvedOnly)
    {
    }
    assert left == set id | id in ranked && |(set j | j in ranked && j > id)| < limit;
    forall a, b | a in left && b in ranked - left
      ensures a > b
    {
      if a < b {
        Smaller(Newer(rows, b, resolvedOnly), Newer(rows, a, resolvedOnly));
      }
    }
  }

  /**
   On the rows themselves: one is removed exactly when it may be at all, which an unresolved issue may
   not, the limit is one, and as many such rows of its account as the limit allows have a larger id.
   */
  lemma GoneIff(rows: map<int, Row>, id: int, resolvedOnly: bool, limit: int)
    requires id in rows
    ensures var kept := Kept(rows, resolvedOnly, limit);
      && (id !in kept <==>
            && (resolvedOnly ==> rows[id].resolved) && limit >= 0
            && |set other | other in rows && other > id && rows[other].account == rows[id].account
                            && (resolvedOnly ==> rows[other].resolved)| >= limit)
      && (id in kept ==> kept[id] == rows[id])
    ensures Kept(rows, resolvedOnly, limit).Keys <= rows.Keys
  {
    assert Newer(rows, id, resolvedOnly)
        == set other | other in rows && other > id && rows[other].account == rows[id].account
                       && (resolvedOnly ==> rows[other].resolved);
  }

  class Table {
    var rows: map<int, Row>

    constructor (rows: map<int, Row>)
      ensures this.rows == rows
    {
      this.rows := rows;
    }

    /**
     The correlated `DELETE ... NOT IN (... ORDER BY id DESC LIMIT ?)`, deciding on each row against
     the table as it is when the row is visited.  The order of the visits does not matter.
     */
    method DeleteBeyondNewest(resolvedOnly: bool, limit: int) returns (removed: nat)
      modifies this
      ensures rows == Kept(old(rows), resolvedOnly, limit)
      ensures removed == |old(rows)| - |rows|
    {
      removed := 0;
      ghost var before := rows;
      var rest := rows.Keys;
      while rest != {}
        invariant rest <= rows.Keys <= before.Keys && forall k :: k in rows ==> rows[k] == before[k]
        invariant forall k :: k in before && k !in rows ==> Doomed(before, k, resolvedOnly, limit)
        invariant forall k :: k in rows && k !in rest ==> !Doomed(before, k, resolvedOnly, limit)
        invariant |rows| + removed == |before|
        decreases rest
      {
        var id := AnyOf(rest);
        rest := rest - {id};
        VerdictStable(before, rows, id, resolvedOnly, limit);
        if Doomed(rows, id, resolvedOnly, limit) {
          assert rows.Keys == (rows - {id}).Keys + {id};
          rows := rows - {id};
          removed := removed + 1;
        }
      }
      assert forall k :: k in before ==> (k in rows <==> !Doomed(before, k, resolvedOnly, limit));
      ghost var kept := Kept(before, resolvedOnly, limit);
      assert rows.Keys == kept.Keys;
      assert rows == kept;
    }
  }

  // ---------------------------------------------------------------------------------------------
  // Cutoffs

  /** `started_at < datetime('now', '-N days')` for a finished run, and its kin. */
  predicate PastCutoff(stamp: string, now: nat, days: int)
    requires now >= DAY * days
  {
    Less(stamp, SqliteStamp(now - DAY * days))
  }

  /**
   A finished row goes exactly when its calendar date is before the cutoff's: never before it is
   `days` old, and always once it is a day older than that.
   */
  lemma PastCutoffIff(t: nat, now: nat, days: int)
    requires now >= DAY * days && InRange(t) && InRange(now - DAY * days)
    ensures PastCutoff(Stamp(t), now, days) <==> t / DAY < now / DAY - days
    ensures PastCutoff(Stamp(t), now, days) ==> now - t > DAY * days
    ensures now - t >= DAY * (days + 1) ==> PastCutoff(Stamp(t), now, days)
  {
    var cutoff := now - DAY * days;
    CutoffOrder(t, cutoff);
    NeverEarlyAtMostADayLate(t, cutoff);
    assert cutoff / DAY == now / DAY - days;
  }
}
