/**
 The `issues` table of onedriveui/data/repo_sync.py: raising, resolving and muting.  Rows are
 never removed here, so the id of a row is its position plus one.
 */
module IssueTable {
  import opened Basics

  /** What a raise overwrites on the row that is already open. */
  datatype Report = Report(severity: string, title: string, detail: string, rawError: string,
                           actions: seq<string>, lastSeen: string)

  datatype Raised = Raised(account: string, code: string, relPath: Option<string>, report: Report,
                           firstSeen: string, muted: bool)

  datatype Issue = Issue(account: string, code: string, relPath: Option<string>, report: Report,
                         firstSeen: string, occurrences: nat, resolution: Option<string>, muted: bool)

  /** The unique index over open rows; a missing path counts as the empty one. */
  datatype Key = Key(account: string, code: string, path: string)

  function KeyOf(account: string, code: string, relPath: Option<string>): Key {
    Key(account, code, if relPath.Some? then relPath.value else "")
  }

  function IssueKey(row: Issue): Key {
    KeyOf(row.account, row.code, row.relPath)
  }

  predicate Open(row: Issue) {
    row.resolution.None?
  }

  predicate OpenFor(row: Issue, key: Key) {
    Open(row) && IssueKey(row) == key
  }

  /** The id of the first open row for a key, or 0. */
  function OpenId(rows: seq<Issue>, key: Key): (id: nat)
    ensures id <= |rows|
    ensures id > 0 ==> OpenFor(rows[id - 1], key)
    ensures id == 0 ==> forall i :: 0 <= i < |rows| ==> !OpenFor(rows[i], key)
  {
    if rows == [] then 0
    else
      var id := OpenId(rows[..|rows| - 1], key);
      if id > 0 then id else if OpenFor(rows[|rows| - 1], key) then |rows| else 0
  }

  function Bumped(row: Issue, report: Report): Issue {
    row.(report := report, occurrences := row.occurrences + 1)
  }

  function Fresh(issue: Raised): Issue {
    Issue(issue.account, issue.code, issue.relPath, issue.report, issue.firstSeen, 1, None, issue.muted)
  }

  function AfterRaise(rows: seq<Issue>, issue: Raised): seq<Issue> {
    var id := OpenId(rows, KeyOf(issue.account, issue.code, issue.relPath));
    if id > 0 then rows[id - 1 := Bumped(rows[id - 1], issue.report)] else rows + [Fresh(issue)]
  }

  predicate Closes(row: Issue, account: string, code: string, relPath: Option<string>) {
    && Open(row) && row.account == account && row.code == code
    && (relPath.Some? ==> row.relPath == relPath)
  }

  function CloseRow(row: Issue, resolution: string): Issue {
    row.(resolution := Some(resolution))
  }

  function Swept(row: Issue, account: string, code: string, relPath: Option<string>, resolution: string): Issue {
    if Closes(row, account, code, relPath) then CloseRow(row, resolution) else row
  }

  function AfterResolveByCode(rows: seq<Issue>, account: string, code: string, relPath: Option<string>,
                              resolution: string): seq<Issue> {
    seq(|rows|, i requires 0 <= i < |rows| => Swept(rows[i], account, code, relPath, resolution))
  }

  function ClosedIds(rows: seq<Issue>, account: string, code: string, relPath: Option<string>): seq<nat> {
    if rows == [] then []
    else
      var n := |rows|;
      ClosedIds(rows[..n - 1], account, code, relPath)
      + if Closes(rows[n - 1], account, code, relPath) then [n] else []
  }

  predicate Resolvable(rows: seq<Issue>, id: int) {
    1 <= id <= |rows| && Open(rows[id - 1])
  }

  // ---------------------------------------------------------------------------------------------
  // Runs

  datatype Step =
    | Raise(issue: Raised)
    | Resolve(id: int, resolution: string)
    | ResolveByCode(account: string, code: string, relPath: Option<string>, resolution: string)
    | Mute(id: int, muted: bool)

  /** The table, and the ids reported as resolved so far. */
  datatype Log = Log(rows: seq<Issue>, reported: seq<nat>)

  function Do(log: Log, step: Step): Log {
    var rows := log.rows;
    match step
    case Raise(issue) => log.(rows := AfterRaise(rows, issue))
    case Resolve(id, resolution) =>
      if Resolvable(rows, id)
      then Log(rows[id - 1 := CloseRow(rows[id - 1], resolution)], log.reported + [id])
      else log
    case ResolveByCode(account, code, relPath, resolution) =>
      Log(AfterResolveByCode(rows, account, code, relPath, resolution),
          log.reported + ClosedIds(rows, account, code, relPath))
    case Mute(id, muted) =>
      if 1 <= id <= |rows| then log.(rows := rows[id - 1 := rows[id - 1].(muted := muted)]) else log
  }

  function DoAll(steps: seq<Step>): Log {
    if steps == [] then Log([], []) else Do(DoAll(steps[..|steps| - 1]), steps[|steps| - 1])
  }

  ghost predicate OneOpenPerKey(rows: seq<Issue>) {
    forall i, j :: 0 <= i < j < |rows| && Open(rows[i]) && Open(rows[j]) ==>
      IssueKey(rows[i]) != IssueKey(rows[j])
  }

  /** All occurrences recorded for a key, over open and resolved rows. */
  function Occurrences(rows: seq<Issue>, key: Key): nat {
    if rows == [] then 0
    else
      var last := rows[|rows| - 1];
      Occurrences(rows[..|rows| - 1], key) + if IssueKey(last) == key then last.occurrences else 0
  }

  function Raises(steps: seq<Step>, key: Key): nat {
    if steps == [] then 0
    else
      var last := steps[|steps| - 1];
      Raises(steps[..|steps| - 1], key)
      + if last.Raise? && KeyOf(last.issue.account, last.issue.code, last.issue.relPath) == key then 1 else 0
  }

  function Count(ids: seq<nat>, id: nat): nat {
    if ids == [] then 0 else Count(ids[..|ids| - 1], id) + if ids[|ids| - 1] == id then 1 else 0
  }

  lemma {:induction false} CountConcat(a: seq<nat>, b: seq<nat>, id: nat)
    ensures Count(a + b, id) == Count(a, id) + Count(b, id)
    decreases |b|
  {
    if b == [] {
      assert a + b == a;
    } else {
      CountConcat(a, b[..|b| - 1], id);
      assert (a + b)[..|a + b| - 1] == a + b[..|b| - 1];
    }
  }

  lemma {:induction false} OccurrencesUpdate(rows: seq<Issue>, i: nat, row: Issue, key: Key)
    requires i < |rows| && IssueKey(row) == IssueKey(rows[i])
    ensures Occurrences(rows[i := row], key) ==
            Occurrences(rows, key)
            + if IssueKey(row) == key then row.occurrences - rows[i].occurrences else 0
  {
    var n := |rows| - 1;
    if i == n {
      assert rows[i := row][..n] == rows[..n];
    } else {
      OccurrencesUpdate(rows[..n], i, row, key);
      assert rows[i := row][..n] == rows[..n][i := row];
    }
  }

  lemma {:induction false} OccurrencesSame(rows: seq<Issue>, later: seq<Issue>, key: Key)
    requires |rows| == |later|
    requires forall i :: 0 <= i < |rows| ==>
      IssueKey(rows[i]) == IssueKey(later[i]) && rows[i].occurrences == later[i].occurrences
    ensures Occurrences(later, key) == Occurrences(rows, key)
  {
    if rows != [] {
      OccurrencesSame(rows[..|rows| - 1], later[..|rows| - 1], key);
    }
  }

  lemma {:induction false} ClosedOnce(rows: seq<Issue>, account: string, code: string,
                                      relPath: Option<string>, id: nat)
    ensures Count(ClosedIds(rows, account, code, relPath), id) ==
            if 1 <= id <= |rows| && Closes(rows[id - 1], account, code, relPath) then 1 else 0
  {
    if rows != [] {
      var n := |rows|;
      var prior := ClosedIds(rows[..n - 1], account, code, relPath);
      ClosedOnce(rows[..n - 1], account, code, relPath, id);
      if Closes(rows[n - 1], account, code, relPath) {
        CountConcat(prior, [n], id);
        assert [n][..0] == [];
        assert Count([n], id) == if n == id then 1 else 0;
      } else {
        assert prior + [] == prior;
      }
    }
  }

  /** How often a row must have been reported. */
  function Due(rows: seq<Issue>, id: nat): nat {
    if 1 <= id <= |rows| && !Open(rows[id - 1]) then 1 else 0
  }

  /** The ids reported are those of the resolved rows, once each. */
  ghost predicate ReportedOnce(log: Log) {
    forall id: nat :: Count(log.reported, id) == Due(log.rows, id)
  }

  lemma StepOneOpen(log: Log, step: Step)
    requires OneOpenPerKey(log.rows)
    ensures OneOpenPerKey(Do(log, step).rows)
  {
  }

  lemma StepOccurrences(log: Log, step: Step, key: Key)
    ensures Occurrences(Do(log, step).rows, key) ==
            Occurrences(log.rows, key)
            + if step.Raise? && KeyOf(step.issue.account, step.issue.code, step.issue.relPath) == key
              then 1 else 0
  {
    var rows, later := log.rows, Do(log, step).rows;
    match step {
      case Raise(issue) =>
        var id := OpenId(rows, KeyOf(issue.account, issue.code, issue.relPath));
        if id > 0 {
          OccurrencesUpdate(rows, id - 1, Bumped(rows[id - 1], issue.report), key);
        } else {
          assert later[..|rows|] == rows;
        }
      case _ => OccurrencesSame(rows, later, key);
    }
  }

  lemma {:induction false} ReportResolve(log: Log, closed: int, resolution: string, id: nat)
    requires Count(log.reported, id) == Due(log.rows, id)
    ensures var later := Do(log, Resolve(closed, resolution)); Count(later.reported, id) == Due(later.rows, id)
  {
    hide Count;
    if Resolvable(log.rows, closed) {
      CountConcat(log.reported, [closed], id);
      CountOne(closed, id);
    }
  }

  lemma {:induction false} CountOne(one: nat, id: nat)
    ensures Count([one], id) == if one == id then 1 else 0
  {
    assert [one][..0] == [];
  }

  lemma {:induction false} ReportByCode(log: Log, account: string, code: string, relPath: Option<string>,
                                        resolution: string, id: nat)
    requires Count(log.reported, id) == Due(log.rows, id)
    ensures var later := Do(log, ResolveByCode(account, code, relPath, resolution));
      Count(later.reported, id) == Due(later.rows, id)
  {
    hide Count, ClosedIds;
    CountConcat(log.reported, ClosedIds(log.rows, account, code, relPath), id);
    ClosedOnce(log.rows, account, code, relPath, id);
  }

  lemma {:induction false} StepReported(log: Log, step: Step)
    requires ReportedOnce(log)
    ensures ReportedOnce(Do(log, step))
  {
    hide Count;
    forall id: nat ensures Count(Do(log, step).reported, id) == Due(Do(log, step).rows, id) {
      match step {
        case Resolve(closed, resolution) => ReportResolve(log, closed, resolution, id);
        case ResolveByCode(account, code, relPath, resolution) =>
          ReportByCode(log, account, code, relPath, resolution, id);
        case Raise(_) =>
        case Mute(_, _) =>
      }
    }
  }

  /**
   Over every run: at most one open row per key, every raise counted exactly once among the rows
   of its key, and each row reported resolved exactly once, namely when it is.
   */
  lemma {:induction false} EveryRun(steps: seq<Step>)
    ensures var log := DoAll(steps);
      && OneOpenPerKey(log.rows) && ReportedOnce(log)
      && forall key :: Occurrences(log.rows, key) == Raises(steps, key)
  {
    if steps != [] {
      var n := |steps| - 1;
      EveryRun(steps[..n]);
      var log := DoAll(steps[..n]);
      StepOneOpen(log, steps[n]);
      StepReported(log, steps[n]);
      forall key
        ensures Occurrences(DoAll(steps).rows, key) == Raises(steps, key)
      {
        StepOccurrences(log, steps[n], key);
      }
    }
  }

  // ---------------------------------------------------------------------------------------------
  // What each step does to the rows

  function PathText(relPath: Option<string>): string {
    match relPath
    case None => ""
    case Some(path) => path
  }

  predicate OpenTarget(row: Issue, issue: Raised) {
    && row.resolution == None && row.account == issue.account && row.code == issue.code
    && PathText(row.relPath) == PathText(issue.relPath)
  }

  /**
   A raise overwrites the report of the open row of its target and counts once more, and where there is
   none adds a row that was seen once; no other row changes.
   */
  lemma RaiseStores(rows: seq<Issue>, issue: Raised)
    ensures var after := Do(Log(rows, []), Raise(issue)).rows;
      if exists i :: 0 <= i < |rows| && OpenTarget(rows[i], issue) then
        exists i :: 0 <= i < |rows| && OpenTarget(rows[i], issue)
          && after == rows[i := rows[i].(report := issue.report, occurrences := rows[i].occurrences + 1)]
      else
        after == rows + [Issue(issue.account, issue.code, issue.relPath, issue.report, issue.firstSeen, 1, None,
                               issue.muted)]
  {
    var key := KeyOf(issue.account, issue.code, issue.relPath);
    forall row ensures OpenFor(row, key) <==> OpenTarget(row, issue) {
    }
    var id := OpenId(rows, key);
    if id > 0 {
      assert OpenTarget(rows[id - 1], issue);
    }
  }

  /** Which open rows `resolve_issues_by_code` closes. */
  predicate Matches(row: Issue, account: string, code: string, relPath: Option<string>) {
    && row.resolution == None && row.account == account && row.code == code
    && (relPath == None || row.relPath == relPath)
  }

  lemma ResolveByCodeStores(rows: seq<Issue>, account: string, code: string, relPath: Option<string>,
                            resolution: string)
    ensures var log := Do(Log(rows, []), ResolveByCode(account, code, relPath, resolution));
      && |log.rows| == |rows|
      && (forall i :: 0 <= i < |rows| ==>
            log.rows[i] == if Matches(rows[i], account, code, relPath) then rows[i].(resolution := Some(resolution))
                           else rows[i])
      && forall id: nat :: id in log.reported <==> 1 <= id <= |rows| && Matches(rows[id - 1], account, code, relPath)
  {
    forall id: nat
      ensures id in ClosedIds(rows, account, code, relPath)
         <==> 1 <= id <= |rows| && Matches(rows[id - 1], account, code, relPath)
    {
      InClosedIds(rows, account, code, relPath, id);
    }
    assert [] + ClosedIds(rows, account, code, relPath) == ClosedIds(rows, account, code, relPath);
  }

  lemma {:induction false} InClosedIds(rows: seq<Issue>, account: string, code: string, relPath: Option<string>,
                                       id: nat)
    ensures id in ClosedIds(rows, account, code, relPath)
       <==> 1 <= id <= |rows| && Matches(rows[id - 1], account, code, relPath)
  {
    if rows != [] {
      InClosedIds(rows[..|rows| - 1], account, code, relPath, id);
    }
  }

  /** One row is closed, hidden or shown, if there is such a row and, to close it, it is open. */
  lemma OneRowStores(rows: seq<Issue>, id: int, resolution: string, muted: bool)
    ensures Do(Log(rows, []), Resolve(id, resolution))
         == if 1 <= id <= |rows| && rows[id - 1].resolution == None
            then Log(rows[id - 1 := rows[id - 1].(resolution := Some(resolution))], [id]) else Log(rows, [])
    ensures Do(Log(rows, []), Mute(id, muted)).rows
         == if 1 <= id <= |rows| then rows[id - 1 := rows[id - 1].(muted := muted)] else rows
    ensures Do(Log(rows, []), Mute(id, muted)).reported == []
  {
  }

  // ---------------------------------------------------------------------------------------------
  // The table itself

  class Issues {
    var rows: seq<Issue>

    constructor ()
      ensures rows == []
    {
      rows := [];
    }

    /** Open an issue, or bump the one already open for the same target; returns its id. */
    method RaiseIssue(issue: Raised) returns (id: nat)
      modifies this
      ensures rows == Do(Log(old(rows), []), Raise(issue)).rows
      ensures 1 <= id <= |rows|
      ensures OpenFor(rows[id - 1], KeyOf(issue.account, issue.code, issue.relPath))
    {
      var key := KeyOf(issue.account, issue.code, issue.relPath);
      var i := 0;
      while i < |rows|
        invariant 0 <= i <= |rows| && rows == old(rows)
        invariant OpenId(rows[..i], key) == 0
      {
        assert rows[..i + 1][..i] == rows[..i];
        if OpenFor(rows[i], key) {
          FirstOpen(rows, i + 1, key);
          rows := rows[i := Bumped(rows[i], issue.report)];
          return i + 1;
        }
        i := i + 1;
      }
      assert rows[..i] == rows;
      rows := rows + [Fresh(issue)];
      return |rows|;
    }

    /** Close an open issue; false when it was resolved already or does not exist. */
    method ResolveIssue(id: int, resolution: string) returns (closed: bool)
      modifies this
      ensures closed ==> id >= 1
      ensures Do(Log(old(rows), []), Resolve(id, resolution)) == Log(rows, if closed then [id] else [])
    {
      closed := Resolvable(rows, id);
      if closed {
        rows := rows[id - 1 := CloseRow(rows[id - 1], resolution)];
      }
    }

    /** Hide an issue, or show it again, without resolving it. */
    method MuteIssue(id: int, muted: bool)
      modifies this
      ensures Log(rows, []) == Do(Log(old(rows), []), Mute(id, muted))
    {
      if 1 <= id <= |rows| {
        rows := rows[id - 1 := rows[id - 1].(muted := muted)];
      }
    }

    /** Close every open issue with a code, returning their ids. */
    method ResolveIssuesByCode(account: string, code: string, resolution: string, relPath: Option<string>)
      returns (ids: seq<nat>)
      modifies this
      ensures Do(Log(old(rows), []), ResolveByCode(account, code, relPath, resolution)) == Log(rows, ids)
    {
      hide ClosedIds, Closes, Swept;
      ids := [];
      ghost var before := rows;
      NoneClosed(account, code, relPath);
      assert before[..0] == [];
      var i := 0;
      while i < |rows|
        invariant 0 <= i <= |rows| == |before|
        invariant forall j :: 0 <= j < i ==> rows[j] == Swept(before[j], account, code, relPath, resolution)
        invariant forall j :: i <= j < |rows| ==> rows[j] == before[j]
        invariant ids == ClosedIds(before[..i], account, code, relPath)
      {
        NextClosed(before, i, account, code, relPath, resolution);
        if Closes(rows[i], account, code, relPath) {
          rows := rows[i := CloseRow(rows[i], resolution)];
          ids := ids + [i + 1];
        }
        i := i + 1;
      }
      assert before[..i] == before;
      assert rows == AfterResolveByCode(before, account, code, relPath, resolution);
    }
  }

  lemma {:induction false} NoneClosed(account: string, code: string, relPath: Option<string>)
    ensures ClosedIds([], account, code, relPath) == []
  {
  }

  lemma {:induction false} NextClosed(rows: seq<Issue>, i: nat, account: string, code: string, relPath: Option<string>,
                                      resolution: string)
    requires i < |rows|
    ensures ClosedIds(rows[..i + 1], account, code, relPath)
         == ClosedIds(rows[..i], account, code, relPath)
            + if Closes(rows[i], account, code, relPath) then [i + 1] else []
    ensures Swept(rows[i], account, code, relPath, resolution)
         == if Closes(rows[i], account, code, relPath) then CloseRow(rows[i], resolution) else rows[i]
  {
    hide Closes;
    assert rows[..i + 1][..i] == rows[..i];
  }

  lemma {:induction false} FirstOpen(rows: seq<Issue>, id: nat, key: Key)
    requires 1 <= id <= |rows| && OpenFor(rows[id - 1], key) && OpenId(rows[..id - 1], key) == 0
    ensures OpenId(rows, key) == id
  {
    if id == |rows| {
    } else {
      FirstOpen(rows[..|rows| - 1], id, key);
      assert rows[..|rows| - 1][..id - 1] == rows[..id - 1];
    }
  }
}
