/** The tasks table, the statements that the repository runs on it, and transactions. */
module TaskTable {
  import opened Prelude

  datatype Status = PENDING | PROCESSING | SUCCESS | FAILED

  datatype Row = Row(id: int, userId: int, taskType: string, status: Status,
                     resultFile: Option<string>, errorMessage: Option<string>,
                     createdAt: int, updatedAt: int)

  type Table = map<int, Row>

  datatype Statement =
    | Insert(id: int, userId: int, taskType: string, status: Status)
    | MarkProcessing(id: int)
    | MarkSuccess(id: int, resultFile: string)
    | MarkFailed(id: int, errorMessage: string)

  /** The table after a statement at instant `now`. An update of a missing row changes nothing and is
      no error; no update looks at the old status. */
  function Execute(rows: Table, st: Statement, now: int): Table {
    if st.Insert? then
      rows[st.id := Row(st.id, st.userId, st.taskType, st.status, None, None, now, now)]
    else if st.id !in rows then rows
    else
      var row := rows[st.id];
      match st
      case MarkProcessing(_) => rows[st.id := row.(status := PROCESSING, updatedAt := now)]
      case MarkSuccess(_, file) => rows[st.id := row.(status := SUCCESS, resultFile := Some(file), updatedAt := now)]
      case MarkFailed(_, text) => rows[st.id := row.(status := FAILED, errorMessage := Some(text), updatedAt := now)]
  }

  /** The columns that no update touches. */
  predicate SameIdentity(r: Row, s: Row) {
    r.id == s.id && r.userId == s.userId && r.taskType == s.taskType && r.createdAt == s.createdAt
  }

  /** Rows stay, and keep their identity. */
  predicate Evolves(before: Table, after: Table) {
    forall id | id in before :: id in after && SameIdentity(before[id], after[id])
  }

  predicate KeyedById(rows: Table) {
    forall id | id in rows :: rows[id].id == id
  }

  datatype Fault = NoFault | BeginFails | StatementFails | CommitFails | Panics

  datatype TxResult = Committed | Error | Panicked

  /** No statement removes a row or changes the identity of one that is there. */
  lemma StatementsKeepIdentity(rows: Table, st: Statement, now: int)
    requires st.Insert? ==> st.id !in rows
    ensures Evolves(rows, Execute(rows, st, now))
    ensures KeyedById(rows) ==> KeyedById(Execute(rows, st, now))
    ensures Execute(rows, st, now) - {st.id} == rows - {st.id}
    ensures forall id | id in rows :: id in Execute(rows, st, now) &&
              var r, t := rows[id], Execute(rows, st, now)[id];
              r.id == t.id && r.userId == t.userId && r.taskType == t.taskType && r.createdAt == t.createdAt
  {
  }

  /** The row that a statement is about has the columns that the statement sets, and the instant of the
      statement as its time of update; its other columns stay. */
  lemma StatementsWriteTheirColumns(rows: Table, st: Statement, now: int)
    requires st.Insert? || st.id in rows
    ensures st.id in Execute(rows, st, now) && Execute(rows, st, now)[st.id].updatedAt == now
    ensures var t := Execute(rows, st, now)[st.id]; match st
      case Insert(id, userId, taskType, status) =>
        && t.id == id && t.userId == userId && t.taskType == taskType && t.status == status
        && t.createdAt == now && t.resultFile == None && t.errorMessage == None
      case MarkProcessing(id) =>
        t.status == PROCESSING && t.resultFile == rows[id].resultFile && t.errorMessage == rows[id].errorMessage
      case MarkSuccess(id, file) =>
        t.status == SUCCESS && t.resultFile == Some(file) && t.errorMessage == rows[id].errorMessage
      case MarkFailed(id, text) =>
        t.status == FAILED && t.resultFile == rows[id].resultFile && t.errorMessage == Some(text)
  {
  }

  /** The ids of a user's rows, each once, in the order in which a query happens to yield them. */
  predicate IsCursor(rows: Table, userId: int, cursor: seq<int>) {
    && (forall i, j | 0 <= i < j < |cursor| :: cursor[i] != cursor[j])
    && (forall i | 0 <= i < |cursor| :: cursor[i] in rows && rows[cursor[i]].userId == userId)
    && (forall id | id in rows && rows[id].userId == userId :: id in cursor)
  }

  function Scanned(rows: Table, cursor: seq<int>, unreadable: set<int>): seq<Row>
    requires forall i | 0 <= i < |cursor| :: cursor[i] in rows
  {
    if cursor == [] then [] else
    Scanned(rows, cursor[..|cursor| - 1], unreadable)
    + if Last(cursor) in unreadable then [] else [rows[Last(cursor)]]
  }

  lemma {:induction false} ScannedRows(rows: Table, cursor: seq<int>, unreadable: set<int>)
    requires KeyedById(rows) && forall i | 0 <= i < |cursor| :: cursor[i] in rows
    ensures forall t | t in Scanned(rows, cursor, unreadable) ::
              t.id in rows && rows[t.id] == t && t.id in cursor && t.id !in unreadable
    ensures forall id | id in cursor && id !in unreadable :: id in rows && rows[id] in Scanned(rows, cursor, unreadable)
  {
    if cursor == [] {
    } else {
      ScannedRows(rows, cursor[..|cursor| - 1], unreadable);
      assert cursor == cursor[..|cursor| - 1] + [Last(cursor)];
      assert rows[Last(cursor)].id == Last(cursor);
    }
  }

  /** a stands before b. */
  predicate Before(cursor: seq<int>, a: int, b: int) {
    exists p, q :: 0 <= p < q < |cursor| && cursor[p] == a && cursor[q] == b
  }

  predicate InCursorOrder(tasks: seq<Row>, cursor: seq<int>) {
    forall i, j | 0 <= i < j < |tasks| :: Before(cursor, tasks[i].id, tasks[j].id)
  }

  predicate DistinctIds(tasks: seq<Row>) {
    forall i, j | 0 <= i < j < |tasks| :: tasks[i].id != tasks[j].id
  }

  lemma {:induction false} ScannedInOrder(rows: Table, cursor: seq<int>, unreadable: set<int>)
    requires KeyedById(rows) && forall i | 0 <= i < |cursor| :: cursor[i] in rows
    ensures InCursorOrder(Scanned(rows, cursor, unreadable), cursor)
  {
    if cursor == [] {
    } else {
      var n := |cursor| - 1;
      var before, all := Scanned(rows, cursor[..n], unreadable), Scanned(rows, cursor, unreadable);
      ScannedInOrder(rows, cursor[..n], unreadable);
      ScannedRows(rows, cursor[..n], unreadable);
      forall i, j | 0 <= i < j < |all| ensures Before(cursor, all[i].id, all[j].id) {
        assert all[i] == before[i];
        if j < |before| {
          assert Before(cursor[..n], before[i].id, before[j].id);
          var p, q :| 0 <= p < q < n && cursor[..n][p] == before[i].id && cursor[..n][q] == before[j].id;
          assert cursor[p] == before[i].id && cursor[q] == before[j].id;
        } else {
          assert before[i] in before;
          var p :| 0 <= p < n && cursor[..n][p] == before[i].id;
          assert cursor[p] == before[i].id && cursor[n] == all[j].id;
        }
      }
    }
  }

  lemma OrderedIsDistinct(tasks: seq<Row>, cursor: seq<int>)
    requires InCursorOrder(tasks, cursor) && forall i, j | 0 <= i < j < |cursor| :: cursor[i] != cursor[j]
    ensures DistinctIds(tasks)
  {
    forall i, j | 0 <= i < j < |tasks| ensures tasks[i].id != tasks[j].id {
      assert Before(cursor, tasks[i].id, tasks[j].id);
    }
  }

  /** The list of a user has every readable row of the user once and no other, as it is in the table, in the
      order of the query. */
  lemma UserListIsComplete(rows: Table, userId: int, cursor: seq<int>, unreadable: set<int>)
    requires KeyedById(rows) && IsCursor(rows, userId, cursor)
    ensures InCursorOrder(Scanned(rows, cursor, unreadable), cursor)
    ensures DistinctIds(Scanned(rows, cursor, unreadable))
    ensures forall t :: t in Scanned(rows, cursor, unreadable) <==>
              t.id in rows && rows[t.id] == t && t.userId == userId && t.id !in unreadable
  {
    ScannedRows(rows, cursor, unreadable);
    ScannedInOrder(rows, cursor, unreadable);
    OrderedIsDistinct(Scanned(rows, cursor, unreadable), cursor);
    forall t ensures t in Scanned(rows, cursor, unreadable) <==>
                     t.id in rows && rows[t.id] == t && t.userId == userId && t.id !in unreadable
    {
      if t in Scanned(rows, cursor, unreadable) {
        var i :| 0 <= i < |cursor| && cursor[i] == t.id;
      }
    }
  }

  /** What a query answers. */
  datatype Queried<+T> = Got(value: T) | NotFound | QueryFailed

  /** The committed table, and the copy that an open transaction works on. */
  class Database {
    var rows: Table
    var nextId: int
    var working: Table

    constructor ()
      ensures rows == map[] && nextId == 1
    {
      rows, nextId, working := map[], 1, map[];
    }

    /** The callback that WithTransaction is given: one statement. An insert draws its id from the
        sequence, which no rollback takes back. */
    method Run(st: Statement, now: int)
      modifies this`working, this`nextId
      ensures working == Execute(old(working), st, now)
      ensures !st.Insert? || st.id !in old(working) ==> Evolves(old(working), working)
      ensures working - {st.id} == old(working) - {st.id}
      ensures KeyedById(old(working)) ==> KeyedById(working)
      ensures !st.Insert? && st.id !in old(working) ==> working == old(working)
      ensures st.Insert? || st.id in old(working) ==> st.id in working && working[st.id].updatedAt == now
      ensures nextId == if st.Insert? then old(nextId) + 1 else old(nextId)
    {
      if !st.Insert? || st.id !in working {
        StatementsKeepIdentity(working, st, now);
      }
      if st.Insert? {
        nextId := nextId + 1;
      }
      working := Execute(working, st, now);
    }

    /** All or nothing: the statement is committed exactly when nothing fails on the way, and
        otherwise the table stays as it was; a panic passes through after the rollback. */
    method WithTransaction(st: Statement, fault: Fault, now: int) returns (result: TxResult)
      modifies this
      ensures result == if fault.NoFault? then Committed else if fault.Panics? then Panicked else Error
      ensures rows == if result.Committed? then Execute(old(rows), st, now) else old(rows)
      ensures old(nextId) <= nextId <= old(nextId) + 1
      ensures nextId != old(nextId) ==> st.Insert? && !fault.BeginFails?
      ensures result.Committed? && st.Insert? ==> nextId == old(nextId) + 1
    {
      if fault.BeginFails? {
        return Error;
      }
      working := rows;
      if fault.StatementFails? {
        working := rows;
        return Error;
      }
      Run(st, now);
      if fault.Panics? {
        working := rows;
        return Panicked;
      }
      if fault.CommitFails? {
        working := rows;
        return Error;
      }
      rows := working;
      result := Committed;
    }

    method GetByID(id: int, fails: bool) returns (r: Queried<Row>)
      ensures r.QueryFailed? <==> fails
      ensures r.NotFound? ==> id !in rows
      ensures r.Got? ==> id in rows && r.value == rows[id]
    {
      if fails {
        return QueryFailed;
      }
      r := if id in rows then Got(rows[id]) else NotFound;
    }

    /** The rows under the ids that the query for a user yields, in the order in which it yields them;
        a row that fails to scan is left out. The query may fail, or break off after some rows. */
    method GetByUserID(userId: int, cursor: seq<int>, unreadable: set<int>, fails: bool, breaksOff: Option<nat>)
      returns (r: Queried<seq<Row>>)
      requires IsCursor(rows, userId, cursor)
      requires breaksOff.Some? ==> breaksOff.value <= |cursor|
      ensures r.QueryFailed? <==> fails || breaksOff.Some?
      ensures !r.QueryFailed? ==> r == Got(Scanned(rows, cursor, unreadable))
      ensures r.Got? && KeyedById(rows) ==>
        && InCursorOrder(r.value, cursor) && DistinctIds(r.value)
        && forall t :: t in r.value <==>
             t.id in rows && rows[t.id] == t && t.userId == userId && t.id !in unreadable
    {
      if fails {
        return QueryFailed;
      }
      var tasks := [];
      for n := 0 to if breaksOff.Some? then breaksOff.value else |cursor|
        invariant tasks == Scanned(rows, cursor[..n], unreadable)
      {
        assert cursor[..n + 1][..n] == cursor[..n];
        if cursor[n] in unreadable {
          continue;
        }
        tasks := tasks + [rows[cursor[n]]];
      }
      if breaksOff.Some? {
        return QueryFailed;
      }
      assert cursor[..|cursor|] == cursor;
      if KeyedById(rows) {
        UserListIsComplete(rows, userId, cursor, unreadable);
      }
      r := Got(tasks);
    }
  }
}
