/** The concurrent pool refines a sequential one. */
module WorkerRefinement {
  import opened Prelude
  import opened TaskTable
  import opened QueueBody
  import opened WorkerPool
  import opened WorkerWeights
  import opened WorkerSafety
  import opened WorkerOutcomes
  import opened WorkerDiscipline
  import opened WorkerBounds
  import opened WorkerTheorems
  import opened WorkerWrites

  /** One message worked on from start to end, nothing failing. */
  function ProcessOne(rows: Table, p: Payload, now: int): Table {
    Execute(Execute(rows, MarkProcessing(p.id), now), MarkOutcome(p.id, HandleTask(p)), now)
  }

  /** Messages worked on one at a time, in order. */
  function ProcessAll(rows: Table, ps: seq<Payload>, now: int): Table {
    if ps == [] then rows else ProcessOne(ProcessAll(rows, ps[..|ps| - 1], now), Last(ps), now)
  }

  datatype Outcome = Outcome(status: Status, resultFile: Option<string>, errorMessage: Option<string>)

  function OutcomeOf(row: Row): Outcome {
    Outcome(row.status, row.resultFile, row.errorMessage)
  }

  /** The table as CreateTask left it. */
  function AsCreated(rows: Table): Table {
    map id | id in rows :: rows[id].(status := PENDING, resultFile := None, errorMessage := None)
  }

  function Expected(taskType: string): Outcome {
    if KnownType(taskType) then Outcome(SUCCESS, Some(RESULT_FILE), None)
    else Outcome(FAILED, None, Some(UnknownType(taskType)))
  }

  /** The payloads that CreateTask published, in order. */
  function Payloads(rows: Table, ids: seq<int>): (ps: seq<Payload>)
    requires forall i | 0 <= i < |ids| :: ids[i] in rows
    ensures |ps| == |ids|
  {
    if ids == [] then [] else Payloads(rows, ids[..|ids| - 1]) + [PayloadOf(rows[Last(ids)])]
  }

  lemma ProcessOneOutcome(rows: Table, p: Payload, now: int, id: int)
    requires p.id in rows && id in rows
    ensures ProcessOne(rows, p, now).Keys == rows.Keys
    ensures OutcomeOf(ProcessOne(rows, p, now)[id]) ==
      if p.id != id then OutcomeOf(rows[id])
      else if KnownType(p.taskType) then Outcome(SUCCESS, Some(RESULT_FILE), rows[id].errorMessage)
      else Outcome(FAILED, rows[id].resultFile, Some(UnknownType(p.taskType)))
  {
  }

  lemma {:induction false} ProcessAllKeys(rows: Table, ids: seq<int>, now: int)
    requires KeyedById(rows) && forall i | 0 <= i < |ids| :: ids[i] in rows
    ensures ProcessAll(AsCreated(rows), Payloads(rows, ids), now).Keys == rows.Keys
  {
    if ids != [] {
      var rest := ids[..|ids| - 1];
      ProcessAllKeys(rows, rest, now);
      assert ids[|ids| - 1] in rows && rows[Last(ids)].id == Last(ids);
      assert Payloads(rows, ids)[..|ids| - 1] == Payloads(rows, rest);
      var before := ProcessAll(AsCreated(rows), Payloads(rows, rest), now);
      ProcessOneOutcome(before, PayloadOf(rows[Last(ids)]), now, Last(ids));
    } else {
      assert AsCreated(rows).Keys == rows.Keys;
    }
  }

  lemma {:induction false} ProcessAllGivesExpected(rows: Table, ids: seq<int>, now: int, id: int)
    requires KeyedById(rows) && id in rows && forall i | 0 <= i < |ids| :: ids[i] in rows
    ensures var after := ProcessAll(AsCreated(rows), Payloads(rows, ids), now);
      && id in after
      && OutcomeOf(after[id]) == if id in ids then Expected(rows[id].taskType) else Outcome(PENDING, None, None)
  {
    ProcessAllKeys(rows, ids, now);
    if ids == [] {
    } else {
      var rest := ids[..|ids| - 1];
      ProcessAllKeys(rows, rest, now);
      ProcessAllGivesExpected(rows, rest, now, id);
      assert ids[|ids| - 1] in rows && rows[Last(ids)].id == Last(ids);
      assert Payloads(rows, ids)[..|ids| - 1] == Payloads(rows, rest);
      assert ids == rest + [Last(ids)];
      ProcessOneOutcome(ProcessAll(AsCreated(rows), Payloads(rows, rest), now), PayloadOf(rows[Last(ids)]), now, id);
    }
  }

  /** One message at a time, a published task of the four known types ends SUCCESS with its result file, one of
      any other type FAILED with an error that names it, and the others stay PENDING. */
  lemma SequentialOutcomes(rows: Table, ids: seq<int>, now: int, id: int)
    requires KeyedById(rows) && id in rows && forall i | 0 <= i < |ids| :: ids[i] in rows
    ensures var after := ProcessAll(AsCreated(rows), Payloads(rows, ids), now);
      && id in after
      && OutcomeOf(after[id]) ==
         if id !in ids then Outcome(PENDING, None, None)
         else if rows[id].taskType in {"send_email", "generate_report", "resize_image", "cleanup_temp"}
         then Outcome(SUCCESS, Some("result.txt"), None)
         else Outcome(FAILED, None, Some("unknown task type: " + rows[id].taskType))
  {
    ProcessAllGivesExpected(rows, ids, now, id);
    HandlerAnswers(PayloadOf(rows[id]));
  }

  /** In every reachable state, a finished task has the outcome that its type calls for, unless four of its
      second transactions have failed. */
  lemma FinishedTaskHasOutcomeOfItsType(s: State, id: int)
    requires Reachable(s) && id in s.rows && Terminal(s.rows[id]) && Count(s.log.unfinalised, Some(id)) < 4
    ensures OutcomeOf(s.rows[id]) ==
      if s.rows[id].taskType in {"send_email", "generate_report", "resize_image", "cleanup_temp"}
      then Outcome(SUCCESS, Some("result.txt"), None)
      else Outcome(FAILED, None, Some("unknown task type: " + s.rows[id].taskType))
  {
    ReachableInvariant(s);
    assert RowHonest(s.rows[id], s.log, s.printable);
    HandlerAnswers(PayloadOf(s.rows[id]));
  }

  lemma {:induction false} CountedIsIn(ids: seq<int>, id: int)
    requires Count(ids, Some(id)) >= 1
    ensures id in ids
  {
    if Last(ids) == id {
    } else {
      CountedIsIn(ids[..|ids| - 1], id);
    }
  }

  lemma {:induction false} InIsCounted(ids: seq<int>, id: int)
    requires id in ids
    ensures Count(ids, Some(id)) >= 1
  {
    if Last(ids) == id {
    } else {
      InIsCounted(ids[..|ids| - 1], id);
    }
  }

  lemma PublishedTasksExist(s: State)
    requires PublishedOnce(s)
    ensures forall i | 0 <= i < |s.log.published| :: s.log.published[i] in s.rows
  {
    forall i | 0 <= i < |s.log.published| ensures s.log.published[i] in s.rows {
      InIsCounted(s.log.published, s.log.published[i]);
    }
  }

  /** The outcome that working on the published messages one at a time gives to a task. */
  function Sequential(s: State, now: int): Table
    requires forall i | 0 <= i < |s.log.published| :: s.log.published[i] in s.rows
  {
    ProcessAll(AsCreated(s.rows), Payloads(s.rows, s.log.published), now)
  }

  /** In every reachable state, whatever becomes of the other tasks and however often messages were
      redelivered: a finished task that did not run out of retries has the status, the result and the error
      that working on the published messages one at a time gives. */
  lemma FinishedTaskIsAsSequential(s: State, id: int, now: int)
    requires Reachable(s) && id in s.rows && Terminal(s.rows[id]) && id !in s.log.exhausted
    requires id !in s.creating && (id, PublishLost) !in s.log.leaks
    ensures forall i | 0 <= i < |s.log.published| :: s.log.published[i] in s.rows
    ensures id in Sequential(s, now) && OutcomeOf(s.rows[id]) == OutcomeOf(Sequential(s, now)[id])
  {
    ReachableInvariant(s);
    PublishedTasksExist(s);
    ProcessAllGivesExpected(s.rows, s.log.published, now, id);
    assert RowHonest(s.rows[id], s.log, s.printable);
    assert Count(s.log.published, Some(id)) + Creators(s, id) == 1;
    CountedIsIn(s.log.published, id);
  }

  /** Likewise a task that nobody still works on, if it did not leak. */
  lemma SettledTaskIsAsSequential(s: State, id: int, now: int)
    requires Reachable(s) && id in s.rows && Weight(Copies(id), s) == 0 && id !in s.creating
    requires id !in s.log.exhausted && forall leak :: (id, leak) !in s.log.leaks
    ensures forall i | 0 <= i < |s.log.published| :: s.log.published[i] in s.rows
    ensures id in Sequential(s, now) && OutcomeOf(s.rows[id]) == OutcomeOf(Sequential(s, now)[id])
  {
    if Unfinished(s.rows[id]) {
      NoTaskIsSilentlyLost(s, id);
    }
    FinishedTaskIsAsSequential(s, id, now);
  }

  /** When a pool of any number of workers is drained and no task leaked or ran out of retries, the whole
      table is the one that working on the published messages one at a time gives. */
  lemma ConcurrentPoolRefinesSequential(s: State, now: int)
    requires Reachable(s) && Drained(s) && s.log.leaks == {} && s.log.exhausted == {}
    ensures forall i | 0 <= i < |s.log.published| :: s.log.published[i] in s.rows
    ensures Sequential(s, now).Keys == s.rows.Keys
    ensures forall id | id in s.rows :: OutcomeOf(s.rows[id]) == OutcomeOf(Sequential(s, now)[id])
  {
    ReachableInvariant(s);
    PublishedTasksExist(s);
    ProcessAllKeys(s.rows, s.log.published, now);
    forall id | id in s.rows ensures OutcomeOf(s.rows[id]) == OutcomeOf(Sequential(s, now)[id]) {
      SettledSlotsAreNoCopies(id, s.slots);
      SettledTaskIsAsSequential(s, id, now);
    }
  }
}
