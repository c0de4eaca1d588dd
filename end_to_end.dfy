/**
 * What the dashboard shows of a workflow run: the files `runWorkflow` leaves
 * behind, read by the process list and the process viewer.
 */
module EndToEnd {
  import opened Base
  import opened ProcessIndex
  import opened JobRecords
  import opened Otp
  import opened Workflow
  import opened WorkflowFacts
  import opened ProcessList
  import opened ProcessDetails

  /** While a run is in progress the viewer's header spins and reads "Processing". */
  lemma RunningHeader(today: string)
    ensures !ShowsComplete(InitialKeyDetails(today))
    ensures HeaderLabel(InitialKeyDetails(today)) == "Processing"
  {
  }

  /** After a completed run the header of the new process shows the check mark and "Done". */
  lemma CompletedHeader(s: StoreState, inp: WorkflowInputs)
    requires |inp.stamps| >= 4 && |inp.otpPage| >= MaxAttempts
    requires RunSpec(s, inp).1 == Completed
    ensures var id, r := NextId(s.index), RunSpec(s, inp).0;
      && id in r.records
      && ShowsComplete(r.records[id].keyDetails) && HeaderLabel(r.records[id].keyDetails) == "Done"
  {
    var id := NextId(s.index);
    RunSuccess(s, inp);
    RunCompletesIff(s, inp);
    TryCompletesIff(StartedRecord(inp), inp, id);
    StartedRecordSpec(inp);
    TryCompletedRecord(StartedRecord(inp), inp, id);
    CompleteShowsDone(InitialKeyDetails(inp.today));
  }

  /** After a caught error the header still spins and reads "Processing". */
  lemma CaughtErrorHeader(s: StoreState, inp: WorkflowInputs)
    requires |inp.stamps| >= 4 && |inp.otpPage| >= MaxAttempts
    requires RunSpec(s, inp).1.CaughtError?
    ensures var id, r := NextId(s.index), RunSpec(s, inp).0;
      && id in r.records
      && !ShowsComplete(r.records[id].keyDetails) && HeaderLabel(r.records[id].keyDetails) == "Processing"
  {
    RunCaughtError(s, inp);
  }

  /** In the viewer, a caught error ends the timeline with a red dot carrying the message. */
  lemma CaughtErrorShowsRed(s: StoreState, inp: WorkflowInputs)
    requires |inp.stamps| >= 4 && |inp.otpPage| >= MaxAttempts
    requires RunSpec(s, inp).1.CaughtError?
    ensures var id, r := NextId(s.index), RunSpec(s, inp).0;
      && id in r.records && |r.records[id].logs| > 0
      && var last := r.records[id].logs[|r.records[id].logs| - 1];
      && DotColourOf(last.status) == Red
      && last.title == "Error: " + RunSpec(s, inp).1.message
  {
    RunCaughtError(s, inp);
  }

  lemma ByStatusOne(e: IndexEntry, status: string)
    ensures ByStatus([e], status) == if e.status == status then [e] else []
  {
    assert [e][1..] == [];
  }

  /**
   * In the list, a completed run adds its entry to the end of the "Done" tab
   * and leaves "In Progress" as it was; a run that throws, caught or not,
   * leaves its entry at the end of "In Progress".
   */
  lemma RunInListTabs(s: StoreState, inp: WorkflowInputs)
    requires |inp.stamps| >= 4 && |inp.otpPage| >= MaxAttempts
    ensures var id, r := NextId(s.index), RunSpec(s, inp).0;
      && (RunSpec(s, inp).1 == Completed ==>
            && ByStatus(r.index, "Done") == ByStatus(s.index, "Done") + [NewEntry(inp, id).(status := "Done")]
            && ByStatus(r.index, "In Progress") == ByStatus(s.index, "In Progress"))
      && (RunSpec(s, inp).1 != Completed ==>
            && ByStatus(r.index, "In Progress") == ByStatus(s.index, "In Progress") + [NewEntry(inp, id)]
            && ByStatus(r.index, "Done") == ByStatus(s.index, "Done"))
  {
    var id := NextId(s.index);
    var entry := NewEntry(inp, id);
    if inp.launchFails {
      RunLaunchFailed(s, inp);
    } else if RunSpec(s, inp).1 == Completed {
      RunSuccess(s, inp);
      entry := entry.(status := "Done");
    } else {
      RunCaughtError(s, inp);
    }
    ByStatusAppend(s.index, [entry], "Done");
    ByStatusAppend(s.index, [entry], "In Progress");
    ByStatusOne(entry, "Done");
    ByStatusOne(entry, "In Progress");
  }

  predicate StringIds(index: seq<IndexEntry>) {
    forall i :: 0 <= i < |index| ==> index[i].id.Str?
  }

  lemma StringIdsAppend(index: seq<IndexEntry>, e: IndexEntry)
    requires StringIds(index) && e.id.Str?
    ensures StringIds(index + [e])
  {
  }

  /** The runner only ever writes JSON string ids. */
  lemma RunKeepsStringIds(s: StoreState, inp: WorkflowInputs)
    requires |inp.stamps| >= 4 && |inp.otpPage| >= MaxAttempts
    requires StringIds(s.index)
    ensures StringIds(RunSpec(s, inp).0.index)
  {
    var entry := NewEntry(inp, NextId(s.index));
    if inp.launchFails {
      RunLaunchFailed(s, inp);
    } else if RunSpec(s, inp).1 == Completed {
      RunSuccess(s, inp);
      entry := entry.(status := "Done");
    } else {
      RunCaughtError(s, inp);
    }
    StringIdsAppend(s.index, entry);
  }

  /**
   * When the index the viewer fetches holds JSON string ids, as the index the
   * runner writes does, the viewer's position as written is never found, while
   * by value every listed process is found. The runner writes
   * `src/data/processes.json` and the viewer fetches `/data/processes.json`;
   * whatever copies one to the other is not part of this model.
   */
  lemma ViewerOnRunnerIndex(index: seq<IndexEntry>, n: nat)
    requires StringIds(index)
    ensures IndexAsWritten(SortIds(Ids(index)), n) == -1
    ensures (exists e :: e in index && NumericValue(e.id) == n) ==> CurrentIndex(SortIds(Ids(index)), n) >= 0
  {
    var ids := Ids(index);
    var sorted := SortIds(ids);
    forall i | 0 <= i < |sorted|
      ensures sorted[i].Str?
    {
      assert sorted[i] in multiset(ids);
    }
    StringIdsNeverFound(sorted, n);
    if exists e :: e in index && NumericValue(e.id) == n {
      var e :| e in index && NumericValue(e.id) == n;
      assert e.id in multiset(sorted);
    }
  }
}
