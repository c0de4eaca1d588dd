/**
 * `runWorkflow` of run_kyriba_workflow.js: it allocates a process, writes the
 * index entry and the process record, logs each automation step, finalises the
 * step in place once it has succeeded, flips the entry to "Done" at the end and
 * appends an error log when a step throws.
 *
 * The two JSON files are the fields of a `ProcessStore`: the index
 * (processes.json) as a sequence of entries and the records (process_<id>.json)
 * as a map from process id to record. The browser is replaced by its readings:
 * the OTP page, the stage that fails (if any) with its message, the recorded
 * video's file name and the timestamps taken when logs are created.
 */
module Workflow {
  import opened Base
  import opened JsText
  import opened ProcessIndex
  import opened JobRecords
  import opened Otp

  /** The two JSON files as values. */
  datatype StoreState = StoreState(index: seq<IndexEntry>, records: map<nat, ProcessRecord>)

  /** The browser steps inside the `try` that can throw, in the order they run. */
  datatype Stage =
    | OtpPage      // opening the OTP generator and signing in
    | KyribaLogin  // opening the Kyriba login page, filling the code, waiting for /home
    | DateFilters  // opening Cash Position and picking the two dates
    | PdfDownload  // printing and saving the PDF

  datatype Failure = Failure(stage: Stage, message: string)

  /** Everything `runWorkflow` learns from outside the two JSON files. */
  datatype WorkflowInputs = WorkflowInputs(
    startDate: string,
    endDate: string,
    today: string,               // `new Date().toISOString().split('T')[0]`
    stamps: seq<Stamp>,          // the times of the four step logs, in order
    errorStamp: Stamp,           // the time of the error log
    launchFails: bool,           // `chromium.launch` (or the context) rejects, before the `try`
    otpPage: seq<OtpReading>,    // what the OTP page shows at each timer read
    failure: Option<Failure>,    // the first browser step that throws, with its message
    videoFile: string)           // the base name of `page.video().path()`

  /** A record after some logged steps, with the message of the error one of them threw, if any. */
  datatype Attempt = Attempt(rec: ProcessRecord, thrown: Option<string>)

  /** How a run ends. A launch failure is not caught: the promise rejects and no error log is written. */
  datatype RunOutcome = Completed | CaughtError(message: string) | LaunchFailed

  function FailsAt(inp: WorkflowInputs, stage: Stage): bool {
    inp.failure.Some? && inp.failure.value.stage == stage
  }

  function NewEntry(inp: WorkflowInputs, id: nat): IndexEntry {
    IndexEntry(Str(id), "Extracting Data from " + inp.startDate + " to " + inp.endDate, "Cash", inp.today, "In Progress")
  }

  function InitialKeyDetails(today: string): map<string, string> {
    map["processName" := "Cash Position Extraction", "team" := "Cash", "processingDate" := today,
        "status" := "Processing"]
  }

  function InitialRecord(today: string): ProcessRecord {
    ProcessRecord([], InitialKeyDetails(today), [])
  }

  function RequestTitle(inp: WorkflowInputs): string {
    "Received request for Cash Position Data from " + inp.startDate + " to " + inp.endDate + " with Daily steps"
  }

  const LoginTitle: string := "Logging into Kyriba Portal with OTP Authentication"

  function FilteringTitle(inp: WorkflowInputs): string {
    "Applying Date filters to extract Cash Position Data: Daily steps - " + inp.startDate + " to " + inp.endDate
      + " while processing"
  }

  function FilteredTitle(inp: WorkflowInputs): string {
    "Applied Date filters to extract Cash Position Data: Daily steps - " + inp.startDate + " to " + inp.endDate
  }

  const DownloadingTitle: string := "Downloading Filtered PDF"
  const DownloadedTitle: string := "Successfully downloaded Filtered PDF"

  function LoginVideo(id: nat, videoFile: string): Artifact {
    Artifact("video", "Login Video", "art-login-" + DecimalString(id), "video", VideoPath("/videos/" + videoFile))
  }

  function ExtractionVideo(id: nat, videoFile: string): Artifact {
    Artifact("video", "Extraction Video", "art-extract-" + DecimalString(id), "video", VideoPath("/videos/" + videoFile))
  }

  function PdfArtifact(id: nat): Artifact {
    Artifact("file", "Cash Position PDF", "art-pdf-" + DecimalString(id), "file",
             PdfPath("/data/process_" + DecimalString(id) + "_data.pdf"))
  }

  /** `findIndex(p => p.id === id)`: the first position holding exactly that JSON id, or -1. */
  function FindIndex(entries: seq<IndexEntry>, id: JsonId): (k: int)
    ensures -1 <= k < |entries|
    ensures k == -1 <==> forall j :: 0 <= j < |entries| ==> entries[j].id != id
    ensures k >= 0 ==> entries[k].id == id && forall j :: 0 <= j < k ==> entries[j].id != id
  {
    if entries == [] then -1
    else if entries[0].id == id then 0
    else
      var k := FindIndex(entries[1..], id);
      assert forall j :: 1 <= j < |entries| ==> entries[j] == entries[1..][j - 1];
      if k == -1 then -1 else k + 1
  }

  function Lookup(records: map<nat, ProcessRecord>, id: nat): Option<ProcessRecord> {
    if id in records then Some(records[id]) else None
  }

  /** The index after the runner's final update: the first entry whose id is exactly `Str(id)` gets status "Done". */
  function DoneIndex(index: seq<IndexEntry>, id: nat): (r: seq<IndexEntry>)
    ensures |r| == |index|
  {
    var k := FindIndex(index, Str(id));
    if k == -1 then index else index[k := index[k].(status := "Done")]
  }

  /**
   * One logged browser step of the `try` block: the step's log is appended with
   * status 'processing'; if the step throws, the record stays so and the error is
   * returned; otherwise the last log is finalised with the step's artifact.
   */
  function StepRecord(rec: ProcessRecord, log: Log, thrown: Option<string>, title: Option<string>,
                      artifact: Artifact): (r: Attempt)
    ensures r.thrown == thrown
  {
    var rec := LoggedRecord(Some(rec), Some(log), map[]);
    if thrown.Some? then Attempt(rec, thrown) else Attempt(FinalisedRecord(rec, title, [artifact]), None)
  }

  /** What the login step ("Log 2") throws: the OTP page, the OTP wait or the Kyriba login, in that order. */
  function LoginError(inp: WorkflowInputs): Option<string>
    requires |inp.otpPage| >= MaxAttempts
  {
    if FailsAt(inp, OtpPage) then Some(inp.failure.value.message)
    else match RunnerOtp(OtpSpec(inp.otpPage, ThrowWhenNoDigits))
      case Err(m) => Some(m)
      case Ok(_) => if FailsAt(inp, KyribaLogin) then Some(inp.failure.value.message) else None
  }

  /** What a later step throws, if the failing stage is that step. */
  function StageError(inp: WorkflowInputs, stage: Stage): Option<string> {
    if FailsAt(inp, stage) then Some(inp.failure.value.message) else None
  }

  /** "Log 1", written as 'success' before the browser starts. */
  function RequestLog(inp: WorkflowInputs): Log
    requires |inp.stamps| >= 4
  {
    StepLog(inp.stamps[0], RequestTitle(inp), "success")
  }

  /** The logs of "Log 2", "Log 3" and "Log 4" as the runner appends them, still 'processing'. */
  function LoginLog(inp: WorkflowInputs): Log
    requires |inp.stamps| >= 4
  {
    StepLog(inp.stamps[1], LoginTitle, "processing")
  }

  function FilteringLog(inp: WorkflowInputs): Log
    requires |inp.stamps| >= 4
  {
    StepLog(inp.stamps[2], FilteringTitle(inp), "processing")
  }

  function DownloadingLog(inp: WorkflowInputs): Log
    requires |inp.stamps| >= 4
  {
    StepLog(inp.stamps[3], DownloadingTitle, "processing")
  }

  function LoginStep(rec: ProcessRecord, inp: WorkflowInputs, id: nat): Attempt
    requires |inp.stamps| >= 4 && |inp.otpPage| >= MaxAttempts
  {
    StepRecord(rec, LoginLog(inp), LoginError(inp), None,
               LoginVideo(id, inp.videoFile))
  }

  function FilterStep(rec: ProcessRecord, inp: WorkflowInputs, id: nat): Attempt
    requires |inp.stamps| >= 4
  {
    StepRecord(rec, FilteringLog(inp), StageError(inp, DateFilters),
               Some(FilteredTitle(inp)), ExtractionVideo(id, inp.videoFile))
  }

  function DownloadStep(rec: ProcessRecord, inp: WorkflowInputs, id: nat): Attempt
    requires |inp.stamps| >= 4
  {
    StepRecord(rec, DownloadingLog(inp), StageError(inp, PdfDownload),
               Some(DownloadedTitle), PdfArtifact(id))
  }

  /**
   * The `try` block of `runWorkflow` from "Log 2" on, as its effect on the new
   * process's record: the record when the block ends or throws, and the message
   * of the error thrown. (The block also flips the index entry to "Done" just
   * before its last record update; `RunSpec` applies that to the index.)
   */
  function TryRecord(rec: ProcessRecord, inp: WorkflowInputs, id: nat): Attempt
    requires |inp.stamps| >= 4 && |inp.otpPage| >= MaxAttempts
  {
    var a := LoginStep(rec, inp, id);
    if a.thrown.Some? then a else AfterLogin(a.rec, inp, id)
  }

  /** The `try` block after the login step: "Log 3" and what follows. */
  function AfterLogin(rec: ProcessRecord, inp: WorkflowInputs, id: nat): Attempt
    requires |inp.stamps| >= 4
  {
    var a := FilterStep(rec, inp, id);
    if a.thrown.Some? then a else AfterFilters(a.rec, inp, id)
  }

  /** The `try` block after the date filters: "Log 4" and the final status update. */
  function AfterFilters(rec: ProcessRecord, inp: WorkflowInputs, id: nat): Attempt
    requires |inp.stamps| >= 4
  {
    var a := DownloadStep(rec, inp, id);
    if a.thrown.Some? then a else Attempt(LoggedRecord(Some(a.rec), None, map["status" := "Complete"]), None)
  }

  /** The record of a new process once "Log 1" is written. */
  function StartedRecord(inp: WorkflowInputs): ProcessRecord
    requires |inp.stamps| >= 4
  {
    LoggedRecord(Some(InitialRecord(inp.today)), Some(RequestLog(inp)), map[])
  }

  /** The files once the new process is registered and "Log 1" is written. */
  function StartedState(s: StoreState, inp: WorkflowInputs): StoreState
    requires |inp.stamps| >= 4
  {
    var id := NextId(s.index);
    StoreState(s.index + [NewEntry(inp, id)], s.records[id := StartedRecord(inp)])
  }

  /**
   * The `try` block on process `id`, whose record is `rec`, and its `catch`,
   * which appends the error log.
   */
  function CatchSpec(s: StoreState, rec: ProcessRecord, inp: WorkflowInputs, id: nat): (StoreState, RunOutcome)
    requires |inp.stamps| >= 4 && |inp.otpPage| >= MaxAttempts
  {
    var a := TryRecord(rec, inp, id);
    if a.thrown.None? then (StoreState(DoneIndex(s.index, id), s.records[id := a.rec]), Completed)
    else
      var rec := LoggedRecord(Some(a.rec), Some(ErrorLog(inp.errorStamp, a.thrown.value)), map[]);
      (StoreState(s.index, s.records[id := rec]), CaughtError(a.thrown.value))
  }

  /** `runWorkflow(startDate, endDate)`: the two files afterwards and how the run ends. */
  function RunSpec(s: StoreState, inp: WorkflowInputs): (StoreState, RunOutcome)
    requires |inp.stamps| >= 4 && |inp.otpPage| >= MaxAttempts
  {
    var started := StartedState(s, inp);
    if inp.launchFails then (started, LaunchFailed)
    else CatchSpec(started, StartedRecord(inp), inp, NextId(s.index))
  }

  /** The index and the process records, updated in place as the runner rewrites the JSON files. */
  class ProcessStore {
    var index: seq<IndexEntry>
    var records: map<nat, ProcessRecord>

    constructor (index0: seq<IndexEntry>, records0: map<nat, ProcessRecord>)
      ensures index == index0 && records == records0
    {
      index := index0;
      records := records0;
    }

    function State(): StoreState
      reads this
    {
      StoreState(index, records)
    }

    /** `processes.push(newProcess)` and the write of processes.json. */
    method AddEntry(entry: IndexEntry)
      modifies this
      ensures index == old(index) + [entry] && records == old(records)
    {
      index := index + [entry];
    }

    /** Writing process_<id>.json with the given content. */
    method WriteRecord(id: nat, rec: ProcessRecord)
      modifies this
      ensures records == old(records)[id := rec] && index == old(index)
    {
      records := records[id := rec];
    }

    /** `updateProcessLog(processId, newLog, keyDetailsUpdate)`. */
    method UpdateProcessLog(id: nat, newLog: Option<Log>, keyDetailsUpdate: map<string, string>)
      modifies this
      ensures records == old(records)[id := LoggedRecord(Lookup(old(records), id), newLog, keyDetailsUpdate)]
      ensures index == old(index)
    {
      var data := if id in records then records[id] else EmptyRecord;
      if newLog.Some? {
        data := data.(logs := data.logs + [newLog.value]);
        if newLog.value.artifacts.Some? {
          data := data.(sidebarArtifacts := data.sidebarArtifacts + newLog.value.artifacts.value);
        }
      }
      data := data.(keyDetails := data.keyDetails + keyDetailsUpdate);
      records := records[id := data];
    }

    /** A finalisation block: the fields of `logs[length - 1]` are written in place and the artifacts pushed to the sidebar. */
    method FinaliseLastLog(id: nat, title: Option<string>, artifacts: seq<Artifact>)
      requires id in records && records[id].logs != []
      modifies this
      ensures records == old(records)[id := FinalisedRecord(old(records)[id], title, artifacts)]
      ensures index == old(index)
    {
      var data := records[id];
      var i := |data.logs| - 1;
      var log := data.logs[i];
      if title.Some? {
        log := log.(title := title.value);
      }
      log := log.(status := "success");
      log := log.(artifacts := Some(artifacts));
      data := data.(logs := data.logs[i := log]);
      data := data.(sidebarArtifacts := data.sidebarArtifacts + artifacts);
      records := records[id := data];
    }

    /** `allProcesses[findIndex(p => p.id === newId)].status = "Done"` when the id is found. */
    method MarkDone(id: nat)
      modifies this
      ensures index == DoneIndex(old(index), id) && records == old(records)
    {
      var k := FindIndex(index, Str(id));
      if k != -1 {
        index := index[k := index[k].(status := "Done")];
      }
    }

    /** A logged browser step: append its log, run it (`thrown` is what it throws), finalise the log. */
    method BrowserStep(id: nat, log: Log, thrown: Option<string>, title: Option<string>, artifact: Artifact)
      returns (err: Option<string>)
      requires id in records
      modifies this
      ensures var a := StepRecord(old(records)[id], log, thrown, title, artifact);
        err == a.thrown && records == old(records)[id := a.rec] && index == old(index)
    {
      ghost var records0 := records;
      UpdateProcessLog(id, Some(log), map[]);
      if thrown.Some? {
        return thrown;
      }
      ghost var records1 := records;
      FinaliseLastLog(id, title, [artifact]);
      OverwriteTwice(records0, id, records1[id], records[id]);
      err := None;
    }

    /** "Log 2": the OTP page, the fresh-OTP wait and the Kyriba login. */
    method LoginSteps(inp: WorkflowInputs, id: nat) returns (err: Option<string>)
      requires |inp.stamps| >= 4 && |inp.otpPage| >= MaxAttempts
      requires id in records
      modifies this
      ensures var a := LoginStep(old(records)[id], inp, id);
        err == a.thrown && records == old(records)[id := a.rec] && index == old(index)
    {
      var thrown: Option<string> := None;
      if FailsAt(inp, OtpPage) {
        thrown := Some(inp.failure.value.message);
      } else {
        var run := AwaitFreshOtp(inp.otpPage, ThrowWhenNoDigits);
        var otp := RunnerOtp(run);
        if otp.Err? {
          thrown := Some(otp.message);
        } else if FailsAt(inp, KyribaLogin) {
          thrown := Some(inp.failure.value.message);
        }
      }
      err := BrowserStep(id, LoginLog(inp), thrown, None,
                         LoginVideo(id, inp.videoFile));
    }

    /** The `try` block from "Log 2" on; returns the message of the error it throws, if any. */
    method TrySteps(inp: WorkflowInputs, id: nat) returns (err: Option<string>)
      requires |inp.stamps| >= 4 && |inp.otpPage| >= MaxAttempts
      requires id in records
      modifies this
      ensures var a := TryRecord(old(records)[id], inp, id);
        && err == a.thrown
        && records == old(records)[id := a.rec]
        && index == (if a.thrown.None? then DoneIndex(old(index), id) else old(index))
    {
      ghost var records0 := records;
      err := LoginSteps(inp, id);
      if err.None? {
        ghost var records1 := records;
        err := StepsAfterLogin(inp, id);
        OverwriteTwice(records0, id, records1[id], records[id]);
      }
    }

    method StepsAfterLogin(inp: WorkflowInputs, id: nat) returns (err: Option<string>)
      requires |inp.stamps| >= 4
      requires id in records
      modifies this
      ensures var a := AfterLogin(old(records)[id], inp, id);
        && err == a.thrown
        && records == old(records)[id := a.rec]
        && index == (if a.thrown.None? then DoneIndex(old(index), id) else old(index))
    {
      ghost var records0 := records;
      err := BrowserStep(id, FilteringLog(inp), StageError(inp, DateFilters),
                         Some(FilteredTitle(inp)), ExtractionVideo(id, inp.videoFile));
      if err.None? {
        ghost var records1 := records;
        err := StepsAfterFilters(inp, id);
        OverwriteTwice(records0, id, records1[id], records[id]);
      }
    }

    method StepsAfterFilters(inp: WorkflowInputs, id: nat) returns (err: Option<string>)
      requires |inp.stamps| >= 4
      requires id in records
      modifies this
      ensures var a := AfterFilters(old(records)[id], inp, id);
        && err == a.thrown
        && records == old(records)[id := a.rec]
        && index == (if a.thrown.None? then DoneIndex(old(index), id) else old(index))
    {
      ghost var records0 := records;
      err := BrowserStep(id, DownloadingLog(inp), StageError(inp, PdfDownload),
                         Some(DownloadedTitle), PdfArtifact(id));
      if err.None? {
        ghost var records1 := records;
        MarkDone(id);
        UpdateProcessLog(id, None, map["status" := "Complete"]);
        OverwriteTwice(records0, id, records1[id], records[id]);
      }
    }

    /** The part of `runWorkflow` before the browser starts: the index entry, the initial record and "Log 1". */
    method StartProcess(inp: WorkflowInputs) returns (id: nat)
      requires |inp.stamps| >= 4
      modifies this
      ensures id == NextId(old(index)) && State() == StartedState(old(State()), inp)
    {
      id := NextId(index);
      AddEntry(NewEntry(inp, id));
      WriteRecord(id, InitialRecord(inp.today));
      UpdateProcessLog(id, Some(RequestLog(inp)), map[]);
    }

    /** The `try` block and its `catch`, which appends the error log. */
    method TryAndCatch(inp: WorkflowInputs, id: nat) returns (outcome: RunOutcome)
      requires |inp.stamps| >= 4 && |inp.otpPage| >= MaxAttempts
      requires id in records
      modifies this
      ensures (State(), outcome) == CatchSpec(old(State()), old(records)[id], inp, id)
    {
      ghost var records0 := records;
      var err := TrySteps(inp, id);
      ghost var rec := TryRecord(records0[id], inp, id).rec;
      if err.None? {
        outcome := Completed;
      } else {
        ghost var records1 := records;
        UpdateProcessLog(id, Some(ErrorLog(inp.errorStamp, err.value)), map[]);
        assert Lookup(records1, id) == Some(rec);
        OverwriteTwice(records0, id, rec, records[id]);
        outcome := CaughtError(err.value);
      }
    }

    /** `runWorkflow(startDate, endDate)`. */
    method RunWorkflow(inp: WorkflowInputs) returns (outcome: RunOutcome)
      requires |inp.stamps| >= 4 && |inp.otpPage| >= MaxAttempts
      modifies this
      ensures (State(), outcome) == RunSpec(old(State()), inp)
    {
      var id := StartProcess(inp);
      if inp.launchFails {
        return LaunchFailed;
      }
      outcome := TryAndCatch(inp, id);
    }
  }
}
