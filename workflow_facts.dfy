/**
 * What a run of `runWorkflow` leaves in the index and in the new process's
 * record, for each way the run can end: first step by step, on the record
 * alone, then for the whole run.
 */
module WorkflowFacts {
  import opened Base
  import opened JsText
  import opened ProcessIndex
  import opened JobRecords
  import opened Otp
  import opened Workflow

  /** A step's log once its finalisation block has run. */
  function Finalised(log: Log, title: Option<string>, artifact: Artifact): Log {
    log.(title := title.GetOr(log.title), status := "success", artifacts := Some([artifact]))
  }

  /** The finalised logs of the three browser steps. */
  function LoginDoneLog(inp: WorkflowInputs, id: nat): Log
    requires |inp.stamps| >= 4
  {
    Finalised(LoginLog(inp), None, LoginVideo(id, inp.videoFile))
  }

  function FilteredLog(inp: WorkflowInputs, id: nat): Log
    requires |inp.stamps| >= 4
  {
    Finalised(FilteringLog(inp), Some(FilteredTitle(inp)), ExtractionVideo(id, inp.videoFile))
  }

  function DownloadedLog(inp: WorkflowInputs, id: nat): Log
    requires |inp.stamps| >= 4
  {
    Finalised(DownloadingLog(inp), Some(DownloadedTitle), PdfArtifact(id))
  }

  /**
   * A logged step appends exactly one log and touches no key detail; the log is
   * finalised with the step's artifact, which also goes to the sidebar, unless
   * the step threw, in which case it stays as appended.
   */
  lemma StepRecordSpec(rec: ProcessRecord, log: Log, thrown: Option<string>, title: Option<string>,
                       artifact: Artifact)
    requires log.artifacts.None?
    ensures var a := StepRecord(rec, log, thrown, title, artifact);
      && a.rec.logs == rec.logs + [if thrown.Some? then log else Finalised(log, title, artifact)]
      && a.rec.sidebarArtifacts == rec.sidebarArtifacts + (if thrown.Some? then [] else [artifact])
      && a.rec.keyDetails == rec.keyDetails
  {
    var mid := LoggedRecord(Some(rec), Some(log), map[]);
    LoggedRecordSpec(Some(rec), Some(log), map[]);
    assert mid.logs == rec.logs + [log];
    assert mid.keyDetails == rec.keyDetails;
    if thrown.None? {
      FinalisedRecordSpec(mid, title, [artifact]);
      var r := FinalisedRecord(mid, title, [artifact]);
      assert r.logs[|rec.logs|] == Finalised(log, title, artifact);
      assert r.logs == rec.logs + [Finalised(log, title, artifact)];
    }
  }

  /** "Log 4" and the final status update. */
  lemma AfterFiltersSpec(rec: ProcessRecord, inp: WorkflowInputs, id: nat)
    requires |inp.stamps| >= 4
    ensures var a := AfterFilters(rec, inp, id);
      && a.thrown == StageError(inp, PdfDownload)
      && (a.thrown.Some? ==>
            && a.rec.logs == rec.logs + [DownloadingLog(inp)]
            && a.rec.sidebarArtifacts == rec.sidebarArtifacts
            && a.rec.keyDetails == rec.keyDetails)
      && (a.thrown.None? ==>
            && a.rec.logs == rec.logs + [DownloadedLog(inp, id)]
            && a.rec.sidebarArtifacts == rec.sidebarArtifacts + [PdfArtifact(id)]
            && a.rec.keyDetails == rec.keyDetails["status" := "Complete"])
  {
    var step := DownloadStep(rec, inp, id);
    StepRecordSpec(rec, DownloadingLog(inp), StageError(inp, PdfDownload), Some(DownloadedTitle), PdfArtifact(id));
    if step.thrown.None? {
      var update := map["status" := "Complete"];
      LoggedRecordSpec(Some(step.rec), None, update);
      assert step.rec.keyDetails + update == step.rec.keyDetails["status" := "Complete"];
    }
  }

  /** "Log 3" and what follows. */
  lemma AfterLoginSpec(rec: ProcessRecord, inp: WorkflowInputs, id: nat)
    requires |inp.stamps| >= 4
    ensures var a := AfterLogin(rec, inp, id);
      && a.thrown == (if FailsAt(inp, DateFilters) then StageError(inp, DateFilters) else StageError(inp, PdfDownload))
      && (FailsAt(inp, DateFilters) ==>
            && a.rec.logs == rec.logs + [FilteringLog(inp)]
            && a.rec.sidebarArtifacts == rec.sidebarArtifacts
            && a.rec.keyDetails == rec.keyDetails)
      && (FailsAt(inp, PdfDownload) ==>
            && a.rec.logs == rec.logs + [FilteredLog(inp, id), DownloadingLog(inp)]
            && a.rec.sidebarArtifacts == rec.sidebarArtifacts + [ExtractionVideo(id, inp.videoFile)]
            && a.rec.keyDetails == rec.keyDetails)
      && (a.thrown.None? ==>
            && a.rec.logs == rec.logs + [FilteredLog(inp, id), DownloadedLog(inp, id)]
            && a.rec.sidebarArtifacts == rec.sidebarArtifacts + [ExtractionVideo(id, inp.videoFile), PdfArtifact(id)]
            && a.rec.keyDetails == rec.keyDetails["status" := "Complete"])
  {
    var step := FilterStep(rec, inp, id);
    StepRecordSpec(rec, FilteringLog(inp), StageError(inp, DateFilters), Some(FilteredTitle(inp)),
                   ExtractionVideo(id, inp.videoFile));
    if step.thrown.None? {
      AfterFiltersSpec(step.rec, inp, id);
      AppendThenOne(rec.logs, FilteredLog(inp, id), DownloadingLog(inp));
      AppendThenOne(rec.logs, FilteredLog(inp, id), DownloadedLog(inp, id));
      AppendThenOne(rec.sidebarArtifacts, ExtractionVideo(id, inp.videoFile), PdfArtifact(id));
    }
  }

  /** "Log 2": it throws the login error; otherwise its log is finalised with the login video. */
  lemma LoginStepSpec(rec: ProcessRecord, inp: WorkflowInputs, id: nat)
    requires |inp.stamps| >= 4 && |inp.otpPage| >= MaxAttempts
    ensures var a := LoginStep(rec, inp, id);
      && a.thrown == LoginError(inp)
      && (a.thrown.Some? ==>
            && a.rec.logs == rec.logs + [LoginLog(inp)]
            && a.rec.sidebarArtifacts == rec.sidebarArtifacts
            && a.rec.keyDetails == rec.keyDetails)
      && (a.thrown.None? ==>
            && a.rec.logs == rec.logs + [LoginDoneLog(inp, id)]
            && a.rec.sidebarArtifacts == rec.sidebarArtifacts + [LoginVideo(id, inp.videoFile)]
            && a.rec.keyDetails == rec.keyDetails)
  {
    StepRecordSpec(rec, LoginLog(inp), LoginError(inp), None, LoginVideo(id, inp.videoFile));
  }

  /** The login step throws exactly when the OTP page or the Kyriba login fails, or the wait yields no code. */
  lemma LoginErrorIff(inp: WorkflowInputs)
    requires |inp.otpPage| >= MaxAttempts
    ensures LoginError(inp).None? <==>
      !FailsAt(inp, OtpPage) && !FailsAt(inp, KyribaLogin) && OtpSpec(inp.otpPage, ThrowWhenNoDigits).outcome.Fresh?
  {
  }

  /** The entry appended for a fresh id is the one `findIndex` finds. */
  lemma FindsAppendedEntry(entries: seq<IndexEntry>, entry: IndexEntry)
    requires entry.id == Str(NextId(entries))
    ensures FindIndex(entries + [entry], entry.id) == |entries|
  {
    var all := entries + [entry];
    forall j | 0 <= j < |entries| ensures all[j].id != entry.id {
      assert all[j] == entries[j];
      assert NumericValue(entries[j].id) < NextId(entries);
    }
    assert all[|entries|] == entry;
  }

  /** Once the login stages are past, a failure can only be at the date filters or the download. */
  lemma LaterStagesOnly(inp: WorkflowInputs)
    requires !FailsAt(inp, OtpPage) && !FailsAt(inp, KyribaLogin)
    ensures inp.failure.None? <==> !FailsAt(inp, DateFilters) && !FailsAt(inp, PdfDownload)
  {
  }

  /** The `try` block throws nothing exactly when no browser step fails and the OTP page yields a fresh code. */
  lemma TryCompletesIff(rec: ProcessRecord, inp: WorkflowInputs, id: nat)
    requires |inp.stamps| >= 4 && |inp.otpPage| >= MaxAttempts
    ensures TryRecord(rec, inp, id).thrown.None? <==>
      inp.failure.None? && OtpSpec(inp.otpPage, ThrowWhenNoDigits).outcome.Fresh?
  {
    LoginErrorIff(inp);
    var login := LoginStep(rec, inp, id);
    if login.thrown.None? {
      AfterLoginSpec(login.rec, inp, id);
      LaterStagesOnly(inp);
    }
  }

  /** The run completes exactly when the browser launches, no step throws and the OTP page yields a fresh code. */
  lemma RunCompletesIff(s: StoreState, inp: WorkflowInputs)
    requires |inp.stamps| >= 4 && |inp.otpPage| >= MaxAttempts
    ensures RunSpec(s, inp).1 == Completed <==>
      !inp.launchFails && inp.failure.None? && OtpSpec(inp.otpPage, ThrowWhenNoDigits).outcome.Fresh?
  {
    TryCompletesIff(StartedRecord(inp), inp, NextId(s.index));
  }

  /** "Log 1" on the initial record: one successful log, the initial key details, an empty sidebar. */
  lemma StartedRecordSpec(inp: WorkflowInputs)
    requires |inp.stamps| >= 4
    ensures StartedRecord(inp) == ProcessRecord([RequestLog(inp)], InitialKeyDetails(inp.today), [])
  {
    LoggedRecordSpec(Some(InitialRecord(inp.today)), Some(RequestLog(inp)), map[]);
    assert StartedRecord(inp).keyDetails == InitialKeyDetails(inp.today);
  }

  /** The `catch` appends the error log and changes nothing else. */
  lemma ErrorLogAppended(rec: ProcessRecord, stamp: Stamp, message: string)
    ensures var r := LoggedRecord(Some(rec), Some(ErrorLog(stamp, message)), map[]);
      r == rec.(logs := rec.logs + [ErrorLog(stamp, message)])
  {
    var r := LoggedRecord(Some(rec), Some(ErrorLog(stamp, message)), map[]);
    LoggedRecordSpec(Some(rec), Some(ErrorLog(stamp, message)), map[]);
    assert r.keyDetails == rec.keyDetails;
  }

  /** A `try` block that throws nothing appends the three finalised step logs, their artifacts, and sets status "Complete". */
  lemma TryCompletedRecord(rec: ProcessRecord, inp: WorkflowInputs, id: nat)
    requires |inp.stamps| >= 4 && |inp.otpPage| >= MaxAttempts
    requires TryRecord(rec, inp, id).thrown.None?
    ensures TryRecord(rec, inp, id).rec == ProcessRecord(
      rec.logs + [LoginDoneLog(inp, id), FilteredLog(inp, id), DownloadedLog(inp, id)],
      rec.keyDetails["status" := "Complete"],
      rec.sidebarArtifacts + [LoginVideo(id, inp.videoFile), ExtractionVideo(id, inp.videoFile), PdfArtifact(id)])
  {
    LoginStepSpec(rec, inp, id);
    var login := LoginStep(rec, inp, id);
    AfterLoginSpec(login.rec, inp, id);
    AppendThenTwo(rec.logs, LoginDoneLog(inp, id), FilteredLog(inp, id), DownloadedLog(inp, id));
    AppendThenTwo(rec.sidebarArtifacts, LoginVideo(id, inp.videoFile), ExtractionVideo(id, inp.videoFile), PdfArtifact(id));
  }

  /** The final index update flips exactly the entry the run appended. */
  lemma DoneIndexFlipsNewEntry(entries: seq<IndexEntry>, entry: IndexEntry)
    requires entry.id == Str(NextId(entries))
    ensures DoneIndex(entries + [entry], NextId(entries)) == entries + [entry.(status := "Done")]
  {
    FindsAppendedEntry(entries, entry);
    var all := entries + [entry];
    assert all[|entries| := entry.(status := "Done")] == entries + [entry.(status := "Done")];
  }

  /**
   * After a completed run the new entry, and only it, has status "Done", and the
   * only record that changes is the new process's, which holds what the `try`
   * block made of the started record.
   */
  lemma RunSuccess(s: StoreState, inp: WorkflowInputs)
    requires |inp.stamps| >= 4 && |inp.otpPage| >= MaxAttempts
    requires RunSpec(s, inp).1 == Completed
    ensures var id, r := NextId(s.index), RunSpec(s, inp).0;
      && r.index == s.index + [NewEntry(inp, id).(status := "Done")]
      && r.records == s.records[id := TryRecord(StartedRecord(inp), inp, id).rec]
  {
    var id, started := NextId(s.index), StartedState(s, inp);
    var rec := TryRecord(StartedRecord(inp), inp, id).rec;
    DoneIndexFlipsNewEntry(s.index, NewEntry(inp, id));
    OverwriteTwice(s.records, id, StartedRecord(inp), rec);
  }

  /** When the login step throws, its log stays 'processing' and nothing else is written. */
  lemma TryStopsAtLogin(rec: ProcessRecord, inp: WorkflowInputs, id: nat)
    requires |inp.stamps| >= 4 && |inp.otpPage| >= MaxAttempts
    requires LoginError(inp).Some?
    ensures TryRecord(rec, inp, id) == Attempt(rec.(logs := rec.logs + [LoginLog(inp)]), LoginError(inp))
  {
    LoginStepSpec(rec, inp, id);
  }

  /** When the date filters fail, the login log is finalised and the filtering log stays 'processing'. */
  lemma TryStopsAtFilters(rec: ProcessRecord, inp: WorkflowInputs, id: nat)
    requires |inp.stamps| >= 4 && |inp.otpPage| >= MaxAttempts
    requires LoginError(inp).None? && FailsAt(inp, DateFilters)
    ensures TryRecord(rec, inp, id) == Attempt(
      ProcessRecord(rec.logs + [LoginDoneLog(inp, id), FilteringLog(inp)], rec.keyDetails,
                    rec.sidebarArtifacts + [LoginVideo(id, inp.videoFile)]),
      Some(inp.failure.value.message))
  {
    LoginStepSpec(rec, inp, id);
    var login := LoginStep(rec, inp, id);
    AfterLoginSpec(login.rec, inp, id);
    AppendThenOne(rec.logs, LoginDoneLog(inp, id), FilteringLog(inp));
  }

  /** When the download fails, two logs are finalised and the downloading log stays 'processing'. */
  lemma TryStopsAtDownload(rec: ProcessRecord, inp: WorkflowInputs, id: nat)
    requires |inp.stamps| >= 4 && |inp.otpPage| >= MaxAttempts
    requires LoginError(inp).None? && FailsAt(inp, PdfDownload)
    ensures TryRecord(rec, inp, id) == Attempt(
      ProcessRecord(rec.logs + [LoginDoneLog(inp, id), FilteredLog(inp, id), DownloadingLog(inp)], rec.keyDetails,
                    rec.sidebarArtifacts + [LoginVideo(id, inp.videoFile), ExtractionVideo(id, inp.videoFile)]),
      Some(inp.failure.value.message))
  {
    LoginStepSpec(rec, inp, id);
    var login := LoginStep(rec, inp, id);
    AfterLoginSpec(login.rec, inp, id);
    AppendThenTwo(rec.logs, LoginDoneLog(inp, id), FilteredLog(inp, id), DownloadingLog(inp));
    AppendThenOne(rec.sidebarArtifacts, LoginVideo(id, inp.videoFile), ExtractionVideo(id, inp.videoFile));
  }

  /** Three stale timer reads make the login step throw 'Failed to get OTP'. */
  lemma LoginFailsWithoutFreshOtp(inp: WorkflowInputs)
    requires |inp.otpPage| >= MaxAttempts && !FailsAt(inp, OtpPage)
    requires forall i :: 0 <= i < MaxAttempts ==> IsStale(ReadAt(inp.otpPage[i], ThrowWhenNoDigits))
    ensures LoginError(inp) == Some(RunnerNoOtpMessage)
  {
    OtpFailsWhenAllStale(inp.otpPage, ThrowWhenNoDigits);
  }

  /** A timer without digits, before any fresh read, makes the login step throw the null-match TypeError. */
  lemma LoginFailsOnDigitlessTimer(inp: WorkflowInputs, j: nat)
    requires |inp.otpPage| >= MaxAttempts && !FailsAt(inp, OtpPage) && j < MaxAttempts
    requires forall i :: 0 <= i < j ==> IsStale(ReadAt(inp.otpPage[i], ThrowWhenNoDigits))
    requires FirstDigitRun(inp.otpPage[j].timerText).None?
    ensures LoginError(inp) == Some(NullMatchMessage)
  {
    RunnerThrowsOnDigitlessTimer(inp.otpPage, j);
  }

  /**
   * After a caught error the new entry stays "In Progress", the key details keep
   * status "Processing", and the record is what the `try` block left with the
   * error log, carrying the thrown message, appended.
   */
  lemma RunCaughtError(s: StoreState, inp: WorkflowInputs)
    requires |inp.stamps| >= 4 && |inp.otpPage| >= MaxAttempts
    requires RunSpec(s, inp).1.CaughtError?
    ensures var id, r, message := NextId(s.index), RunSpec(s, inp).0, RunSpec(s, inp).1.message;
      var a := TryRecord(StartedRecord(inp), inp, id);
      && a.thrown == Some(message)
      && r.index == s.index + [NewEntry(inp, id)]
      && r.records == s.records[id := a.rec.(logs := a.rec.logs + [ErrorLog(inp.errorStamp, message)])]
      && r.records[id].keyDetails == InitialKeyDetails(inp.today)
  {
    var id := NextId(s.index);
    var a := TryRecord(StartedRecord(inp), inp, id);
    StartedRecordSpec(inp);
    TryKeepsKeyDetails(StartedRecord(inp), inp, id);
    ErrorLogAppended(a.rec, inp.errorStamp, a.thrown.value);
  }

  /** A `try` block that throws leaves the key details as they were. */
  lemma TryKeepsKeyDetails(rec: ProcessRecord, inp: WorkflowInputs, id: nat)
    requires |inp.stamps| >= 4 && |inp.otpPage| >= MaxAttempts
    requires TryRecord(rec, inp, id).thrown.Some?
    ensures TryRecord(rec, inp, id).rec.keyDetails == rec.keyDetails
  {
    LoginStepSpec(rec, inp, id);
    var login := LoginStep(rec, inp, id);
    if login.thrown.None? {
      AfterLoginSpec(login.rec, inp, id);
    }
  }

  /** When the browser does not launch, the record keeps only "Log 1" and the entry stays "In Progress". */
  lemma RunLaunchFailed(s: StoreState, inp: WorkflowInputs)
    requires |inp.stamps| >= 4 && |inp.otpPage| >= MaxAttempts
    requires inp.launchFails
    ensures var id, r := NextId(s.index), RunSpec(s, inp).0;
      && RunSpec(s, inp).1 == LaunchFailed
      && r.index == s.index + [NewEntry(inp, id)]
      && r.records == s.records[id := ProcessRecord([RequestLog(inp)], InitialKeyDetails(inp.today), [])]
  {
    StartedRecordSpec(inp);
  }
}
