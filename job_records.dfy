/**
 * The per-process JSON record the workflow runner writes and the viewer polls
 * (run_kyriba_workflow.js): its datatypes, id allocation, `updateProcessLog`
 * and the in-place finalisation of the last log, as functions on values.
 */
module JobRecords {
  import opened Base
  import opened JsText
  import opened ProcessIndex

  /** Where an artifact's content lives: `videoPath` or `pdfPath` in the JSON. */
  datatype ArtifactPath = VideoPath(video: string) | PdfPath(pdf: string)

  /** An artifact button; `caption` is the JSON `label` (a Dafny keyword). */
  datatype Artifact = Artifact(kind: string, caption: string, id: string, icon: string, path: ArtifactPath)

  /** One timeline entry; `artifacts` is absent until a step is finalised. */
  datatype Log = Log(id: string, time: string, title: string, kind: string, status: string,
                     artifacts: Option<seq<Artifact>>)

  /** The content of process_<id>.json. */
  datatype ProcessRecord = ProcessRecord(logs: seq<Log>, keyDetails: map<string, string>,
                                         sidebarArtifacts: seq<Artifact>)

  /** What `updateProcessLog` starts from when the file does not exist. */
  const EmptyRecord := ProcessRecord([], map[], [])

  /** The accumulator of the `reduce` in `getNextId`: the largest of `acc` and the ids. */
  function MaxId(acc: nat, ids: seq<nat>): (m: nat)
    ensures acc <= m
    ensures forall i :: 0 <= i < |ids| ==> ids[i] <= m
    ensures m == acc || m in ids
    decreases |ids|
  {
    if ids == [] then acc
    else
      var m := MaxId(if ids[0] > acc then ids[0] else acc, ids[1..]);
      assert forall i :: 1 <= i < |ids| ==> ids[i] == ids[1..][i - 1];
      m
  }

  function NumericIds(entries: seq<IndexEntry>): (ids: seq<nat>)
    ensures |ids| == |entries|
    ensures forall i :: 0 <= i < |entries| ==> ids[i] == NumericValue(entries[i].id)
  {
    seq(|entries|, i requires 0 <= i < |entries| => NumericValue(entries[i].id))
  }

  /** `getNextId`: one more than the largest id, so 1 for an empty index. */
  function NextId(entries: seq<IndexEntry>): (r: nat)
    ensures r >= 1
    ensures forall i :: 0 <= i < |entries| ==> NumericValue(entries[i].id) < r
    ensures r == 1 || exists i :: 0 <= i < |entries| && NumericValue(entries[i].id) == r - 1
    ensures entries == [] ==> r == 1
  {
    var ids := NumericIds(entries);
    var m := MaxId(0, ids);
    assert m != 0 ==> exists i :: 0 <= i < |ids| && ids[i] == m;
    m + 1
  }

  /** The allocated id is fresh: no existing entry carries it, as a number or as a string. */
  lemma NextIdIsFresh(entries: seq<IndexEntry>)
    ensures Num(NextId(entries)) !in Ids(entries) && Str(NextId(entries)) !in Ids(entries)
  {
    var r := NextId(entries);
    forall i | 0 <= i < |entries| ensures entries[i].id != Num(r) && entries[i].id != Str(r) {
      assert NumericValue(entries[i].id) < r;
    }
  }

  /**
   * `updateProcessLog(processId, newLog, keyDetailsUpdate)` on the record read from
   * the file (or the empty record when the file is missing); `LoggedRecordSpec`
   * states its effect.
   */
  function LoggedRecord(existing: Option<ProcessRecord>, newLog: Option<Log>,
                        keyDetailsUpdate: map<string, string>): (r: ProcessRecord)
    ensures |r.logs| == |existing.GetOr(EmptyRecord).logs| + (if newLog.Some? then 1 else 0)
  {
    var data := existing.GetOr(EmptyRecord);
    var data := if newLog.Some? then
        data.(logs := data.logs + [newLog.value],
              sidebarArtifacts := if newLog.value.artifacts.Some?
                                  then data.sidebarArtifacts + newLog.value.artifacts.value
                                  else data.sidebarArtifacts)
      else data;
    data.(keyDetails := data.keyDetails + keyDetailsUpdate)
  }

  lemma LoggedRecordSpec(existing: Option<ProcessRecord>, newLog: Option<Log>, keyDetailsUpdate: map<string, string>)
    ensures var r, base := LoggedRecord(existing, newLog, keyDetailsUpdate), existing.GetOr(EmptyRecord);
      // a missing file starts from empty logs, key details and sidebar
      && (existing.None? ==> r.logs == (if newLog.Some? then [newLog.value] else []))
      // a log is appended as the last element; earlier logs keep their positions
      && (newLog.Some? ==> r.logs[..|base.logs|] == base.logs && r.logs[|base.logs|] == newLog.value)
      && (newLog.None? ==> r.logs == base.logs)
      // the sidebar grows by exactly the log's artifacts, in order, at the end
      && (newLog.Some? && newLog.value.artifacts.Some? ==>
            r.sidebarArtifacts == base.sidebarArtifacts + newLog.value.artifacts.value)
      && (newLog.None? || newLog.value.artifacts.None? ==> r.sidebarArtifacts == base.sidebarArtifacts)
      // key details are overridden key by key
      && r.keyDetails.Keys == base.keyDetails.Keys + keyDetailsUpdate.Keys
      && (forall k :: k in keyDetailsUpdate ==> r.keyDetails[k] == keyDetailsUpdate[k])
      && (forall k :: k in base.keyDetails && k !in keyDetailsUpdate ==> r.keyDetails[k] == base.keyDetails[k])
  {
    var r, base := LoggedRecord(existing, newLog, keyDetailsUpdate), existing.GetOr(EmptyRecord);
    if newLog.Some? {
      assert r.logs == base.logs + [newLog.value];
    }
  }

  /** An update with no log and no key details leaves an existing record as it was. */
  lemma EmptyUpdateIsIdentity(rec: ProcessRecord)
    ensures LoggedRecord(Some(rec), None, map[]) == rec
  {
    assert rec.keyDetails + map[] == rec.keyDetails;
  }

  /**
   * The finalisation blocks of `runWorkflow`: the last log gets status 'success',
   * the given artifacts and, optionally, a revised title; the artifacts are also
   * pushed to the sidebar. The source indexes `logs[length - 1]`, so it needs a log.
   * `FinalisedRecordSpec` states its effect.
   */
  function FinalisedRecord(rec: ProcessRecord, title: Option<string>, artifacts: seq<Artifact>): (r: ProcessRecord)
    requires rec.logs != []
    ensures |r.logs| == |rec.logs|
  {
    var i := |rec.logs| - 1;
    var log := rec.logs[i].(status := "success", artifacts := Some(artifacts));
    var log := if title.Some? then log.(title := title.value) else log;
    rec.(logs := rec.logs[i := log], sidebarArtifacts := rec.sidebarArtifacts + artifacts)
  }

  lemma FinalisedRecordSpec(rec: ProcessRecord, title: Option<string>, artifacts: seq<Artifact>)
    requires rec.logs != []
    ensures var r := FinalisedRecord(rec, title, artifacts);
      && |r.logs| == |rec.logs|
      && r.logs[..|r.logs| - 1] == rec.logs[..|rec.logs| - 1]
      && (var last, was := r.logs[|r.logs| - 1], rec.logs[|rec.logs| - 1];
          && last.status == "success" && last.artifacts == Some(artifacts)
          && last.title == title.GetOr(was.title)
          && last.id == was.id && last.time == was.time && last.kind == was.kind)
      && r.sidebarArtifacts == rec.sidebarArtifacts + artifacts
      && r.keyDetails == rec.keyDetails
  {
  }

  /** A timestamp reading taken when a log is created: `Date.now()` and the locale time string. */
  datatype Stamp = Stamp(millis: nat, clock: string)

  /** A fresh log as the runner writes it: `act_<millis>`, kind 'success', the given status. */
  function StepLog(stamp: Stamp, title: string, status: string): Log {
    Log("act_" + DecimalString(stamp.millis), stamp.clock, title, "success", status, None)
  }

  /** The log the runner's `catch` appends. */
  function ErrorLog(stamp: Stamp, message: string): (log: Log)
    ensures log.status == "error" && log.title == "Error: " + message && log.artifacts.None?
  {
    Log("act_err_" + DecimalString(stamp.millis), stamp.clock, "Error: " + message, "error", "error", None)
  }
}
