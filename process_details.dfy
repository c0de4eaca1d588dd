/**
 * The process viewer (ProcessDetails.jsx) as pure functions: the expanded
 * reasoning panels, the sorted list of process ids and the up/down
 * navigation over it, the header's status label, the timeline dot colours,
 * the artifact icons, and the state the two-second polling leaves behind.
 */
module ProcessDetails {
  import opened Base
  import opened JsText
  import opened ProcessIndex
  import opened JobRecords

  // ---------------------------------------------------------------------------
  // Reasoning panels
  // ---------------------------------------------------------------------------

  /** `prev.filter(id => id !== x)`. */
  function Without(xs: seq<string>, x: string): (r: seq<string>)
    ensures forall y :: y in r <==> y in xs && y != x
    ensures |r| <= |xs|
  {
    if xs == [] then []
    else if xs[0] == x then Without(xs[1..], x)
    else [xs[0]] + Without(xs[1..], x)
  }

  /** `toggleReasoning`: remove every copy of the id when it is expanded, otherwise append it. */
  function ToggleReasoning(expanded: seq<string>, logId: string): seq<string> {
    if logId in expanded then Without(expanded, logId) else expanded + [logId]
  }

  /** Toggling flips whether the log's panel is open and leaves every other panel as it was. */
  lemma ToggleFlipsOnlyThatLog(expanded: seq<string>, logId: string)
    ensures logId in ToggleReasoning(expanded, logId) <==> logId !in expanded
    ensures forall y :: y != logId ==> (y in ToggleReasoning(expanded, logId) <==> y in expanded)
  {
  }

  lemma {:induction false} WithoutAppendedAbsent(xs: seq<string>, x: string)
    requires x !in xs
    ensures Without(xs + [x], x) == xs
  {
    if xs == [] {
      assert [x][1..] == [];
    } else {
      assert (xs + [x])[1..] == xs[1..] + [x];
      WithoutAppendedAbsent(xs[1..], x);
      assert [xs[0]] + xs[1..] == xs;
    }
  }

  /** Opening a closed panel and closing it again gives back exactly the list before. */
  lemma ToggleTwiceRestores(expanded: seq<string>, logId: string)
    requires logId !in expanded
    ensures ToggleReasoning(ToggleReasoning(expanded, logId), logId) == expanded
  {
    assert logId in expanded + [logId];
    WithoutAppendedAbsent(expanded, logId);
  }

  /** Toggling twice never changes which panels are open. */
  lemma ToggleTwiceSamePanels(expanded: seq<string>, logId: string)
    ensures forall y :: y in ToggleReasoning(ToggleReasoning(expanded, logId), logId) <==> y in expanded
  {
    ToggleFlipsOnlyThatLog(expanded, logId);
    ToggleFlipsOnlyThatLog(ToggleReasoning(expanded, logId), logId);
  }

  // ---------------------------------------------------------------------------
  // The sorted id list
  // ---------------------------------------------------------------------------

  predicate SortedByValue(ids: seq<JsonId>) {
    forall i, j :: 0 <= i < j < |ids| ==> NumericValue(ids[i]) <= NumericValue(ids[j])
  }

  /** The ids with numeric value `v`, in their order. */
  function WithValue(ids: seq<JsonId>, v: nat): seq<JsonId> {
    if ids == [] then []
    else (if NumericValue(ids[0]) == v then [ids[0]] else []) + WithValue(ids[1..], v)
  }

  /** Inserts `x` after every id whose value is not larger than its own. */
  function Insert(x: JsonId, sorted: seq<JsonId>): (r: seq<JsonId>)
    requires SortedByValue(sorted)
    ensures SortedByValue(r)
    ensures multiset(r) == multiset(sorted) + multiset{x}
    ensures |r| > 0 && (r[0] == x || (sorted != [] && r[0] == sorted[0]))
  {
    if sorted == [] then [x]
    else if NumericValue(x) < NumericValue(sorted[0]) then
      SortedCons(x, sorted);
      [x] + sorted
    else
      var rest := Insert(x, sorted[1..]);
      assert sorted == [sorted[0]] + sorted[1..];
      SortedCons(sorted[0], rest);
      [sorted[0]] + rest
  }

  lemma SortedCons(x: JsonId, s: seq<JsonId>)
    requires SortedByValue(s)
    requires s != [] ==> NumericValue(x) <= NumericValue(s[0])
    ensures SortedByValue([x] + s)
  {
    var r := [x] + s;
    forall i, j | 0 <= i < j < |r|
      ensures NumericValue(r[i]) <= NumericValue(r[j])
    {
      if i == 0 && j > 1 {
        assert r[j] == s[j - 1];
      }
    }
  }

  /** `ids.sort((a, b) => a - b)`: the stable ascending sort by numeric value. */
  function SortIds(ids: seq<JsonId>): (r: seq<JsonId>)
    ensures SortedByValue(r)
    ensures multiset(r) == multiset(ids)
  {
    if ids == [] then []
    else
      var init := ids[..|ids| - 1];
      assert ids == init + [ids[|ids| - 1]];
      Insert(ids[|ids| - 1], SortIds(init))
  }

  lemma {:induction false} WithValueAppend(a: seq<JsonId>, b: seq<JsonId>, v: nat)
    ensures WithValue(a + b, v) == WithValue(a, v) + WithValue(b, v)
  {
    if a == [] {
      assert a + b == b;
    } else {
      var head := if NumericValue(a[0]) == v then [a[0]] else [];
      assert (a + b)[0] == a[0];
      assert (a + b)[1..] == a[1..] + b;
      assert WithValue(a + b, v) == head + WithValue(a[1..] + b, v);
      WithValueAppend(a[1..], b, v);
      ConcatAssoc(head, WithValue(a[1..], v), WithValue(b, v));
    }
  }

  lemma {:induction false} WithValueNone(ids: seq<JsonId>, v: nat)
    requires forall i :: 0 <= i < |ids| ==> NumericValue(ids[i]) != v
    ensures WithValue(ids, v) == []
  {
    if ids != [] {
      WithValueNone(ids[1..], v);
    }
  }

  lemma InsertFrontWithValue(x: JsonId, sorted: seq<JsonId>, v: nat)
    requires SortedByValue(sorted) && sorted != [] && NumericValue(x) < NumericValue(sorted[0])
    ensures WithValue([x] + sorted, v) == WithValue(sorted, v) + (if NumericValue(x) == v then [x] else [])
  {
    assert ([x] + sorted)[1..] == sorted;
    if NumericValue(x) == v {
      WithValueNone(sorted, v);
    }
  }

  lemma {:induction false} InsertWithValue(x: JsonId, sorted: seq<JsonId>, v: nat)
    requires SortedByValue(sorted)
    ensures WithValue(Insert(x, sorted), v)
         == WithValue(sorted, v) + (if NumericValue(x) == v then [x] else [])
  {
    if sorted == [] {
    } else if NumericValue(x) < NumericValue(sorted[0]) {
      InsertFrontWithValue(x, sorted, v);
    } else {
      var rest := Insert(x, sorted[1..]);
      var head := if NumericValue(sorted[0]) == v then [sorted[0]] else [];
      var tail := if NumericValue(x) == v then [x] else [];
      assert Insert(x, sorted) == [sorted[0]] + rest;
      assert ([sorted[0]] + rest)[1..] == rest;
      assert WithValue(Insert(x, sorted), v) == head + WithValue(rest, v);
      InsertWithValue(x, sorted[1..], v);
      assert WithValue(sorted, v) == head + WithValue(sorted[1..], v);
      ConcatAssoc(head, WithValue(sorted[1..], v), tail);
    }
  }

  /**
   * The sort is stable: for every value, the ids carrying it keep their
   * relative order (a number and a string with the same digits, say).
   * Together with `SortedByValue` this fixes the result uniquely.
   */
  lemma {:induction false} SortIdsStable(ids: seq<JsonId>, v: nat)
    ensures WithValue(SortIds(ids), v) == WithValue(ids, v)
  {
    if ids != [] {
      var init := ids[..|ids| - 1];
      var last := ids[|ids| - 1];
      assert ids == init + [last];
      SortIdsStable(init, v);
      InsertWithValue(last, SortIds(init), v);
      WithValueAppend(init, [last], v);
    }
  }

  // ---------------------------------------------------------------------------
  // Position and navigation
  // ---------------------------------------------------------------------------

  /**
   * `allProcessIds.indexOf(parseInt(id))` as written: `indexOf` compares with
   * `===`, so only a JSON number equal to the route's number matches.
   */
  function IndexAsWritten(ids: seq<JsonId>, n: nat): (k: int)
    ensures -1 <= k < |ids|
    ensures k >= 0 ==> ids[k] == Num(n) && forall j :: 0 <= j < k ==> ids[j] != Num(n)
    ensures k == -1 <==> forall j :: 0 <= j < |ids| ==> ids[j] != Num(n)
  {
    if ids == [] then -1
    else if ids[0] == Num(n) then 0
    else
      var k := IndexAsWritten(ids[1..], n);
      if k == -1 then -1 else k + 1
  }

  /** The position of the viewed process found by numeric value, whether the id is stored as a number or a string. */
  function CurrentIndex(ids: seq<JsonId>, n: nat): (k: int)
    ensures -1 <= k < |ids|
    ensures k >= 0 ==> NumericValue(ids[k]) == n && forall j :: 0 <= j < k ==> NumericValue(ids[j]) != n
    ensures k == -1 <==> forall j :: 0 <= j < |ids| ==> NumericValue(ids[j]) != n
  {
    if ids == [] then -1
    else if NumericValue(ids[0]) == n then 0
    else
      var k := CurrentIndex(ids[1..], n);
      if k == -1 then -1 else k + 1
  }

  /** `handleNavigateUp`: the route of the previous id when `currentIndex > 0`. */
  function NavigateUp(ids: seq<JsonId>, k: int): Option<string>
    requires -1 <= k < |ids|
  {
    if k > 0 then Some(ProcessPath(ids[k - 1])) else None
  }

  /** `handleNavigateDown`: the route of the next id when `currentIndex < length - 1`. */
  function NavigateDown(ids: seq<JsonId>, k: int): Option<string>
    requires -1 <= k < |ids|
  {
    if k < |ids| - 1 then Some(ProcessPath(ids[k + 1])) else None
  }

  /** The header counter `currentIndex + 1 / length`. */
  function PositionCounter(ids: seq<JsonId>, k: int): (int, nat) {
    (k + 1, |ids|)
  }

  predicate DistinctValues(ids: seq<JsonId>) {
    forall i, j :: 0 <= i < j < |ids| ==> NumericValue(ids[i]) != NumericValue(ids[j])
  }

  /**
   * Up is enabled exactly above the first position and opens the process one
   * place earlier; down is enabled exactly above the last position and opens
   * the process one place later.
   */
  lemma NavigateGuards(ids: seq<JsonId>, k: int)
    requires -1 <= k < |ids|
    ensures NavigateUp(ids, k).Some? <==> k > 0
    ensures NavigateDown(ids, k).Some? <==> k < |ids| - 1
    ensures k > 0 ==> RouteId(NavigateUp(ids, k).value) == Some(NumericValue(ids[k - 1]))
    ensures k < |ids| - 1 ==> RouteId(NavigateDown(ids, k).value) == Some(NumericValue(ids[k + 1]))
  {
    if k > 0 {
      RouteRoundTrip(ids[k - 1]);
    }
    if k < |ids| - 1 {
      RouteRoundTrip(ids[k + 1]);
    }
  }

  /** With distinct values every id is found at its own position. */
  lemma CurrentIndexOfOwn(ids: seq<JsonId>, i: nat)
    requires DistinctValues(ids) && i < |ids|
    ensures CurrentIndex(ids, NumericValue(ids[i])) == i
  {
  }

  /** Going down and then up through the routes comes back to the process one started from. */
  lemma DownThenUp(ids: seq<JsonId>, i: nat)
    requires DistinctValues(ids) && i + 1 < |ids|
    ensures NavigateDown(ids, i).Some?
    ensures RouteId(NavigateDown(ids, i).value) == Some(NumericValue(ids[i + 1]))
    ensures NavigateUp(ids, CurrentIndex(ids, NumericValue(ids[i + 1]))) == Some(ProcessPath(ids[i]))
  {
    RouteRoundTrip(ids[i + 1]);
    CurrentIndexOfOwn(ids, i + 1);
  }

  /** Going up and then down through the routes comes back to the process one started from. */
  lemma UpThenDown(ids: seq<JsonId>, i: nat)
    requires DistinctValues(ids) && 0 < i < |ids|
    ensures NavigateUp(ids, i).Some?
    ensures RouteId(NavigateUp(ids, i).value) == Some(NumericValue(ids[i - 1]))
    ensures NavigateDown(ids, CurrentIndex(ids, NumericValue(ids[i - 1]))) == Some(ProcessPath(ids[i]))
  {
    RouteRoundTrip(ids[i - 1]);
    CurrentIndexOfOwn(ids, i - 1);
    var k := CurrentIndex(ids, NumericValue(ids[i - 1]));
    assert k + 1 == i;
  }

  /**
   * Over the sorted list of distinct ids, down leads to the next larger id
   * and is disabled exactly when there is none.
   */
  lemma NavigateDownOrder(ids: seq<JsonId>, n: nat)
    requires SortedByValue(ids) && DistinctValues(ids)
    requires CurrentIndex(ids, n) >= 0
    ensures var k := CurrentIndex(ids, n);
      && (NavigateDown(ids, k).Some? <==> exists j :: 0 <= j < |ids| && NumericValue(ids[j]) > n)
      && (k + 1 < |ids| ==>
            && NumericValue(ids[k + 1]) > n
            && forall j :: 0 <= j < |ids| && NumericValue(ids[j]) > n ==> NumericValue(ids[k + 1]) <= NumericValue(ids[j]))
  {
    var k := CurrentIndex(ids, n);
    if k + 1 < |ids| {
      assert NumericValue(ids[k + 1]) > n;
    }
  }

  /**
   * Over the sorted list of distinct ids, up leads to the next smaller id
   * and is disabled exactly when there is none.
   */
  lemma NavigateUpOrder(ids: seq<JsonId>, n: nat)
    requires SortedByValue(ids) && DistinctValues(ids)
    requires CurrentIndex(ids, n) >= 0
    ensures var k := CurrentIndex(ids, n);
      && (NavigateUp(ids, k).Some? <==> exists j :: 0 <= j < |ids| && NumericValue(ids[j]) < n)
      && (k > 0 ==>
            && NumericValue(ids[k - 1]) < n
            && forall j :: 0 <= j < |ids| && NumericValue(ids[j]) < n ==> NumericValue(ids[j]) <= NumericValue(ids[k - 1]))
  {
    var k := CurrentIndex(ids, n);
    if k > 0 {
      assert NumericValue(ids[k - 1]) < n;
    }
  }

  /**
   * As written, an index whose ids are all JSON strings (as in the index the
   * runner writes) never finds the viewed process: the counter reads 0, up is
   * disabled and down always opens the first id.
   */
  lemma StringIdsNeverFound(ids: seq<JsonId>, n: nat)
    requires forall i :: 0 <= i < |ids| ==> ids[i].Str?
    ensures IndexAsWritten(ids, n) == -1
    ensures PositionCounter(ids, IndexAsWritten(ids, n)).0 == 0
    ensures NavigateUp(ids, IndexAsWritten(ids, n)).None?
    ensures ids != [] ==> NavigateDown(ids, IndexAsWritten(ids, n)) == Some(ProcessPath(ids[0]))
  {
  }

  /**
   * The concrete case: viewing process 2 of the index ["1", "2"], the code
   * as written sends "down" to process 1 and disables "up", while the
   * position by value is 1 and "up" leads to process 1.
   */
  lemma AsWrittenLosesPosition()
    ensures IndexAsWritten([Str(1), Str(2)], 2) == -1
    ensures NavigateDown([Str(1), Str(2)], IndexAsWritten([Str(1), Str(2)], 2)) == Some(ProcessPath(Str(1)))
    ensures CurrentIndex([Str(1), Str(2)], 2) == 1
    ensures NavigateUp([Str(1), Str(2)], CurrentIndex([Str(1), Str(2)], 2)) == Some(ProcessPath(Str(1)))
    ensures NavigateDown([Str(1), Str(2)], CurrentIndex([Str(1), Str(2)], 2)).None?
  {
    StringIdsNeverFound([Str(1), Str(2)], 2);
  }

  /** Where the ids are JSON numbers the code as written and the by-value position agree. */
  lemma {:induction false} NumberIdsAgree(ids: seq<JsonId>, n: nat)
    requires forall i :: 0 <= i < |ids| ==> ids[i].Num?
    ensures IndexAsWritten(ids, n) == CurrentIndex(ids, n)
  {
    if ids != [] {
      NumberIdsAgree(ids[1..], n);
    }
  }

  // ---------------------------------------------------------------------------
  // Header, dots and icons
  // ---------------------------------------------------------------------------

  function Get(keyDetails: map<string, string>, key: string): Option<string> {
    if key in keyDetails then Some(keyDetails[key]) else None
  }

  /** A JavaScript truthiness test on a possibly missing string. */
  predicate Truthy(v: Option<string>) {
    v.Some? && v.value != ""
  }

  /** The header shows the check mark instead of the spinner. */
  predicate ShowsComplete(keyDetails: map<string, string>) {
    Get(keyDetails, "status") == Some("Complete") || Get(keyDetails, "Status") == Some("Complete")
  }

  /** The header's status text. */
  function HeaderLabel(keyDetails: map<string, string>): string {
    var status := Get(keyDetails, "status");
    var Status := Get(keyDetails, "Status");
    if ShowsComplete(keyDetails) then "Done"
    else if status == Some("processing") then "In Progress"
    else if Truthy(status) then status.value
    else if Truthy(Status) then Status.value
    else "In Progress"
  }

  /**
   * The label is never empty; it is "Done" whenever the check mark shows;
   * otherwise it is "In Progress" or the text of `status`, or of `Status`
   * when `status` is missing or empty.
   */
  lemma HeaderLabelSpec(keyDetails: map<string, string>)
    ensures HeaderLabel(keyDetails) != []
    ensures ShowsComplete(keyDetails) ==> HeaderLabel(keyDetails) == "Done"
    ensures !ShowsComplete(keyDetails) && Get(keyDetails, "status") == Some("processing") ==> HeaderLabel(keyDetails) == "In Progress"
    ensures !ShowsComplete(keyDetails) && Get(keyDetails, "status") != Some("processing") && Truthy(Get(keyDetails, "status")) ==>
      HeaderLabel(keyDetails) == keyDetails["status"]
    ensures !ShowsComplete(keyDetails) && !Truthy(Get(keyDetails, "status")) && Truthy(Get(keyDetails, "Status")) ==>
      HeaderLabel(keyDetails) == keyDetails["Status"]
    ensures !Truthy(Get(keyDetails, "status")) && !Truthy(Get(keyDetails, "Status")) ==> HeaderLabel(keyDetails) == "In Progress"
  {
  }

  /** Only the `status` and `Status` keys matter to the header. */
  lemma HeaderReadsOnlyStatusKeys(a: map<string, string>, b: map<string, string>)
    requires Get(a, "status") == Get(b, "status") && Get(a, "Status") == Get(b, "Status")
    ensures HeaderLabel(a) == HeaderLabel(b) && ShowsComplete(a) == ShowsComplete(b)
  {
  }

  /** Setting `status` to "Complete", as the runner does at the end, shows the check mark and "Done" whatever else the details hold. */
  lemma CompleteShowsDone(keyDetails: map<string, string>)
    ensures ShowsComplete(keyDetails["status" := "Complete"])
    ensures HeaderLabel(keyDetails["status" := "Complete"]) == "Done"
  {
  }

  datatype DotColour = Yellow | Red | Green | Blue

  /** The fill of a timeline entry's dot. */
  function DotColourOf(status: string): DotColour {
    if status == "warning" then Yellow
    else if status == "error" then Red
    else if status == "success" then Green
    else Blue
  }

  /** Each of warning, error and success has its own colour; every other status is blue. */
  lemma DotColourSpec(status: string)
    ensures DotColourOf(status) == Yellow <==> status == "warning"
    ensures DotColourOf(status) == Red <==> status == "error"
    ensures DotColourOf(status) == Green <==> status == "success"
    ensures DotColourOf(status) == Blue <==> status !in {"warning", "error", "success"}
  {
  }

  datatype Icon = FileTextIcon | VideoIcon | DatabaseIcon

  /** `getIconComponent`. */
  function IconFor(iconType: string): Icon {
    match iconType
    case "file" => FileTextIcon
    case "video" => VideoIcon
    case "dashboard" => DatabaseIcon
    case _ => FileTextIcon
  }

  /** "video" and "dashboard" get their own icons; everything else, "file" included, the file icon. */
  lemma IconSpec(iconType: string)
    ensures IconFor(iconType) == VideoIcon <==> iconType == "video"
    ensures IconFor(iconType) == DatabaseIcon <==> iconType == "dashboard"
    ensures IconFor(iconType) == FileTextIcon <==> iconType != "video" && iconType != "dashboard"
  {
  }

  // ---------------------------------------------------------------------------
  // Polling
  // ---------------------------------------------------------------------------

  /** What one `fetchData` call finds: the record, a non-ok response, or a thrown error. */
  datatype Poll = Fetched(rec: ProcessRecord) | NotFound | Failed(message: string)

  const NotFoundMessage: string := "Process data not found"

  datatype ViewerState = ViewerState(data: Option<ProcessRecord>, loading: bool, error: Option<string>)

  const InitialViewer := ViewerState(None, true, None)

  /** The state after one `fetchData`; nothing ever clears `error`. */
  function AfterPoll(st: ViewerState, p: Poll): ViewerState {
    match p
    case Fetched(rec) => st.(data := Some(rec), loading := false)
    case NotFound => st.(error := Some(NotFoundMessage), loading := false)
    case Failed(m) => st.(error := Some(m), loading := false)
  }

  function AfterPolls(st: ViewerState, ps: seq<Poll>): ViewerState
    decreases |ps|
  {
    if ps == [] then st else AfterPolls(AfterPoll(st, ps[0]), ps[1..])
  }

  datatype Screen = Spinner | ErrorScreen(message: string) | Blank | Details(rec: ProcessRecord)

  /** The three early returns of the component and the full page. */
  function ScreenOf(st: ViewerState): Screen {
    if st.loading && st.data.None? then Spinner
    else if Truthy(st.error) then ErrorScreen(st.error.value)
    else if st.data.None? then Blank
    else Details(st.data.value)
  }

  /** Loading ends with the first poll, and a record or an error once seen stays seen. */
  lemma {:induction false} PollsMonotone(st: ViewerState, ps: seq<Poll>)
    ensures AfterPolls(st, ps).loading == (st.loading && ps == [])
    ensures st.data.Some? ==> AfterPolls(st, ps).data.Some?
    ensures st.error.Some? ==> AfterPolls(st, ps).error.Some?
    decreases |ps|
  {
    if ps != [] {
      PollsMonotone(AfterPoll(st, ps[0]), ps[1..]);
    }
  }

  predicate NoEmptyFailures(ps: seq<Poll>) {
    forall i :: 0 <= i < |ps| ==> (ps[i].Failed? ==> ps[i].message != "")
  }

  /**
   * Once an error is shown it stays on screen: later successful polls
   * replace `data` but the error screen takes precedence (as long as no
   * later failure carries an empty message).
   */
  lemma {:induction false} ErrorIsSticky(st: ViewerState, ps: seq<Poll>)
    requires Truthy(st.error) && !st.loading
    requires NoEmptyFailures(ps)
    ensures ScreenOf(AfterPolls(st, ps)).ErrorScreen?
    decreases |ps|
  {
    if ps != [] {
      assert ps[0].Failed? ==> ps[0].message != "";
      ErrorIsSticky(AfterPoll(st, ps[0]), ps[1..]);
    }
  }

  /** Without an error, a run of successful polls shows the latest record. */
  lemma {:induction false} FetchesShowLatest(st: ViewerState, ps: seq<Poll>)
    requires st.error.None? && ps != []
    requires forall i :: 0 <= i < |ps| ==> ps[i].Fetched?
    ensures ScreenOf(AfterPolls(st, ps)) == Details(ps[|ps| - 1].rec)
    decreases |ps|
  {
    if |ps| > 1 {
      FetchesShowLatest(AfterPoll(st, ps[0]), ps[1..]);
    }
  }

  /** The first screens: a spinner, then the record, the not-found error or the thrown message. */
  lemma FirstPoll(p: Poll)
    ensures ScreenOf(InitialViewer) == Spinner
    ensures p.Fetched? ==> ScreenOf(AfterPoll(InitialViewer, p)) == Details(p.rec)
    ensures p.NotFound? ==> ScreenOf(AfterPoll(InitialViewer, p)) == ErrorScreen(NotFoundMessage)
    ensures p.Failed? && p.message != "" ==> ScreenOf(AfterPoll(InitialViewer, p)) == ErrorScreen(p.message)
    ensures p.Failed? && p.message == "" ==> ScreenOf(AfterPoll(InitialViewer, p)) == Blank
  {
  }
}
