/**
 * The process index (processes.json) shared by the workflow runner, the
 * process list and the process viewer, and the route that opens one process.
 */
module ProcessIndex {
  import opened Base
  import opened JsText

  /**
   * A process id as it sits in the JSON index: a JSON number, or a JSON
   * string holding the decimal digits of a number (the runner writes strings).
   * Ids that do not parse as numbers are outside the model.
   */
  datatype JsonId = Num(n: nat) | Str(n: nat)

  /** The number `parseInt` and the `a - b` sort comparator read from an id. */
  function NumericValue(id: JsonId): nat {
    id.n
  }

  /** What a template literal prints for the id. */
  function IdText(id: JsonId): string {
    DecimalString(id.n)
  }

  /** One row of processes.json. */
  datatype IndexEntry = IndexEntry(id: JsonId, stockId: string, name: string, year: string, status: string)

  function Ids(entries: seq<IndexEntry>): (ids: seq<JsonId>)
    ensures |ids| == |entries|
    ensures forall i :: 0 <= i < |entries| ==> ids[i] == entries[i].id
  {
    seq(|entries|, i requires 0 <= i < |entries| => entries[i].id)
  }

  const RoutePrefix: string := "/done/process/"

  /** The route both the list rows and the viewer's up/down buttons navigate to. */
  function ProcessPath(id: JsonId): (path: string)
    ensures |path| > |RoutePrefix| && path[..|RoutePrefix|] == RoutePrefix
  {
    RoutePrefix + IdText(id)
  }

  /** The `:id` route parameter read back with `parseInt`; `None` when it is not a run of digits. */
  function RouteId(path: string): (r: Option<nat>)
    ensures r.Some? ==> |path| > |RoutePrefix|
  {
    if |path| > |RoutePrefix| && path[..|RoutePrefix|] == RoutePrefix && AllDigits(path[|RoutePrefix|..])
    then Some(DigitsValue(path[|RoutePrefix|..]))
    else None
  }

  /** Opening the route of an id gives back the id's number. */
  lemma RouteRoundTrip(id: JsonId)
    ensures RouteId(ProcessPath(id)) == Some(NumericValue(id))
  {
    var path := ProcessPath(id);
    assert path[|RoutePrefix|..] == IdText(id);
    DecimalRoundTrip(id.n);
  }
}
