/**
 * The process list (ProcessList.jsx): the status tabs with their counts, the
 * rows of the active tab, the empty state shown when it has none, the marker
 * in front of each row and the route a row opens.
 */
module ProcessList {
  import opened Base
  import opened ProcessIndex

  /** The tab opened first. */
  const InitialTab: string := "Done"

  /** The statuses of the five tabs, in display order. */
  const TabStatuses: seq<string> := ["Needs Attention", "Needs Review", "Void", "In Progress", "Done"]

  /** `getProcessesByStatus`: the entries whose status is exactly `status`, in index order. */
  function ByStatus(entries: seq<IndexEntry>, status: string): (r: seq<IndexEntry>)
    ensures |r| <= |entries|
    ensures forall e :: e in r <==> e in entries && e.status == status
  {
    if entries == [] then []
    else (if entries[0].status == status then [entries[0]] else []) + ByStatus(entries[1..], status)
  }

  /** Filtering a concatenation filters each part in turn: the filter keeps the index order. */
  lemma {:induction false} ByStatusAppend(a: seq<IndexEntry>, b: seq<IndexEntry>, status: string)
    ensures ByStatus(a + b, status) == ByStatus(a, status) + ByStatus(b, status)
  {
    if a == [] {
      assert a + b == b;
    } else {
      var head := if a[0].status == status then [a[0]] else [];
      assert (a + b)[0] == a[0];
      assert (a + b)[1..] == a[1..] + b;
      assert ByStatus(a + b, status) == head + ByStatus(a[1..] + b, status);
      ByStatusAppend(a[1..], b, status);
      ConcatAssoc(head, ByStatus(a[1..], status), ByStatus(b, status));
    }
  }

  /** A tab as rendered: its label, its status and the number of entries with that status. */
  datatype Tab = Tab(caption: string, status: string, count: nat)

  function TabsOf(entries: seq<IndexEntry>): (tabs: seq<Tab>)
    ensures |tabs| == |TabStatuses|
    ensures forall i :: 0 <= i < |tabs| ==>
      tabs[i].status == TabStatuses[i] && tabs[i].count == |ByStatus(entries, TabStatuses[i])|
  {
    [Tab("Needs attention", "Needs Attention", |ByStatus(entries, "Needs Attention")|),
     Tab("Needs review", "Needs Review", |ByStatus(entries, "Needs Review")|),
     Tab("Void", "Void", |ByStatus(entries, "Void")|),
     Tab("In progress", "In Progress", |ByStatus(entries, "In Progress")|),
     Tab("Done", "Done", |ByStatus(entries, "Done")|)]
  }

  predicate HasTabStatus(e: IndexEntry) {
    e.status in TabStatuses
  }

  /** The number of entries whose status has no tab. */
  function Untabbed(entries: seq<IndexEntry>): nat {
    if entries == [] then 0
    else (if HasTabStatus(entries[0]) then 0 else 1) + Untabbed(entries[1..])
  }

  function SumCounts(tabs: seq<Tab>): nat {
    if tabs == [] then 0 else tabs[0].count + SumCounts(tabs[1..])
  }

  lemma {:induction false} CountsPartition(entries: seq<IndexEntry>)
    ensures |ByStatus(entries, "Needs Attention")| + |ByStatus(entries, "Needs Review")|
          + |ByStatus(entries, "Void")| + |ByStatus(entries, "In Progress")|
          + |ByStatus(entries, "Done")| + Untabbed(entries) == |entries|
  {
    if entries != [] {
      CountsPartition(entries[1..]);
    }
  }

  /**
   * The five counts add up to the number of entries whose status has a tab:
   * every such entry is counted once and no other entry is counted.
   */
  lemma TabCountsCoverIndex(entries: seq<IndexEntry>)
    ensures SumCounts(TabsOf(entries)) + Untabbed(entries) == |entries|
  {
    var tabs := TabsOf(entries);
    SumOfFive(tabs[0], tabs[1], tabs[2], tabs[3], tabs[4]);
    assert tabs == [tabs[0], tabs[1], tabs[2], tabs[3], tabs[4]];
    CountsPartition(entries);
  }

  lemma SumOfFive(t0: Tab, t1: Tab, t2: Tab, t3: Tab, t4: Tab)
    ensures SumCounts([t0, t1, t2, t3, t4]) == t0.count + t1.count + t2.count + t3.count + t4.count
  {
    assert [t4][1..] == [];
    assert SumCounts([t4]) == t4.count;
    assert [t3, t4][1..] == [t4];
    assert SumCounts([t3, t4]) == t3.count + t4.count;
    assert [t2, t3, t4][1..] == [t3, t4];
    assert SumCounts([t2, t3, t4]) == t2.count + t3.count + t4.count;
    assert [t1, t2, t3, t4][1..] == [t2, t3, t4];
    assert SumCounts([t1, t2, t3, t4]) == t1.count + t2.count + t3.count + t4.count;
    assert [t0, t1, t2, t3, t4][1..] == [t1, t2, t3, t4];
  }

  /** The empty-state illustration, heading and text. */
  datatype EmptyState = EmptyState(icon: string, title: string, description: string)

  const DoneEmptyState := EmptyState("/file3.svg", "No completed processes", "Completed processes will appear here.")

  const EmptyStates: map<string, EmptyState> := map[
    "Needs Attention" := EmptyState("/file1.svg", "No blockers right now",
                                    "Sit back and let things flow, we'll nudge you when it's time to step in."),
    "Void" := EmptyState("/file2.svg", "Nothing to see here yet", "Any process that is void will land here."),
    "In Progress" := EmptyState("/file3.svg", "All clear for now", "Looks like a quiet moment. Maybe grab a coffee?"),
    "Done" := DoneEmptyState
  ]

  /** `renderEmptyState`: the tab's own empty state, or the "Done" one when it has none. */
  function EmptyStateFor(tab: string): EmptyState {
    if tab in EmptyStates then EmptyStates[tab] else DoneEmptyState
  }

  /** Of the five tab statuses, "Needs Attention", "Void", "In Progress" and "Done" have their own empty state; "Needs Review" falls back to the one of "Done". */
  lemma EmptyStateFallback(tab: string)
    ensures EmptyStateFor(tab) != DoneEmptyState <==> tab in {"Needs Attention", "Void", "In Progress"}
    ensures EmptyStateFor("Needs Review") == DoneEmptyState
  {
  }

  datatype ListView = Rows(rows: seq<IndexEntry>) | Empty(state: EmptyState)

  /** What the list shows for the active tab. */
  function ViewOf(entries: seq<IndexEntry>, activeTab: string): ListView {
    var current := ByStatus(entries, activeTab);
    if |current| > 0 then Rows(current) else Empty(EmptyStateFor(activeTab))
  }

  /**
   * The list shows rows exactly when some entry has the active tab's status;
   * the rows are then exactly those entries, and otherwise the tab's empty
   * state shows.
   */
  lemma ViewSpec(entries: seq<IndexEntry>, activeTab: string)
    ensures ViewOf(entries, activeTab).Rows? <==> exists e :: e in entries && e.status == activeTab
    ensures ViewOf(entries, activeTab).Rows? ==>
      forall e :: e in ViewOf(entries, activeTab).rows <==> e in entries && e.status == activeTab
    ensures ViewOf(entries, activeTab).Empty? ==> ViewOf(entries, activeTab).state == EmptyStateFor(activeTab)
  {
    var current := ByStatus(entries, activeTab);
    if exists e :: e in entries && e.status == activeTab {
      var e :| e in entries && e.status == activeTab;
      assert e in current;
    }
    if |current| > 0 {
      assert current[0] in current;
    }
  }

  /** The marker before a row. */
  datatype RowMarker = DoneMarker | InProgressMarker | AttentionMarker | GreyMarker

  function RowMarkerOf(status: string): RowMarker {
    if status == "Done" then DoneMarker
    else if status == "In Progress" then InProgressMarker
    else if status == "Needs Attention" then AttentionMarker
    else GreyMarker
  }

  /** Every row of a tab carries the same marker; Needs Review, Void and unknown statuses share the grey one. */
  lemma RowMarkerSpec(entries: seq<IndexEntry>, activeTab: string)
    ensures forall e :: e in ByStatus(entries, activeTab) ==> RowMarkerOf(e.status) == RowMarkerOf(activeTab)
    ensures RowMarkerOf(activeTab) == GreyMarker <==> activeTab !in {"Done", "In Progress", "Needs Attention"}
  {
  }

  /** The route a row's click navigates to. */
  function RowRoute(e: IndexEntry): string {
    ProcessPath(e.id)
  }

  /** Clicking a row opens the viewer on that row's id. */
  lemma RowOpensItsProcess(e: IndexEntry)
    ensures RouteId(RowRoute(e)) == Some(NumericValue(e.id))
  {
    RouteRoundTrip(e.id);
  }
}
