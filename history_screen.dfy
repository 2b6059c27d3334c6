/** The logic inside the Android history screen: the status tag of a
    reading, which record a card compares itself with, the text of a
    comparison chip, and the two paging conditions of the list. */
module HistoryScreen {

  import opened Models
  import opened Strings
  import ViewModel

  const HighColor: int := 0xFFEF4444
  const ElevatedColor: int := 0xFFF59E0B
  const NormalColor: int := 0xFF22C55E

  /** A status tag: its text and its ARGB colour. */
  datatype Status = Status(text: string, color: int)

  /** Severity of a label, for comparing two classifications. */
  function Rank(tag: string): int
  {
    if tag == HighLabel then 2 else if tag == ElevatedLabel then 1 else 0
  }

  /** The tag of a reading: high at systolic 140 or diastolic 90, elevated
      at systolic 130 or diastolic 85, otherwise normal.  Exactly one of the
      three labels, each with its own colour. */
  function GetStatus(sys: int, dia: int): (s: Status)
    ensures s.text == HighLabel <==> sys >= 140 || dia >= 90
    ensures s.text == ElevatedLabel <==> !(sys >= 140 || dia >= 90) && (sys >= 130 || dia >= 85)
    ensures s.text == NormalLabel <==> sys < 130 && dia < 85
    ensures s.text == HighLabel ==> s.color == HighColor
    ensures s.text == ElevatedLabel ==> s.color == ElevatedColor
    ensures s.text == NormalLabel ==> s.color == NormalColor
  {
    if sys >= 140 || dia >= 90 then Status(HighLabel, HighColor)
    else if sys >= 130 || dia >= 85 then Status(ElevatedLabel, ElevatedColor)
    else Status(NormalLabel, NormalColor)
  }

  /** Raising either value never lowers the status. */
  lemma GetStatusMonotone(sys1: int, dia1: int, sys2: int, dia2: int)
    requires sys1 <= sys2 && dia1 <= dia2
    ensures Rank(GetStatus(sys1, dia1).text) <= Rank(GetStatus(sys2, dia2).text)
  {
  }

  // ---------------------------------------------------------------------
  // The record a card compares itself with
  // ---------------------------------------------------------------------

  /** `records.indexOf(x)`: the first position holding a value equal to `x`,
      or -1. */
  function IndexOf(s: seq<Record>, x: Record): (i: int)
    ensures -1 <= i < |s|
    ensures i >= 0 ==> s[i] == x && forall k :: 0 <= k < i ==> s[k] != x
    ensures i == -1 <==> x !in s
  {
    if s == [] then -1
    else if s[0] == x then 0
    else
      var j := IndexOf(s[1..], x);
      if j == -1 then -1 else j + 1
  }

  /** The previous reading a card shows: `records.getOrNull(indexOf(r) + 1)`
      for the card of `records[i]`, whatever its name. */
  function PreviousRecord(records: seq<Record>, i: int): (r: Option<Record>)
    requires 0 <= i < |records|
    ensures r.None? <==> forall k :: 0 <= k < |records| - 1 ==> records[k] != records[i]
    ensures r.Some? ==> exists k :: 0 <= k < |records| - 1 && records[k] == records[i] && r.value == records[k + 1]
  {
    var idx := IndexOf(records, records[i]);
    if idx + 1 < |records| then Some(records[idx + 1]) else None
  }

  /** When no two entries are equal (ids are unique), the card at position
      `i` compares with position `i + 1`, and the last card with none. */
  lemma PreviousIsNext(records: seq<Record>, i: int)
    requires 0 <= i < |records|
    requires forall j, k :: 0 <= j < k < |records| ==> records[j].id != records[k].id
    ensures PreviousRecord(records, i) == if i + 1 < |records| then Some(records[i + 1]) else None
  {
  }

  /** A reading listed more than once (an appended page that overlaps the
      previous one) makes every later copy compare with the entry after
      the FIRST copy, not with its own successor. */
  lemma DuplicateComparesAfterFirstCopy(records: seq<Record>, j: int, i: int)
    requires 0 <= j < i < |records| && records[j] == records[i]
    requires forall k :: 0 <= k < j ==> records[k] != records[i]
    ensures PreviousRecord(records, i) == PreviousRecord(records, j) == Some(records[j + 1])
  {
    assert IndexOf(records, records[i]) == j;
  }

  // ---------------------------------------------------------------------
  // Comparison chips
  // ---------------------------------------------------------------------

  const Level: string := "持平"

  /** The chip text: the label, a space, then "持平" for no change, "+d" for
      a rise and "d" (with its minus sign) for a fall. */
  function ComparisonText(tag: string, diff: int): (t: string)
    ensures |t| > |tag| + 1 && t[..|tag| + 1] == tag + " "
    ensures diff == 0 ==> t[|tag| + 1..] == Level
    ensures diff > 0 ==> t[|tag| + 1] == '+'
    ensures diff < 0 ==> t[|tag| + 1] == '-'
  {
    tag + " " + (if diff == 0 then Level else (if diff > 0 then "+" else "") + IntToString(diff))
  }

  /** Reads a chip's change back from the text after "label ". */
  function ParseChange(t: string): Option<int>
  {
    if t == Level then Some(0)
    else if |t| >= 1 && t[0] == '+' then
      match ParseInt(t[1..])
      case Some(d) => if d > 0 then Some(d) else None
      case None => None
    else
      match ParseInt(t)
      case Some(d) => if d < 0 then Some(d) else None
      case None => None
  }

  /** The chip's text determines the change it shows. */
  lemma ComparisonTextRoundTrip(tag: string, diff: int)
    ensures ParseChange(ComparisonText(tag, diff)[|tag| + 1..]) == Some(diff)
  {
    var t := ComparisonText(tag, diff)[|tag| + 1..];
    if diff > 0 {
      assert t == "+" + IntToString(diff);
      assert t[1..] == IntToString(diff);
      assert t != Level by { assert t[0] != Level[0]; }
      IntToStringRoundTrip(diff);
    } else if diff < 0 {
      assert t == IntToString(diff);
      assert t != Level by { assert t[0] != Level[0]; }
      IntToStringRoundTrip(diff);
    }
  }

  // ---------------------------------------------------------------------
  // Paging conditions of the list
  // ---------------------------------------------------------------------

  /** The "已加载全部" footer: the last page has arrived and the list is not empty. */
  predicate AllLoaded(meta: Meta, records: seq<Record>)
  {
    meta.page >= meta.totalPages && |records| > 0
  }

  /** The scroll trigger for `loadMore`: the last visible item index is
      within three of the number of records. */
  predicate NearEnd(lastVisibleIndex: Option<int>, size: int)
  {
    lastVisibleIndex.Some? && lastVisibleIndex.value >= size - 3
  }

  /** Against an unchanged store, after the `k`-th fetch of the view
      model, the footer shows exactly when every matching record is listed
      and there is at least one. */
  lemma AllLoadedIffEverythingListed(s: seq<Record>, name: string, start: string, end: string, k: nat)
    requires k >= 1
    ensures var meta := ViewModel.ServerAnswer(s, ViewModel.QueryParams(name, start, end, k)).meta;
      var records := ViewModel.Loaded(s, name, start, end, k);
      AllLoaded(meta, records) <==> (records == ViewModel.Listed(s, name, start, end) && records != [])
  {
    ViewModel.LoadMoreStopsWhenAllLoaded(s, name, start, end, k);
  }

  /** The screen's collector of the last visible index: near the end it
      calls `loadMore`, whose guard then decides.  A page is requested
      exactly when the trigger fires, nothing is in flight and the current
      page is not the last; otherwise the view model is left as it was. */
  method CollectLastVisible(vm: ViewModel.MainViewModel, lastVisibleIndex: Option<int>,
                            reply: ViewModel.Outcome<RecordResponse>)
    modifies vm
    ensures var fires := NearEnd(lastVisibleIndex, |old(vm.records)|) && !old(vm.loadingMore)
                         && !old(vm.loading) && old(vm.currentPage) < old(vm.meta).totalPages;
      (fires ==>
         vm.currentPage == old(vm.currentPage) + 1
         && vm.requests == old(vm.requests)
              + [ViewModel.QueryParams(vm.filterName, vm.filterStart, vm.filterEnd, old(vm.currentPage) + 1)]
         && vm.records == (if reply.Success? then old(vm.records) + reply.value.data else old(vm.records))
         && vm.meta == (if reply.Success? then reply.value.meta else old(vm.meta))
         && vm.authError == (old(vm.authError) || ViewModel.Unauthorized(reply))
         && !vm.loading && !vm.loadingMore)
      && (!fires ==>
         vm.currentPage == old(vm.currentPage) && vm.requests == old(vm.requests)
         && vm.records == old(vm.records) && vm.meta == old(vm.meta) && vm.authError == old(vm.authError)
         && vm.loading == old(vm.loading) && vm.loadingMore == old(vm.loadingMore))
    ensures vm.filterName == old(vm.filterName) && vm.filterStart == old(vm.filterStart)
      && vm.filterEnd == old(vm.filterEnd) && vm.users == old(vm.users)
    ensures vm.created == old(vm.created) && vm.deletedIds == old(vm.deletedIds)
  {
    if NearEnd(lastVisibleIndex, |vm.records|) {
      vm.LoadMore(reply);
    }
  }
}
