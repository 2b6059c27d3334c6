/** The web client's record list: the `App` component's state slots, the
    fetch that replaces or appends a page, the scroll guard that asks for
    the next page, deletion, and the pure helpers of the list view (status
    tag, same-name predecessor, query parameters of the filter form).
    What each request settles to is an input. */
module WebApp {

  import opened Models
  import opened Strings
  import RecordStore

  const PageSize: int := 20
  const DayStart: string := "T00:00:00.000Z"
  const DayEnd: string := "T23:59:59.999Z"

  const DeletedToast: string := "删除成功"
  const DeleteFailedToast: string := "删除失败"
  const DeleteNetworkToast: string := "网络异常，删除失败"

  // ---------------------------------------------------------------------
  // Status tag of a reading
  // ---------------------------------------------------------------------

  /** A tag: its label, the component colour and the text tone. */
  datatype Tag = Tag(text: string, color: string, tone: string)

  /** The list view's classifier.  Its second test repeats `dia >= 90`, which
      the first test has already caught, so "elevated" depends on the
      systolic value alone. */
  function GetStatus(sys: int, dia: int): (t: Tag)
    ensures t.text == HighLabel <==> sys >= 140 || dia >= 90
    ensures t.text == ElevatedLabel <==> !(sys >= 140 || dia >= 90) && sys >= 130
    ensures t.text == NormalLabel <==> sys < 130 && dia < 90
    ensures t.text == HighLabel ==> t.color == "danger"
    ensures t.text == ElevatedLabel ==> t.color == "warning"
    ensures t.text == NormalLabel ==> t.color == "success"
  {
    if sys >= 140 || dia >= 90 then Tag(HighLabel, "danger", "var(--danger)")
    else if sys >= 130 || dia >= 90 then Tag(ElevatedLabel, "warning", "#f59e0b")
    else Tag(NormalLabel, "success", "var(--text-main)")
  }

  // ---------------------------------------------------------------------
  // The same-name predecessor of a card
  // ---------------------------------------------------------------------

  /** `record.name || ""`. */
  function NameKey(r: Record): string
  {
    r.name.GetOr("")
  }

  /** `getPrevRecord(idx)`: the first later entry of the sorted list whose
      name (null read as "") equals the entry's own, or none. */
  method GetPrevRecord(sorted: seq<Record>, idx: int) returns (prev: Option<Record>)
    requires 0 <= idx < |sorted|
    ensures prev.None? <==> forall j :: idx < j < |sorted| ==> NameKey(sorted[j]) != NameKey(sorted[idx])
    ensures prev.Some? ==>
      exists j :: idx < j < |sorted| && sorted[j] == prev.value
        && NameKey(sorted[j]) == NameKey(sorted[idx])
        && forall k :: idx < k < j ==> NameKey(sorted[k]) != NameKey(sorted[idx])
  {
    var cur := sorted[idx];
    var j := idx + 1;
    while j < |sorted|
      invariant idx + 1 <= j <= |sorted|
      invariant forall k :: idx < k < j ==> NameKey(sorted[k]) != NameKey(cur)
    {
      if NameKey(sorted[j]) == NameKey(cur) {
        return Some(sorted[j]);
      }
      j := j + 1;
    }
    return None;
  }

  // ---------------------------------------------------------------------
  // Query parameters
  // ---------------------------------------------------------------------

  /** The filter form: a name and two `yyyy-MM-dd` dates, each possibly "". */
  datatype FilterForm = FilterForm(name: string, start: string, end: string)

  /** `buildParamsFromFilter`: a key for each non-empty field; the dates
      widened to the first and last millisecond of their UTC day. */
  function BuildParams(form: FilterForm): (params: map<string, string>)
    ensures forall k :: k in params ==> k == "name" || k == "start" || k == "end"
    ensures "name" in params <==> form.name != ""
    ensures "start" in params <==> form.start != ""
    ensures "end" in params <==> form.end != ""
    ensures "name" in params ==> params["name"] == form.name
    ensures "start" in params ==> params["start"] == form.start + DayStart
    ensures "end" in params ==> params["end"] == form.end + DayEnd
  {
    var name := if form.name != "" then map["name" := form.name] else map[];
    var start := if form.start != "" then map["start" := form.start + DayStart] else map[];
    var end := if form.end != "" then map["end" := form.end + DayEnd] else map[];
    name + start + end
  }

  /** `URLSearchParams({ page, pageSize: 20 })` overwritten by every truthy
      entry of `params`; falsy entries are left out. */
  function SearchParams(p: int, params: map<string, string>): (q: map<string, string>)
  {
    var given := map k | k in params && params[k] != "" :: params[k];
    map["page" := IntToString(p), "pageSize" := IntToString(PageSize)] + given
  }

  /** How the server binds an `int?` query parameter. */
  function ServerInt(q: map<string, string>, key: string): Option<int>
  {
    if key in q then ParseInt(q[key]) else None
  }

  /** How the server binds a `string?` query parameter. */
  function ServerText(q: map<string, string>, key: string): Option<string>
  {
    if key in q then Some(q[key]) else None
  }

  /** The filter the server reads from a query string. */
  function ServerFilter(q: map<string, string>): RecordStore.Filter
  {
    RecordStore.Filter(ServerText(q, "start"), ServerText(q, "end"), ServerText(q, "name"))
  }

  /** Turns an optional non-empty text into the server's view of it. */
  function NonEmpty(v: string): Option<string>
  {
    if v != "" then Some(v) else None
  }

  /** The request for page `p` of the filter form reaches the server as
      page `p`, page size 20 and the form's own bounds and name. */
  lemma FormReachesServer(form: FilterForm, p: int)
    ensures var q := SearchParams(p, BuildParams(form));
      ServerInt(q, "page") == Some(p)
      && ServerInt(q, "pageSize") == Some(PageSize)
      && ServerFilter(q) == RecordStore.Filter(
           if form.start != "" then Some(form.start + DayStart) else None,
           if form.end != "" then Some(form.end + DayEnd) else None,
           NonEmpty(form.name))
  {
    var params := BuildParams(form);
    var q := SearchParams(p, params);
    IntToStringRoundTrip(p);
    IntToStringRoundTrip(PageSize);
    assert q["page"] == IntToString(p) && q["pageSize"] == IntToString(PageSize);
    assert "start" in q <==> form.start != "";
    assert "end" in q <==> form.end != "";
    assert "name" in q <==> form.name != "";
  }

  // ---------------------------------------------------------------------
  // Replies
  // ---------------------------------------------------------------------

  /** The parsed body of a list response; either field may be missing. */
  datatype ListBody = ListBody(data: Option<seq<Record>>, meta: Option<Meta>)

  /** What `apiRequest` plus `response.json()` settle to. */
  datatype FetchReply = Parsed(body: ListBody) | FetchFailed

  /** `result.data || []`. */
  function DataOf(b: ListBody): seq<Record>
  {
    b.data.GetOr([])
  }

  /** `result.meta || { total: 0, page: p, pageSize: 20, totalPages: 0 }`. */
  function MetaOf(b: ListBody, p: int): Meta
  {
    b.meta.GetOr(Meta(0, p, PageSize, 0))
  }

  /** The records list after a fetch: appended to or replaced on a parsed
      reply, untouched on a failure. */
  function AfterFetch(records: seq<Record>, append: bool, reply: FetchReply): seq<Record>
  {
    if reply.FetchFailed? then records
    else if append then records + DataOf(reply.body)
    else DataOf(reply.body)
  }

  /** The server's answer to a query string, for a store holding `s`. */
  function ServerAnswer(s: seq<Record>, q: map<string, string>): FetchReply
  {
    var resp := RecordStore.Query(s, ServerFilter(q), ServerInt(q, "page"), ServerInt(q, "pageSize"));
    Parsed(ListBody(Some(resp.data), Some(resp.meta)))
  }

  /** What `DELETE /api/records/{id}` settles to, as the handler sees it. */
  datatype DeleteReply = DeleteOk | DeleteRefused(error: Option<string>) | DeleteThrew

  /** The toast the delete handler shows. */
  function DeleteToast(reply: DeleteReply): string
  {
    match reply
    case DeleteOk => DeletedToast
    case DeleteRefused(error) => if error.Some? && error.value != "" then error.value else DeleteFailedToast
    case DeleteThrew => DeleteNetworkToast
  }

  // ---------------------------------------------------------------------
  // The App component
  // ---------------------------------------------------------------------

  /** The slots of `App` that a records fetch changes. */
  datatype ListState = ListState(records: seq<Record>, page: int, hasMore: bool, loadingMore: bool, meta: Meta)

  /** What a settled `fetchRecords(params, append)` makes of those slots: a
      parsed reply appends to or replaces the records and takes page, meta
      and `hasMore` from its meta, and only an append clears `loadingMore`;
      a failure changes none of them. */
  function Fetched(st: ListState, append: bool, reply: FetchReply): (r: ListState)
    ensures r.records == AfterFetch(st.records, append, reply)
    ensures reply.FetchFailed? ==> r == st
    ensures reply.Parsed? ==>
      r.meta == MetaOf(reply.body, if append then st.page + 1 else 1)
      && r.page == r.meta.page && (r.hasMore <==> r.page < r.meta.totalPages)
    ensures r.loadingMore <==> st.loadingMore && !(reply.Parsed? && append)
  {
    if reply.FetchFailed? then st
    else
      var m := MetaOf(reply.body, if append then st.page + 1 else 1);
      ListState(AfterFetch(st.records, append, reply), m.page, m.page < m.totalPages,
                st.loadingMore && !append, m)
  }

  /** The first user, the name `FilterPanel` falls back on. */
  function DefaultName(users: seq<string>): string
  {
    if |users| > 0 then users[0] else ""
  }

  /** The parameters `FilterPanel`'s effect applies: those of the form,
      except that an empty name falls back on the first user. */
  function PanelParams(form: FilterForm, users: seq<string>): (params: map<string, string>)
    ensures params == BuildParams(form.(name := if form.name != "" then form.name else DefaultName(users)))
    ensures form.name != "" ==> params == BuildParams(form)
  {
    var name := if form.name != "" then form.name else DefaultName(users);
    var named := if name != "" then map["name" := name] else map[];
    var start := if form.start != "" then map["start" := form.start + DayStart] else map[];
    var end := if form.end != "" then map["end" := form.end + DayEnd] else map[];
    named + start + end
  }

  class App {
    var authenticated: bool
    var records: seq<Record>
    var loading: bool
    var users: seq<string>
    var filter: FilterForm
    var page: int
    var hasMore: bool
    var loadingMore: bool
    var meta: Meta
    /** The query strings of the record fetches made so far. */
    var requests: seq<map<string, string>>

    function State(): ListState
      reads this
    {
      ListState(records, page, hasMore, loadingMore, meta)
    }

    constructor ()
      ensures !authenticated && records == [] && loading && users == []
      ensures filter == FilterForm("", "", "")
      ensures page == 1 && hasMore && !loadingMore && meta == Meta(0, 1, PageSize, 0)
      ensures requests == []
    {
      authenticated := false;
      records := [];
      loading := true;
      users := [];
      filter := FilterForm("", "", "");
      page := 1;
      hasMore := true;
      loadingMore := false;
      meta := Meta(0, 1, PageSize, 0);
      requests := [];
    }

    /** `fetchRecords(params, append)`: asks for page `page + 1` when
        appending and page 1 otherwise, then settles as `Fetched` says;
        `loading` drops in every case. */
    method FetchRecords(params: map<string, string>, append: bool, reply: FetchReply)
      modifies this
      ensures requests == old(requests) + [SearchParams(if append then old(page) + 1 else 1, params)]
      ensures State() == Fetched(old(State()), append, reply)
      ensures !loading
      ensures authenticated == old(authenticated) && users == old(users) && filter == old(filter)
    {
      var p := if append then page + 1 else 1;
      requests := requests + [SearchParams(p, params)];
      if reply.Parsed? {
        var data := DataOf(reply.body);
        var m := MetaOf(reply.body, p);
        if append {
          records := records + data;
          page := m.page;
          loadingMore := false;
        } else {
          records := data;
          page := m.page;
        }
        hasMore := m.page < m.totalPages;
        meta := m;
      }
      loading := false;
    }

    /** The scroll listener: near the bottom, with more pages and no append
        in flight, it raises `loadingMore` and appends the next page of the
        current form; otherwise it does nothing.  A failed append leaves
        `loadingMore` raised, which keeps the listener closed from then on. */
    method OnScroll(nearBottom: bool, reply: FetchReply)
      modifies this
      ensures !(nearBottom && old(hasMore) && !old(loadingMore)) ==>
        requests == old(requests) && State() == old(State()) && loading == old(loading)
      ensures nearBottom && old(hasMore) && !old(loadingMore) ==>
        requests == old(requests) + [SearchParams(old(page) + 1, BuildParams(old(filter)))]
        && State() == Fetched(old(State()).(loadingMore := true), true, reply)
        && (loadingMore <==> reply.FetchFailed?)
        && !loading
      ensures authenticated == old(authenticated) && users == old(users) && filter == old(filter)
    {
      if nearBottom && hasMore && !loadingMore {
        loadingMore := true;
        FetchRecords(BuildParams(filter), true, reply);
      }
    }

    /** `fetchUsers`: a parsed reply replaces the user list. */
    method FetchUsers(reply: Option<seq<string>>)
      modifies this`users
      ensures users == reply.GetOr(old(users))
    {
      if reply.Some? {
        users := reply.value;
      }
    }

    /** One run of the mount effect: without a stored token only `loading`
        drops; with one, the users are fetched, the form's dates become the
        last 30 days (name kept) and page 1 is fetched with no parameters. */
    method MountEffect(token: Option<string>, today: string, monthAgo: string,
                       usersReply: Option<seq<string>>, recordsReply: FetchReply)
      modifies this
      ensures !(token.Some? && token.value != "") ==>
        !loading && authenticated == old(authenticated) && requests == old(requests)
        && State() == old(State()) && filter == old(filter) && users == old(users)
      ensures token.Some? && token.value != "" ==>
        authenticated && users == usersReply.GetOr(old(users))
        && filter == FilterForm(old(filter).name, monthAgo, today)
        && requests == old(requests) + [SearchParams(1, map[])]
        && State() == Fetched(old(State()), false, recordsReply)
        && !loading
    {
      if !(token.Some? && token.value != "") {
        loading := false;
        return;
      }
      authenticated := true;
      FetchUsers(usersReply);
      filter := filter.(start := monthAgo, end := today);
      FetchRecords(map[], false, recordsReply);
    }

    /** The mount: the effect runs, and since it depends on
        `authenticated`, it runs once more when that first run set it.  On
        a fresh page with a stored token the users and the unfiltered page 1
        are therefore each fetched twice; the second replies win. */
    method Mount(token: Option<string>, today: string, monthAgo: string,
                 usersReply: Option<seq<string>>, recordsReply: FetchReply,
                 usersReply2: Option<seq<string>>, recordsReply2: FetchReply)
      modifies this
      ensures !(token.Some? && token.value != "") ==>
        !loading && authenticated == old(authenticated) && requests == old(requests)
        && State() == old(State()) && filter == old(filter) && users == old(users)
      ensures token.Some? && token.value != "" && old(authenticated) ==>
        users == usersReply.GetOr(old(users))
        && requests == old(requests) + [SearchParams(1, map[])]
        && State() == Fetched(old(State()), false, recordsReply)
      ensures token.Some? && token.value != "" && !old(authenticated) ==>
        users == usersReply2.GetOr(usersReply.GetOr(old(users)))
        && requests == old(requests) + [SearchParams(1, map[]), SearchParams(1, map[])]
        && State() == Fetched(Fetched(old(State()), false, recordsReply), false, recordsReply2)
      ensures token.Some? && token.value != "" ==>
        authenticated && !loading && filter == FilterForm(old(filter).name, monthAgo, today)
    {
      var was := authenticated;
      MountEffect(token, today, monthAgo, usersReply, recordsReply);
      if authenticated != was {
        MountEffect(token, today, monthAgo, usersReply2, recordsReply2);
      }
    }

    /** `FilterPanel`'s effect, which runs whenever the list or chart view
        mounts and whenever a field of the form changes: page 1 of the
        form's parameters, with the first user standing in for an empty
        name. */
    method ApplyPanel(reply: FetchReply)
      modifies this
      ensures requests == old(requests) + [SearchParams(1, PanelParams(old(filter), old(users)))]
      ensures State() == Fetched(old(State()), false, reply)
      ensures !loading
      ensures authenticated == old(authenticated) && users == old(users) && filter == old(filter)
    {
      FetchRecords(PanelParams(filter, users), false, reply);
    }

    /** The list view's reset button: the form becomes no name and the
        last 30 days, and page 1 is fetched with no parameters.  When that
        changed a field, `FilterPanel`'s effect (`ApplyPanel`) follows. */
    method ResetForm(today: string, monthAgo: string, reply: FetchReply)
      modifies this
      ensures filter == FilterForm("", monthAgo, today)
      ensures requests == old(requests) + [SearchParams(1, map[])]
      ensures State() == Fetched(old(State()), false, reply)
      ensures !loading
      ensures authenticated == old(authenticated) && users == old(users)
    {
      filter := FilterForm("", monthAgo, today);
      FetchRecords(map[], false, reply);
    }

    /** `handleDeleteRecord(id)`: an ok reply drops the id from the list;
        the toast says what happened. */
    method HandleDeleteRecord(id: int, reply: DeleteReply) returns (toast: string)
      modifies this`records
      ensures records == if reply.DeleteOk? then WithoutId(old(records), id) else old(records)
      ensures toast == DeleteToast(reply)
      ensures reply.DeleteOk? ==> toast == DeletedToast
      ensures reply.DeleteRefused? ==>
        toast == if reply.error.Some? && reply.error.value != "" then reply.error.value else DeleteFailedToast
      ensures reply.DeleteThrew? ==> toast == DeleteNetworkToast
    {
      if reply.DeleteOk? {
        records := WithoutId(records, id);
      }
      toast := DeleteToast(reply);
    }
  }

  // ---------------------------------------------------------------------
  // Paging against an unchanged store
  // ---------------------------------------------------------------------

  /** The records list after a first fetch and `k - 1` appends that all
      send the same `params`, each answered by the server for a store
      holding `s`.  This is the intended paging: as written, the scroll
      sends the form's parameters, which need not be those of page 1 (see
      `ScrollAfterDefaultNameRepeats`). */
  function Loaded(s: seq<Record>, params: map<string, string>, k: nat): seq<Record>
    requires k >= 1
  {
    if k == 1 then AfterFetch([], false, ServerAnswer(s, SearchParams(1, params)))
    else AfterFetch(Loaded(s, params, k - 1), true, ServerAnswer(s, SearchParams(k, params)))
  }

  /** The rows the server's filter selects, latest first. */
  function Listed(s: seq<Record>, params: map<string, string>): seq<Record>
  {
    RecordStore.SortByDate(RecordStore.Matching(s, ServerFilter(SearchParams(1, params))))
  }

  /** The query string differs between pages only in the page number. */
  lemma SameFilterOnEveryPage(params: map<string, string>, k: int)
    requires "page" !in params && "pageSize" !in params
    ensures ServerFilter(SearchParams(k, params)) == ServerFilter(SearchParams(1, params))
    ensures ServerInt(SearchParams(k, params), "page") == Some(k)
    ensures ServerInt(SearchParams(k, params), "pageSize") == Some(PageSize)
  {
    IntToStringRoundTrip(k);
    IntToStringRoundTrip(PageSize);
  }

  /** When every append reuses page 1's parameters, after `k` fetches the
      list holds exactly pages 1..k of the server's ordering, with nothing
      repeated or skipped. */
  lemma {:induction false} LoadedIsFirstPages(s: seq<Record>, params: map<string, string>, k: nat)
    requires k >= 1
    requires "page" !in params && "pageSize" !in params
    ensures Loaded(s, params, k) == RecordStore.Pages(Listed(s, params), PageSize, k)
  {
    if k == 1 {
      FirstFetchIsFirstPage(s, params);
    } else {
      LoadedIsFirstPages(s, params, k - 1);
      AppendAddsPage(s, params, k);
    }
  }

  /** The first fetch loads page 1. */
  lemma FirstFetchIsFirstPage(s: seq<Record>, params: map<string, string>)
    requires "page" !in params && "pageSize" !in params
    ensures Loaded(s, params, 1) == RecordStore.Pages(Listed(s, params), PageSize, 1)
  {
    AnswerIsPage(s, params, 1);
  }

  /** An append after pages 1..k-1 leaves pages 1..k. */
  lemma AppendAddsPage(s: seq<Record>, params: map<string, string>, k: nat)
    requires k > 1
    requires "page" !in params && "pageSize" !in params
    requires Loaded(s, params, k - 1) == RecordStore.Pages(Listed(s, params), PageSize, k - 1)
    ensures Loaded(s, params, k) == RecordStore.Pages(Listed(s, params), PageSize, k)
  {
    AnswerIsPage(s, params, k);
  }

  /** The server's answer to the `k`-th request is page `k` of the listing. */
  lemma AnswerIsPage(s: seq<Record>, params: map<string, string>, k: nat)
    requires k >= 1
    requires "page" !in params && "pageSize" !in params
    ensures ServerAnswer(s, SearchParams(k, params)).Parsed?
    ensures DataOf(ServerAnswer(s, SearchParams(k, params)).body)
         == RecordStore.PageSlice(Listed(s, params), k, PageSize)
  {
    SameFilterOnEveryPage(params, k);
  }

  /** When every append reuses page 1's parameters, the server's meta for
      the `k`-th fetch makes `hasMore` true exactly when some matching
      record is not yet in the list. */
  lemma HasMoreIffRecordsRemain(s: seq<Record>, params: map<string, string>, k: nat)
    requires k >= 1
    requires "page" !in params && "pageSize" !in params
    ensures var m := ServerAnswer(s, SearchParams(k, params)).body.meta.value;
      m.page < m.totalPages <==> |Loaded(s, params, k)| < |Listed(s, params)|
  {
    SameFilterOnEveryPage(params, k);
    LoadedIsFirstPages(s, params, k);
    var rows := Listed(s, params);
    RecordStore.PagesArePrefix(rows, PageSize, k);
    RecordStore.MorePagesIffRowsBeyond(|rows|, k, PageSize);
  }

  // ---------------------------------------------------------------------
  // Paging after FilterPanel's default name
  // ---------------------------------------------------------------------

  /** The form's date bounds, as the server applies them, admit `r`. */
  predicate InRange(form: FilterForm, r: Record)
  {
    (form.start != "" ==> LexLe(form.start + DayStart, r.date))
    && (form.end != "" ==> LexLe(r.date, form.end + DayEnd))
  }

  /** The server keeps a row for the form's query exactly when the row
      lies in the form's range and, if the form names someone, is theirs. */
  lemma FormFilterMatches(form: FilterForm, p: int, r: Record)
    ensures RecordStore.Matches(ServerFilter(SearchParams(p, BuildParams(form))), r)
        <==> InRange(form, r) && (form.name != "" ==> r.name == Some(form.name))
  {
    FormReachesServer(form, p);
  }

  /** When the server selects rows that are already latest first, its
      answer is page `p` of them, with their count in the meta. */
  lemma AnswerOfSelection(s: seq<Record>, q: map<string, string>, p: int, rows: seq<Record>)
    requires p >= 1
    requires ServerInt(q, "page") == Some(p) && ServerInt(q, "pageSize") == Some(PageSize)
    requires RecordStore.Matching(s, ServerFilter(q)) == rows && RecordStore.DateDescending(rows)
    ensures ServerAnswer(s, q)
         == Parsed(ListBody(Some(RecordStore.PageSlice(rows, p, PageSize)),
                            Some(Meta(|rows|, p, PageSize, RecordStore.CeilDiv(|rows|, PageSize)))))
  {
    RecordStore.SortedIsFixed(rows);
  }

  /** The list shows the same row at positions `i` and `j`. */
  predicate ListedTwice(list: seq<Record>, i: int, j: int)
  {
    0 <= i < j < |list| && list[i] == list[j]
  }

  /** With an empty name, `FilterPanel`'s page 1 holds only the first
      user's rows. */
  lemma PanelFirstPage(form: FilterForm, users: seq<string>, others: seq<Record>, own: seq<Record>)
    requires form.name == "" && |users| > 0 && users[0] != ""
    requires forall r :: r in others ==> r.name != Some(users[0])
    requires forall r :: r in own ==> r.name == Some(users[0]) && InRange(form, r)
    requires RecordStore.DateDescending(own)
    ensures ServerAnswer(others + own, SearchParams(1, PanelParams(form, users)))
         == Parsed(ListBody(Some(RecordStore.PageSlice(own, 1, PageSize)),
                            Some(Meta(|own|, 1, PageSize, RecordStore.CeilDiv(|own|, PageSize)))))
  {
    var named := form.(name := users[0]);
    var q := SearchParams(1, BuildParams(named));
    assert PanelParams(form, users) == BuildParams(named);
    var f := ServerFilter(q);
    FormReachesServer(named, 1);
    forall r | r in others
      ensures !RecordStore.Matches(f, r)
    {
      FormFilterMatches(named, 1, r);
    }
    forall r | r in own
      ensures RecordStore.Matches(f, r)
    {
      FormFilterMatches(named, 1, r);
    }
    RecordStore.MatchingConcat(others, own, f);
    RecordStore.MatchingNone(others, f);
    RecordStore.MatchingAll(own, f);
    assert RecordStore.Matching(others + own, f) == own;
    AnswerOfSelection(others + own, q, 1, own);
  }

  /** The scroll's page 2 of a form with an empty name is page 2 of every
      user's rows. */
  lemma ScrollSecondPage(form: FilterForm, s: seq<Record>)
    requires form.name == ""
    requires forall r :: r in s ==> InRange(form, r)
    requires RecordStore.DateDescending(s)
    ensures ServerAnswer(s, SearchParams(2, BuildParams(form))).Parsed?
    ensures DataOf(ServerAnswer(s, SearchParams(2, BuildParams(form))).body)
         == RecordStore.PageSlice(s, 2, PageSize)
  {
    var q := SearchParams(2, BuildParams(form));
    var f := ServerFilter(q);
    FormReachesServer(form, 2);
    forall r | r in s
      ensures RecordStore.Matches(f, r)
    {
      FormFilterMatches(form, 2, r);
    }
    RecordStore.MatchingAll(s, f);
    AnswerOfSelection(s, q, 2, s);
  }

  /** As written, with an empty name in the form: `FilterPanel` loads page 1
      of the first user's rows, and the next scroll appends page 2 of all
      users' rows.  When other users' readings are newer, the appended page
      starts with rows page 1 already holds. */
  lemma ScrollAfterDefaultNameRepeats(form: FilterForm, users: seq<string>, others: seq<Record>,
                                      own: seq<Record>, st0: ListState)
    requires form.name == "" && |users| > 0 && users[0] != ""
    requires 1 <= |others| <= PageSize < |own|
    requires forall r :: r in others ==> r.name != Some(users[0]) && InRange(form, r)
    requires forall r :: r in own ==> r.name == Some(users[0]) && InRange(form, r)
    requires RecordStore.DateDescending(others + own)
    ensures var s := others + own;
      var st1 := Fetched(st0, false, ServerAnswer(s, SearchParams(1, PanelParams(form, users))));
      var st2 := Fetched(st1.(loadingMore := true), true, ServerAnswer(s, SearchParams(st1.page + 1, BuildParams(form))));
      st1.page == 1 && st1.hasMore && ListedTwice(st2.records, PageSize - |others|, PageSize)
  {
    var s := others + own;
    RecordStore.DescendingSuffix(others, own);
    var a1 := ServerAnswer(s, SearchParams(1, PanelParams(form, users)));
    var a2 := ServerAnswer(s, SearchParams(2, BuildParams(form)));
    PanelFirstPage(form, users, others, own);
    ScrollSecondPage(form, s);
    AppendAfterPanel(st0, a1, a2, others, own);
  }

  /** The list state after page 1 of `own` and an append of page 2 of
      `others + own`, whatever the state before. */
  lemma AppendAfterPanel(st0: ListState, a1: FetchReply, a2: FetchReply, others: seq<Record>, own: seq<Record>)
    requires 1 <= |others| <= PageSize < |own|
    requires a1 == Parsed(ListBody(Some(RecordStore.PageSlice(own, 1, PageSize)),
                                   Some(Meta(|own|, 1, PageSize, RecordStore.CeilDiv(|own|, PageSize)))))
    requires a2.Parsed? && DataOf(a2.body) == RecordStore.PageSlice(others + own, 2, PageSize)
    ensures var st1 := Fetched(st0, false, a1);
      var st2 := Fetched(st1.(loadingMore := true), true, a2);
      st1.page == 1 && st1.hasMore && ListedTwice(st2.records, PageSize - |others|, PageSize)
  {
    var first := RecordStore.PageSlice(own, 1, PageSize);
    var second := RecordStore.PageSlice(others + own, 2, PageSize);
    RecordStore.MorePagesIffRowsBeyond(|own|, 1, PageSize);
    var st1 := Fetched(st0, false, a1);
    assert st1.records == first && st1.page == 1 && st1.hasMore;
    var st2 := Fetched(st1.(loadingMore := true), true, a2);
    assert st2.records == first + second;
    PageTwoRepeatsPageOne(others, own);
  }

  /** Page 1 of `own` followed by page 2 of `others + own`: the appended
      page begins `|others|` rows back inside the first. */
  lemma PageTwoRepeatsPageOne(others: seq<Record>, own: seq<Record>)
    requires 1 <= |others| <= PageSize < |own|
    ensures ListedTwice(RecordStore.PageSlice(own, 1, PageSize) + RecordStore.PageSlice(others + own, 2, PageSize),
                        PageSize - |others|, PageSize)
  {
    var first := RecordStore.PageSlice(own, 1, PageSize);
    var second := RecordStore.PageSlice(others + own, 2, PageSize);
    assert |first| == PageSize && |second| >= 1;
    assert second[0] == (others + own)[PageSize] == own[PageSize - |others|];
    assert first[PageSize - |others|] == own[PageSize - |others|];
  }

  /** The mount and reset fetches send no filter: every stored record
      counts towards the first page, whatever range the form displays. */
  lemma InitialFetchIsUnfiltered(s: seq<Record>)
    ensures RecordStore.Matching(s, ServerFilter(SearchParams(1, map[]))) == s
  {
    RecordStore.MatchingNoFilter(s, ServerFilter(SearchParams(1, map[])));
  }
}
