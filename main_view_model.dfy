/** The Android client's `MainViewModel`: the filter, the page counter, the
    loaded records and their meta, the loading flags and the 401 flag, and
    the operations that change them.  Each API call's outcome is an input;
    the calls made are logged in `requests`, `created` and `deletedIds`. */
module ViewModel {

  import opened Models
  import opened Strings
  import RecordStore

  const PageSize: int := 20
  const DayStart: string := "T00:00:00.000Z"
  const DayEnd: string := "T23:59:59.999Z"

  /** The arguments of `getRecords`; a null query parameter is not sent. */
  datatype RecordQuery = RecordQuery(
    start: Option<string>,
    end: Option<string>,
    name: Option<string>,
    page: int,
    pageSize: int)

  /** How a suspending API call ends: a value, an `HttpException` with its
      status code, or any other exception. */
  datatype Outcome<T> = Success(value: T) | HttpFailure(code: int) | OtherFailure

  /** `e.code() == 401` in the handler of this outcome. */
  predicate Unauthorized<T>(o: Outcome<T>)
  {
    o.HttpFailure? && o.code == 401
  }

  /** The query `fetchRecords` builds from the filter: the dates widened to
      the first and last millisecond of their UTC day, each field null when
      empty, page size 20. */
  function QueryParams(name: string, start: string, end: string, page: int): (q: RecordQuery)
    ensures q.start.Some? <==> start != ""
    ensures q.end.Some? <==> end != ""
    ensures q.name.Some? <==> name != ""
    ensures q.start.Some? ==> q.start.value == start + DayStart
    ensures q.end.Some? ==> q.end.value == end + DayEnd
    ensures q.name.Some? ==> q.name.value == name
    ensures q.page == page && q.pageSize == PageSize
  {
    RecordQuery(
      if start != "" then Some(start + DayStart) else None,
      if end != "" then Some(end + DayEnd) else None,
      if name != "" then Some(name) else None,
      page,
      PageSize)
  }

  /** What the server answers to `q` for a store holding `s`. */
  function ServerAnswer(s: seq<Record>, q: RecordQuery): RecordResponse
  {
    RecordStore.Query(s, RecordStore.Filter(q.start, q.end, q.name), Some(q.page), Some(q.pageSize))
  }

  class MainViewModel {
    var records: seq<Record>
    var users: seq<string>
    var loading: bool
    var loadingMore: bool
    var meta: Meta
    var filterName: string
    var filterStart: string
    var filterEnd: string
    var currentPage: int
    var authError: bool
    /** Every `getRecords` call made, in order. */
    var requests: seq<RecordQuery>
    /** Every `createRecord` body sent, in order. */
    var created: seq<CreateRecordRequest>
    /** Every id passed to `deleteRecord`, in order. */
    var deletedIds: seq<int>

    /** The state before `init` runs; `today` and `monthAgo` are the local
        date and the date 30 days before it. */
    constructor (today: string, monthAgo: string)
      ensures records == [] && users == [] && !loading && !loadingMore
      ensures meta == Meta(0, 1, PageSize, 0)
      ensures filterName == "" && filterStart == monthAgo && filterEnd == today
      ensures currentPage == 1 && !authError
      ensures requests == [] && created == [] && deletedIds == []
    {
      records := [];
      users := [];
      loading := false;
      loadingMore := false;
      meta := Meta(0, 1, PageSize, 0);
      filterName := "";
      filterStart := monthAgo;
      filterEnd := today;
      currentPage := 1;
      authError := false;
      requests := [];
      created := [];
      deletedIds := [];
    }

    /** `clearAuthError`. */
    method ClearAuthError()
      modifies this`authError
      ensures !authError
    {
      authError := false;
    }

    /** `fetchRecords(reset)`: a reset goes back to page 1 and replaces the
        records, otherwise the page's rows are appended; a success replaces
        `meta`.  A failure leaves records and meta alone and raises
        `authError` on a 401.  Both loading flags end false. */
    method FetchRecords(reset: bool, reply: Outcome<RecordResponse>)
      modifies this
      ensures currentPage == if reset then 1 else old(currentPage)
      ensures requests == old(requests) + [QueryParams(filterName, filterStart, filterEnd, currentPage)]
      ensures reply.Success? ==>
        records == (if reset then reply.value.data else old(records) + reply.value.data)
        && meta == reply.value.meta
      ensures !reply.Success? ==> records == old(records) && meta == old(meta)
      ensures authError == (old(authError) || Unauthorized(reply))
      ensures !loading && !loadingMore
      ensures filterName == old(filterName) && filterStart == old(filterStart) && filterEnd == old(filterEnd)
      ensures users == old(users) && created == old(created) && deletedIds == old(deletedIds)
    {
      if reset {
        loading := true;
        currentPage := 1;
      } else {
        loadingMore := true;
      }
      var query := QueryParams(filterName, filterStart, filterEnd, currentPage);
      requests := requests + [query];
      Settle(reset, reply);
    }

    /** The part of `fetchRecords` after `getRecords` returns: the page's
        rows replace or extend the records and its meta replaces `meta`;
        a 401 raises `authError`; the `finally` block drops both flags. */
    method Settle(reset: bool, reply: Outcome<RecordResponse>)
      modifies this
      ensures reply.Success? ==>
        records == (if reset then reply.value.data else old(records) + reply.value.data)
        && meta == reply.value.meta
      ensures !reply.Success? ==> records == old(records) && meta == old(meta)
      ensures authError == (old(authError) || Unauthorized(reply))
      ensures !loading && !loadingMore
      ensures currentPage == old(currentPage) && requests == old(requests)
      ensures filterName == old(filterName) && filterStart == old(filterStart) && filterEnd == old(filterEnd)
      ensures users == old(users) && created == old(created) && deletedIds == old(deletedIds)
    {
      if reply.Success? {
        records := if reset then reply.value.data else records + reply.value.data;
        meta := reply.value.meta;
      } else if reply.HttpFailure? && reply.code == 401 {
        authError := true;
      }
      loading := false;
      loadingMore := false;
    }

    /** `setFilter(name, start, end)`: all three fields overwritten, then a
        reset fetch. */
    method SetFilter(name: string, start: string, end: string, reply: Outcome<RecordResponse>)
      modifies this
      ensures filterName == name && filterStart == start && filterEnd == end
      ensures currentPage == 1
      ensures requests == old(requests) + [QueryParams(name, start, end, 1)]
      ensures reply.Success? ==> records == reply.value.data && meta == reply.value.meta
      ensures !reply.Success? ==> records == old(records) && meta == old(meta)
      ensures authError == (old(authError) || Unauthorized(reply))
      ensures !loading && !loadingMore
      ensures users == old(users) && created == old(created) && deletedIds == old(deletedIds)
    {
      filterName := name;
      filterStart := start;
      filterEnd := end;
      FetchRecords(true, reply);
    }

    /** `resetFilter`: the first user (or "" when there is none), the last
        30 days, then a reset fetch. */
    method ResetFilter(today: string, monthAgo: string, reply: Outcome<RecordResponse>)
      modifies this
      ensures filterName == if |old(users)| > 0 then old(users)[0] else ""
      ensures filterStart == monthAgo && filterEnd == today
      ensures currentPage == 1
      ensures requests == old(requests) + [QueryParams(filterName, monthAgo, today, 1)]
      ensures reply.Success? ==> records == reply.value.data && meta == reply.value.meta
      ensures !reply.Success? ==> records == old(records) && meta == old(meta)
      ensures authError == (old(authError) || Unauthorized(reply))
      ensures !loading && !loadingMore
      ensures users == old(users) && created == old(created) && deletedIds == old(deletedIds)
    {
      if |users| > 0 {
        filterName := users[0];
      } else {
        filterName := "";
      }
      filterStart := monthAgo;
      filterEnd := today;
      FetchRecords(true, reply);
    }

    /** `loadMore`: nothing while either fetch is in flight or once the
        current page is the last; otherwise the page counter moves on by
        one, whatever the fetch then brings, and that page is appended. */
    method LoadMore(reply: Outcome<RecordResponse>)
      modifies this
      ensures old(loadingMore) || old(loading) || old(currentPage) >= old(meta).totalPages ==>
        currentPage == old(currentPage) && requests == old(requests)
        && records == old(records) && meta == old(meta) && authError == old(authError)
        && loading == old(loading) && loadingMore == old(loadingMore)
      ensures !(old(loadingMore) || old(loading) || old(currentPage) >= old(meta).totalPages) ==>
        currentPage == old(currentPage) + 1
        && requests == old(requests) + [QueryParams(filterName, filterStart, filterEnd, old(currentPage) + 1)]
        && records == (if reply.Success? then old(records) + reply.value.data else old(records))
        && meta == (if reply.Success? then reply.value.meta else old(meta))
        && authError == (old(authError) || Unauthorized(reply))
        && !loading && !loadingMore
      ensures filterName == old(filterName) && filterStart == old(filterStart) && filterEnd == old(filterEnd)
      ensures users == old(users) && created == old(created) && deletedIds == old(deletedIds)
    {
      if loadingMore || loading {
        return;
      }
      if currentPage >= meta.totalPages {
        return;
      }
      currentPage := currentPage + 1;
      FetchRecords(false, reply);
    }

    /** `fetchUsers`: a success replaces the user list and, when no name is
        chosen yet and the list is not empty, chooses the first name and
        refetches from page 1 (`recordsReply` is what that fetch brings). */
    method FetchUsers(reply: Outcome<seq<string>>, recordsReply: Outcome<RecordResponse>)
      modifies this
      ensures users == if reply.Success? then reply.value else old(users)
      ensures reply.Success? && old(filterName) == "" && |reply.value| > 0 ==>
        filterName == reply.value[0] && currentPage == 1
        && requests == old(requests) + [QueryParams(reply.value[0], filterStart, filterEnd, 1)]
        && records == (if recordsReply.Success? then recordsReply.value.data else old(records))
        && meta == (if recordsReply.Success? then recordsReply.value.meta else old(meta))
        && authError == (old(authError) || Unauthorized(recordsReply))
        && !loading && !loadingMore
      ensures !(reply.Success? && old(filterName) == "" && |reply.value| > 0) ==>
        filterName == old(filterName) && currentPage == old(currentPage)
        && requests == old(requests) && records == old(records) && meta == old(meta)
        && authError == (old(authError) || Unauthorized(reply))
        && loading == old(loading) && loadingMore == old(loadingMore)
      ensures filterStart == old(filterStart) && filterEnd == old(filterEnd)
      ensures created == old(created) && deletedIds == old(deletedIds)
    {
      match reply {
        case Success(userList) =>
          users := userList;
          if filterName == "" && |userList| > 0 {
            filterName := userList[0];
            FetchRecords(true, recordsReply);
          }
        case HttpFailure(code) =>
          if code == 401 {
            authError := true;
          }
        case OtherFailure =>
      }
    }

    /** `addRecord`: the body never carries a date, whatever `date` says;
        only a successful create refetches from page 1 and calls back. */
    method AddRecord(systolic: int, diastolic: int, pulse: Option<int>, name: string, date: string,
                     createReply: Outcome<Record>, recordsReply: Outcome<RecordResponse>)
      returns (calledBack: bool)
      modifies this
      ensures created == old(created) + [CreateRecordRequest(systolic, diastolic, pulse, name, None)]
      ensures calledBack <==> createReply.Success?
      ensures createReply.Success? ==>
        currentPage == 1
        && requests == old(requests) + [QueryParams(filterName, filterStart, filterEnd, 1)]
        && records == (if recordsReply.Success? then recordsReply.value.data else old(records))
        && meta == (if recordsReply.Success? then recordsReply.value.meta else old(meta))
        && authError == (old(authError) || Unauthorized(recordsReply))
        && !loading && !loadingMore
      ensures !createReply.Success? ==>
        requests == old(requests) && records == old(records) && meta == old(meta)
        && currentPage == old(currentPage)
        && authError == (old(authError) || Unauthorized(createReply))
        && loading == old(loading) && loadingMore == old(loadingMore)
      ensures filterName == old(filterName) && filterStart == old(filterStart) && filterEnd == old(filterEnd)
      ensures users == old(users) && deletedIds == old(deletedIds)
    {
      created := created + [CreateRecordRequest(systolic, diastolic, pulse, name, None)];
      match createReply {
        case Success(_) =>
          FetchRecords(true, recordsReply);
          calledBack := true;
        case HttpFailure(code) =>
          if code == 401 {
            authError := true;
          }
          calledBack := false;
        case OtherFailure =>
          calledBack := false;
      }
    }

    /** `deleteRecord(id)`: a successful delete refetches from page 1; a
        failure (a 404 for an unknown id among them) changes no records. */
    method DeleteRecord(id: int, deleteReply: Outcome<()>, recordsReply: Outcome<RecordResponse>)
      modifies this
      ensures deletedIds == old(deletedIds) + [id]
      ensures deleteReply.Success? ==>
        currentPage == 1
        && requests == old(requests) + [QueryParams(filterName, filterStart, filterEnd, 1)]
        && records == (if recordsReply.Success? then recordsReply.value.data else old(records))
        && meta == (if recordsReply.Success? then recordsReply.value.meta else old(meta))
        && authError == (old(authError) || Unauthorized(recordsReply))
        && !loading && !loadingMore
      ensures !deleteReply.Success? ==>
        requests == old(requests) && records == old(records) && meta == old(meta)
        && currentPage == old(currentPage)
        && authError == (old(authError) || Unauthorized(deleteReply))
        && loading == old(loading) && loadingMore == old(loadingMore)
      ensures filterName == old(filterName) && filterStart == old(filterStart) && filterEnd == old(filterEnd)
      ensures users == old(users) && created == old(created)
    {
      deletedIds := deletedIds + [id];
      match deleteReply {
        case Success(_) =>
          FetchRecords(true, recordsReply);
        case HttpFailure(code) =>
          if code == 401 {
            authError := true;
          }
        case OtherFailure =>
      }
    }

    /** `refreshData` (and `init`): two coroutines are launched.  The users
        request goes out and suspends; the reset fetch then builds its query
        from the name as it is NOW and suspends too.  When the users arrive
        while no name is chosen, the first one is chosen and a second reset
        fetch (answered by `defaultReply`) is sent.  The replies race:
        `resetLandsLast` says whether the first reset fetch's reply is
        settled after that second fetch's reply or before it. */
    method RefreshData(usersReply: Outcome<seq<string>>, defaultReply: Outcome<RecordResponse>,
                       recordsReply: Outcome<RecordResponse>, resetLandsLast: bool)
      modifies this
      ensures users == if usersReply.Success? then usersReply.value else old(users)
      ensures var chose := usersReply.Success? && old(filterName) == "" && |usersReply.value| > 0;
        filterName == (if chose then usersReply.value[0] else old(filterName))
        && requests == old(requests) + [QueryParams(old(filterName), filterStart, filterEnd, 1)]
                       + (if chose then [QueryParams(usersReply.value[0], filterStart, filterEnd, 1)] else [])
        && records == (if chose && resetLandsLast then
                         (if recordsReply.Success? then recordsReply.value.data
                          else if defaultReply.Success? then defaultReply.value.data else old(records))
                       else if chose then
                         (if defaultReply.Success? then defaultReply.value.data
                          else if recordsReply.Success? then recordsReply.value.data else old(records))
                       else if recordsReply.Success? then recordsReply.value.data else old(records))
        && meta == (if chose && resetLandsLast then
                      (if recordsReply.Success? then recordsReply.value.meta
                       else if defaultReply.Success? then defaultReply.value.meta else old(meta))
                    else if chose then
                      (if defaultReply.Success? then defaultReply.value.meta
                       else if recordsReply.Success? then recordsReply.value.meta else old(meta))
                    else if recordsReply.Success? then recordsReply.value.meta else old(meta))
        && authError == (old(authError) || Unauthorized(usersReply) || Unauthorized(recordsReply)
                         || (chose && Unauthorized(defaultReply)))
      ensures currentPage == 1
      ensures !loading && !loadingMore
      ensures filterStart == old(filterStart) && filterEnd == old(filterEnd)
      ensures created == old(created) && deletedIds == old(deletedIds)
    {
      loading := true;
      currentPage := 1;
      requests := requests + [QueryParams(filterName, filterStart, filterEnd, currentPage)];
      if resetLandsLast {
        FetchUsers(usersReply, defaultReply);
        Settle(true, recordsReply);
      } else {
        Settle(true, recordsReply);
        FetchUsers(usersReply, defaultReply);
      }
    }
  }

  // ---------------------------------------------------------------------
  // Against the server
  // ---------------------------------------------------------------------

  /** The record list after a reset fetch and `k - 1` successful
      `loadMore` calls, each answered by the server for a store holding `s`. */
  function Loaded(s: seq<Record>, name: string, start: string, end: string, k: nat): seq<Record>
    requires k >= 1
  {
    var page := ServerAnswer(s, QueryParams(name, start, end, k)).data;
    if k == 1 then page else Loaded(s, name, start, end, k - 1) + page
  }

  /** The rows the filter selects, latest first. */
  function Listed(s: seq<Record>, name: string, start: string, end: string): seq<Record>
  {
    var q := QueryParams(name, start, end, 1);
    RecordStore.SortByDate(RecordStore.Matching(s, RecordStore.Filter(q.start, q.end, q.name)))
  }

  /** After `k` fetches the list holds exactly pages 1..k of the server's
      ordering. */
  lemma {:induction false} LoadedIsFirstPages(s: seq<Record>, name: string, start: string, end: string, k: nat)
    requires k >= 1
    ensures Loaded(s, name, start, end, k) == RecordStore.Pages(Listed(s, name, start, end), PageSize, k)
  {
    AnswerIsPage(s, name, start, end, k);
    if k > 1 {
      LoadedIsFirstPages(s, name, start, end, k - 1);
    }
  }

  /** The server's answer to the request for page `k` is page `k` of the
      listing: the filter does not change from page to page. */
  lemma AnswerIsPage(s: seq<Record>, name: string, start: string, end: string, k: nat)
    requires k >= 1
    ensures ServerAnswer(s, QueryParams(name, start, end, k)).data
         == RecordStore.PageSlice(Listed(s, name, start, end), k, PageSize)
  {
  }

  /** `loadMore`'s stop test is right: with the server's meta for page `k`,
      `currentPage >= totalPages` holds exactly when every matching record
      has been loaded. */
  lemma LoadMoreStopsWhenAllLoaded(s: seq<Record>, name: string, start: string, end: string, k: nat)
    requires k >= 1
    ensures var m := ServerAnswer(s, QueryParams(name, start, end, k)).meta;
      k >= m.totalPages <==> Loaded(s, name, start, end, k) == Listed(s, name, start, end)
  {
    var rows := Listed(s, name, start, end);
    LoadedIsFirstPages(s, name, start, end, k);
    RecordStore.PagesArePrefix(rows, PageSize, k);
    RecordStore.MorePagesIffRowsBeyond(|rows|, k, PageSize);
  }

  /** The JSON Gson writes for a create body: null fields are omitted. */
  function CreateBody(r: CreateRecordRequest): RecordStore.Body
  {
    var fields := map["systolic" := RecordStore.JInt(r.systolic),
                      "diastolic" := RecordStore.JInt(r.diastolic),
                      "name" := RecordStore.JString(r.name)];
    var withPulse := if r.pulse.Some? then fields["pulse" := RecordStore.JInt(r.pulse.value)] else fields;
    RecordStore.Object(if r.date.Some? then withPulse["date" := RecordStore.JString(r.date.value)] else withPulse)
  }

  /** Every body `addRecord` sends is accepted, and the stored reading has
      the server's id and clock with the fields as sent (Kotlin `Int`s are
      32-bit). */
  lemma AddRecordBodyAccepted(systolic: int, diastolic: int, pulse: Option<int>, name: string, now: string, id: int)
    requires RecordStore.Int32Min <= systolic <= RecordStore.Int32Max
    requires RecordStore.Int32Min <= diastolic <= RecordStore.Int32Max
    requires pulse.Some? ==> RecordStore.Int32Min <= pulse.value <= RecordStore.Int32Max
    ensures RecordStore.CreateReply(CreateBody(CreateRecordRequest(systolic, diastolic, pulse, name, None)), now, id)
         == RecordStore.Created(Record(id, now, systolic, diastolic, pulse, Some(name)))
  {
    var body := CreateBody(CreateRecordRequest(systolic, diastolic, pulse, name, None));
    assert "pulse" != "systolic" && "pulse" != "diastolic" && "pulse" != "name";
    var out := RecordStore.CreateReply(body, now, id);
    assert out.Created?;
  }
}
