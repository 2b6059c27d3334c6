/** The server's record store and its three record endpoints: list with
    filter and paging, create, delete; and the configured user list.
    The SQLite table is a sequence of rows plus the AUTOINCREMENT counter. */
module RecordStore {

  import opened Models
  import opened Strings

  const DefaultPageSize: int := 20
  const MaxPageSize: int := 200
  const Int32Min: int := -0x8000_0000
  const Int32Max: int := 0x7FFF_FFFF

  // ---------------------------------------------------------------------
  // Paging parameters
  // ---------------------------------------------------------------------

  /** The effective page: a positive `page` is kept, anything else is 1. */
  function ClampPage(page: Option<int>): (p: int)
    ensures p >= 1
    ensures page.Some? && page.value > 0 ==> p == page.value
    ensures !(page.Some? && page.value > 0) ==> p == 1
  {
    if page.Some? && page.value > 0 then page.value else 1
  }

  /** The effective page size, always within [1, 200]: a positive request
      is capped at 200, anything else is the default 20. */
  function ClampPageSize(pageSize: Option<int>): (ps: int)
    ensures 1 <= ps <= MaxPageSize
    ensures pageSize.Some? && pageSize.value > 0 ==> ps == Min(pageSize.value, MaxPageSize)
    ensures !(pageSize.Some? && pageSize.value > 0) ==> ps == DefaultPageSize
  {
    if pageSize.Some? && pageSize.value > 0 then Min(pageSize.value, MaxPageSize) else DefaultPageSize
  }

  /** The number of pages of size `ps` that `total` rows fill: the least `n`
      with `n * ps >= total`, so 0 when there are no rows. */
  function CeilDiv(total: nat, ps: int): (n: nat)
    requires ps >= 1
    ensures n * ps >= total
    ensures n > 0 ==> (n - 1) * ps < total
    ensures n == 0 <==> total == 0
  {
    var q := (total + ps - 1) / ps;
    var rem := (total + ps - 1) % ps;
    assert total + ps - 1 == q * ps + rem && 0 <= rem < ps;
    assert q * ps == total + ps - 1 - rem;
    assert (q - 1) * ps == q * ps - ps;
    q
  }

  // ---------------------------------------------------------------------
  // The filter
  // ---------------------------------------------------------------------

  /** The query-string filter; an absent or empty value imposes nothing. */
  datatype Filter = Filter(start: Option<string>, end: Option<string>, name: Option<string>)

  /** `!string.IsNullOrEmpty(v)`: the parameter takes part in the WHERE clause. */
  predicate Given(v: Option<string>)
  {
    v.Some? && v.value != ""
  }

  /** The WHERE clause: inclusive string bounds on `date` and an exact
      `name`.  A NULL name never equals a given name. */
  predicate Matches(f: Filter, r: Record)
  {
    (Given(f.start) ==> LexLe(f.start.value, r.date))
    && (Given(f.end) ==> LexLe(r.date, f.end.value))
    && (Given(f.name) ==> r.name == Some(f.name.value))
  }

  /** The matching rows, in table order. */
  function Matching(s: seq<Record>, f: Filter): (r: seq<Record>)
    ensures forall x :: x in r <==> x in s && Matches(f, x)
    ensures |r| <= |s|
  {
    if s == [] then []
    else (if Matches(f, s[0]) then [s[0]] else []) + Matching(s[1..], f)
  }

  /** With every parameter absent or empty, every row matches. */
  lemma {:induction false} MatchingNoFilter(s: seq<Record>, f: Filter)
    requires !Given(f.start) && !Given(f.end) && !Given(f.name)
    ensures Matching(s, f) == s
  {
    if s != [] {
      MatchingNoFilter(s[1..], f);
    }
  }

  /** Rows that all match are all selected. */
  lemma {:induction false} MatchingAll(s: seq<Record>, f: Filter)
    requires forall x :: x in s ==> Matches(f, x)
    ensures Matching(s, f) == s
  {
    if s != [] {
      assert s == [s[0]] + s[1..];
      MatchingAll(s[1..], f);
    }
  }

  /** Rows none of which match are none of them selected. */
  lemma {:induction false} MatchingNone(s: seq<Record>, f: Filter)
    requires forall x :: x in s ==> !Matches(f, x)
    ensures Matching(s, f) == []
  {
    if s != [] {
      MatchingNone(s[1..], f);
    }
  }

  /** The WHERE clause selects from two runs of rows separately. */
  lemma {:induction false} MatchingConcat(a: seq<Record>, b: seq<Record>, f: Filter)
    ensures Matching(a + b, f) == Matching(a, f) + Matching(b, f)
  {
    if a != [] {
      assert (a + b)[1..] == a[1..] + b;
      MatchingConcat(a[1..], b, f);
    } else {
      assert a + b == b;
    }
  }

  // ---------------------------------------------------------------------
  // ORDER BY date DESC
  // ---------------------------------------------------------------------

  predicate DateDescending(s: seq<Record>)
  {
    forall i, j :: 0 <= i < j < |s| ==> LexLe(s[j].date, s[i].date)
  }

  /** Insert `x` before the first row whose date is not after it. */
  function InsertByDate(x: Record, s: seq<Record>): (r: seq<Record>)
    ensures |r| == |s| + 1
    ensures multiset(r) == multiset(s) + multiset{x}
  {
    if s == [] then [x]
    else if LexLe(s[0].date, x.date) then [x] + s
    else
      assert s == [s[0]] + s[1..];
      [s[0]] + InsertByDate(x, s[1..])
  }

  lemma {:induction false} InsertByDateDescending(x: Record, s: seq<Record>)
    requires DateDescending(s)
    ensures DateDescending(InsertByDate(x, s))
  {
    if s == [] {
    } else if LexLe(s[0].date, x.date) {
      var r := [x] + s;
      forall i, j | 0 <= i < j < |r| ensures LexLe(r[j].date, r[i].date) {
        if i == 0 && j > 1 {
          LexLeTransitive(s[j - 1].date, s[0].date, x.date);
        }
      }
    } else {
      LexLeTotal(s[0].date, x.date);
      InsertByDateDescending(x, s[1..]);
      var t := InsertByDate(x, s[1..]);
      var r := [s[0]] + t;
      forall i, j | 0 <= i < j < |r| ensures LexLe(r[j].date, r[i].date) {
        if i == 0 {
          var y := t[j - 1];
          assert y in multiset(t);
          if y != x {
            assert y in multiset(s[1..]);
            var k :| 0 <= k < |s[1..]| && s[1..][k] == y;
            assert s[k + 1] == y;
          }
        }
      }
    }
  }

  /** The rows by date, latest first; rows with equal dates keep table order
      (a choice of this model: SQLite leaves their order unspecified). */
  function SortByDate(s: seq<Record>): (r: seq<Record>)
    ensures multiset(r) == multiset(s)
    ensures |r| == |s|
    ensures DateDescending(r)
  {
    if s == [] then []
    else
      var t := SortByDate(s[1..]);
      InsertByDateDescending(s[0], t);
      assert s == [s[0]] + s[1..];
      InsertByDate(s[0], t)
  }

  /** Rows already latest first come out of the sort unchanged. */
  lemma {:induction false} SortedIsFixed(s: seq<Record>)
    requires DateDescending(s)
    ensures SortByDate(s) == s
  {
    if s != [] {
      assert DateDescending(s[1..]) by {
        forall i, j | 0 <= i < j < |s[1..]| ensures LexLe(s[1..][j].date, s[1..][i].date) {
          assert s[1..][j] == s[j + 1] && s[1..][i] == s[i + 1];
        }
      }
      SortedIsFixed(s[1..]);
      assert s == [s[0]] + s[1..];
      if |s| > 1 {
        assert LexLe(s[1].date, s[0].date);
      }
    }
  }

  /** The rows after a latest-first prefix are latest first too. */
  lemma DescendingSuffix(a: seq<Record>, b: seq<Record>)
    requires DateDescending(a + b)
    ensures DateDescending(b)
  {
    forall i, j | 0 <= i < j < |b| ensures LexLe(b[j].date, b[i].date) {
      assert b[j] == (a + b)[|a| + j] && b[i] == (a + b)[|a| + i];
    }
  }

  // ---------------------------------------------------------------------
  // LIMIT / OFFSET
  // ---------------------------------------------------------------------

  /** At most `count` rows of `rows` from `offset` on; none when the offset
      is at or past the end. */
  function Slice(rows: seq<Record>, offset: nat, count: nat): (r: seq<Record>)
    ensures |r| <= count
    ensures offset >= |rows| ==> r == []
    ensures offset < |rows| ==> |r| == Min(count, |rows| - offset)
    ensures forall k :: 0 <= k < |r| ==> r[k] == rows[offset + k]
    ensures DateDescending(rows) ==> DateDescending(r)
  {
    if offset >= |rows| then [] else rows[offset..Min(offset + count, |rows|)]
  }

  /** The first row of page `p` when pages hold `ps` rows. */
  function Offset(p: int, ps: int): (o: nat)
    requires p >= 1 && ps >= 1
    ensures o == (p - 1) * ps
  {
    MulNonNegative(p - 1, ps);
    (p - 1) * ps
  }

  lemma MulNonNegative(a: int, b: int)
    requires a >= 0 && b >= 0
    ensures a * b >= 0
  {
  }

  lemma MulMonotone(a: int, b: int, c: int)
    requires a >= b && c >= 0
    ensures a * c >= b * c
  {
  }

  lemma NextOffset(p: int, ps: int)
    requires p >= 1 && ps >= 1
    ensures p * ps == (p - 1) * ps + ps
  {
  }

  /** Page `p` of size `ps` (LIMIT ps OFFSET (p - 1) * ps). */
  function PageSlice(rows: seq<Record>, p: int, ps: int): (r: seq<Record>)
    requires p >= 1 && ps >= 1
    ensures |r| <= ps
    ensures Offset(p, ps) >= |rows| ==> r == []
    ensures Offset(p, ps) < |rows| ==> |r| == Min(ps, |rows| - Offset(p, ps))
    ensures forall k :: 0 <= k < |r| ==> r[k] == rows[Offset(p, ps) + k]
    ensures DateDescending(rows) ==> DateDescending(r)
  {
    Slice(rows, Offset(p, ps), ps)
  }

  /** A page is empty exactly when its first row lies past the last row:
      every page number up to `totalPages` has rows, every later one none. */
  lemma PageSliceEmptyIffPastEnd(rows: seq<Record>, p: int, ps: int)
    requires p >= 1 && ps >= 1
    ensures PageSlice(rows, p, ps) == [] <==> (p - 1) * ps >= |rows|
    ensures PageSlice(rows, p, ps) == [] <==> p > CeilDiv(|rows|, ps)
  {
    var n := CeilDiv(|rows|, ps);
    if p > n {
      MulMonotone(p - 1, n, ps);
    } else {
      MulMonotone(n - 1, p - 1, ps);
    }
  }

  /** The body of GET /api/records. */
  function Query(s: seq<Record>, f: Filter, page: Option<int>, pageSize: Option<int>): (resp: RecordResponse)
    ensures resp.meta.page == ClampPage(page) && resp.meta.pageSize == ClampPageSize(pageSize)
    ensures resp.meta.total == |Matching(s, f)|
    ensures resp.meta.totalPages == CeilDiv(resp.meta.total, resp.meta.pageSize)
    ensures |resp.data| <= resp.meta.pageSize
    ensures DateDescending(resp.data)
    ensures forall x :: x in resp.data ==> x in s && Matches(f, x)
    ensures resp.data == PageSlice(SortByDate(Matching(s, f)), resp.meta.page, resp.meta.pageSize)
  {
    var p := ClampPage(page);
    var ps := ClampPageSize(pageSize);
    var matching := Matching(s, f);
    var rows := SortByDate(matching);
    var data := PageSlice(rows, p, ps);
    assert forall x :: x in data ==> x in multiset(rows);
    RecordResponse(data, Meta(|matching|, p, ps, CeilDiv(|matching|, ps)))
  }

  /** A page past the last one is empty, not an error, and still reports
      the clamped page it was asked for. */
  lemma PastLastPageIsEmpty(s: seq<Record>, f: Filter, page: int, pageSize: Option<int>)
    requires page > Query(s, f, Some(page), pageSize).meta.totalPages
    ensures Query(s, f, Some(page), pageSize).data == []
    ensures Query(s, f, Some(page), pageSize).meta.page == page
  {
    var resp := Query(s, f, Some(page), pageSize);
    var ps := resp.meta.pageSize;
    var n := resp.meta.totalPages;
    MulMonotone(page - 1, n, ps);
  }

  /** There is a later page exactly when rows remain past this one: the
      clients' `page < totalPages` test asks the right question. */
  lemma {:induction false} MorePagesIffRowsBeyond(total: nat, p: int, ps: int)
    requires p >= 1 && ps >= 1
    ensures p < CeilDiv(total, ps) <==> p * ps < total
  {
    var n := CeilDiv(total, ps);
    if p < n {
      MulMonotone(n - 1, p, ps);
    } else {
      MulMonotone(p, n, ps);
    }
  }

  // ---------------------------------------------------------------------
  // Fetching every page in turn
  // ---------------------------------------------------------------------

  /** The rows of pages 1..k of `rows`, concatenated. */
  function Pages(rows: seq<Record>, ps: int, k: nat): seq<Record>
    requires ps >= 1
  {
    if k == 0 then [] else Pages(rows, ps, k - 1) + PageSlice(rows, k, ps)
  }

  lemma {:induction false} PagesArePrefix(rows: seq<Record>, ps: int, k: nat)
    requires ps >= 1
    ensures Pages(rows, ps, k) == rows[..Min(k * ps, |rows|)]
  {
    if k > 0 {
      PagesArePrefix(rows, ps, k - 1);
      var a := Offset(k, ps);
      NextOffset(k, ps);
      var lo := Min(a, |rows|);
      var hi := Min(a + ps, |rows|);
      PageSliceIsSubrange(rows, k, ps);
      assert rows[..hi] == rows[..lo] + rows[lo..hi];
    }
  }

  /** Page `p` is the run of rows between its offset and the next page's,
      both cut at the end of the rows. */
  lemma PageSliceIsSubrange(rows: seq<Record>, p: int, ps: int)
    requires p >= 1 && ps >= 1
    ensures PageSlice(rows, p, ps)
      == rows[Min(Offset(p, ps), |rows|)..Min(Offset(p, ps) + ps, |rows|)]
  {
    var r := PageSlice(rows, p, ps);
    var lo := Min(Offset(p, ps), |rows|);
    var hi := Min(Offset(p, ps) + ps, |rows|);
    assert |r| == hi - lo;
    assert forall k :: 0 <= k < |r| ==> r[k] == rows[lo..hi][k];
  }

  /** Fetching pages 1..totalPages one after another, with no writes in
      between, yields every matching row exactly once, in list order; the
      number of rows fetched is `total`. */
  lemma SequentialPagesCoverAll(s: seq<Record>, f: Filter, pageSize: Option<int>)
    ensures var meta := Query(s, f, None, pageSize).meta;
      Pages(SortByDate(Matching(s, f)), meta.pageSize, meta.totalPages) == SortByDate(Matching(s, f))
      && |Pages(SortByDate(Matching(s, f)), meta.pageSize, meta.totalPages)| == meta.total
  {
    var meta := Query(s, f, None, pageSize).meta;
    var rows := SortByDate(Matching(s, f));
    PagesArePrefix(rows, meta.pageSize, meta.totalPages);
    assert Min(meta.totalPages * meta.pageSize, |rows|) == |rows|;
  }

  // ---------------------------------------------------------------------
  // Page numbers past 10737419: the offset is 32-bit arithmetic
  // ---------------------------------------------------------------------

  /** C#'s unchecked `int` arithmetic: `x` reduced into [-2^31, 2^31). */
  function WrapInt32(x: int): (r: int)
    ensures Int32Min <= r <= Int32Max
    ensures (x - r) % 0x1_0000_0000 == 0
    ensures Int32Min <= x <= Int32Max ==> r == x
  {
    (x - Int32Min) % 0x1_0000_0000 + Int32Min
  }

  /** SQLite reads a negative OFFSET as zero. */
  function SqliteOffset(o: int): nat
  {
    if o < 0 then 0 else o
  }

  /** The offset of page `p` fits in a 32-bit `int`. */
  predicate OffsetFits(p: int, ps: int)
  {
    (p - 1) * ps <= Int32Max
  }

  /** The OFFSET SQLite receives: `(p - 1) * ps` in 32-bit arithmetic,
      then a negative value read as zero. */
  function WrappedOffset(p: int, ps: int): (o: nat)
    requires 1 <= p <= Int32Max && 1 <= ps <= MaxPageSize
    ensures OffsetFits(p, ps) ==> o == (p - 1) * ps
  {
    MulNonNegative(p - 1, ps);
    SqliteOffset(WrapInt32((p - 1) * ps))
  }

  /** The page the handler actually selects: `(p - 1) * ps` is evaluated in
      32-bit `int` before it reaches SQLite. */
  function PageSliceAsWritten(rows: seq<Record>, p: int, ps: int): (r: seq<Record>)
    requires 1 <= p <= Int32Max && 1 <= ps <= MaxPageSize
    ensures |r| <= ps
    ensures forall x :: x in r ==> x in rows
    ensures DateDescending(rows) ==> DateDescending(r)
  {
    var r := Slice(rows, WrappedOffset(p, ps), ps);
    assert forall k :: 0 <= k < |r| ==> r[k] in rows;
    r
  }

  /** Up to page 10737419 the 32-bit offset is exact and the as-written
      slice is the page the rest of this model uses. */
  lemma AsWrittenAgreesForSmallPages(rows: seq<Record>, p: int, ps: int)
    requires 1 <= p <= Int32Max && 1 <= ps <= MaxPageSize && OffsetFits(p, ps)
    ensures PageSliceAsWritten(rows, p, ps) == PageSlice(rows, p, ps)
  {
  }

  /** Page 10737420 of size 200 lies far past the end of any realistic
      table, yet the wrapped offset is negative, SQLite reads it as 0, and
      the handler returns the FIRST page's rows instead of none. */
  lemma FarPageReturnsFirstPage(rows: seq<Record>)
    requires 0 < |rows| <= 2_000_000_000
    ensures PageSliceAsWritten(rows, 10737420, 200) == PageSlice(rows, 1, 200)
    ensures PageSliceAsWritten(rows, 10737420, 200) != []
    ensures PageSlice(rows, 10737420, 200) == []
  {
    assert (10737420 - 1) * 200 == 2147483800;
    assert WrapInt32(2147483800) == -2147483496;
  }

  // ---------------------------------------------------------------------
  // POST /api/records
  // ---------------------------------------------------------------------

  /** A JSON value as `System.Text.Json` sees it; `JInt` is an integral
      number, `JOther` anything else (decimals, booleans, arrays, objects). */
  datatype Json = JInt(n: int) | JString(s: string) | JNull | JOther

  /** The request body: a JSON object, or some other root value. */
  datatype Body = Object(fields: map<string, Json>) | NotObject

  const PressureRequired: string := "收缩压和舒张压为必填项"
  const NameRequired: string := "姓名为必填项"
  const Deleted: string := "删除成功"
  const NoSuchRecord: string := "记录不存在"

  /** 400 with an error message, 500 from an exception, or the stored row. */
  datatype CreateOutcome = BadRequest(error: string) | ServerFault | Created(record: Record)

  /** `JsonElement.GetInt32`: an integral number within 32 bits, else it throws. */
  function GetInt32(v: Json): Option<int>
  {
    if v.JInt? && Int32Min <= v.n <= Int32Max then Some(v.n) else None
  }

  predicate IsInt32(v: Json)
  {
    GetInt32(v).Some?
  }

  /** What POST /api/records answers for `body` when the clock reads `now`
      and the next AUTOINCREMENT id is `id`. */
  function CreateReply(body: Body, now: string, id: int): (out: CreateOutcome)
    ensures body.NotObject? ==> out == ServerFault
    ensures body.Object? && ("systolic" !in body.fields || "diastolic" !in body.fields)
            ==> out == BadRequest(PressureRequired)
    ensures body.Object? && "systolic" in body.fields && "diastolic" in body.fields
            && ("name" !in body.fields || !body.fields["name"].JString?)
            ==> out == BadRequest(NameRequired)
    ensures out.Created? <==>
            body.Object? && "systolic" in body.fields && "diastolic" in body.fields
            && "name" in body.fields && body.fields["name"].JString?
            && IsInt32(body.fields["systolic"]) && IsInt32(body.fields["diastolic"])
            && ("pulse" in body.fields && body.fields["pulse"] != JNull ==> IsInt32(body.fields["pulse"]))
    ensures out.Created? ==>
            body.Object? && "systolic" in body.fields && "diastolic" in body.fields && "name" in body.fields
            && out.record.id == id && out.record.date == now
            && body.fields["systolic"] == JInt(out.record.systolic)
            && body.fields["diastolic"] == JInt(out.record.diastolic)
            && body.fields["name"] == JString(out.record.name.GetOr(""))
            && out.record.name.Some?
            && (out.record.pulse.None? <==> "pulse" !in body.fields || body.fields["pulse"] == JNull)
            && (out.record.pulse.Some? ==> "pulse" in body.fields && body.fields["pulse"] == JInt(out.record.pulse.value))
  {
    match body
    case NotObject => ServerFault
    case Object(fields) =>
      if "systolic" !in fields || "diastolic" !in fields then BadRequest(PressureRequired)
      else if "name" !in fields || !fields["name"].JString? then BadRequest(NameRequired)
      else
        var pulse := if "pulse" in fields && fields["pulse"] != JNull then GetInt32(fields["pulse"]) else Some(0);
        var sys := GetInt32(fields["systolic"]);
        var dia := GetInt32(fields["diastolic"]);
        if pulse.None? || sys.None? || dia.None? then ServerFault
        else
          var stored := if "pulse" in fields && fields["pulse"] != JNull then Some(pulse.value) else None;
          Created(Record(id, now, sys.value, dia.value, stored, Some(fields["name"].s)))
  }

  /** Whatever `date` the body carries, the reply is the same: the stored
      date is always the server's clock. */
  lemma CreateIgnoresDate(fields: map<string, Json>, date: Json, now: string, id: int)
    ensures CreateReply(Object(fields[("date") := date]), now, id)
         == CreateReply(Object(fields - {"date"}), now, id)
  {
    var a := fields[("date") := date];
    var b := fields - {"date"};
    assert forall k :: k != "date" ==> (k in a <==> k in b) && (k in a ==> a[k] == b[k]);
    assert "systolic" != "date" && "diastolic" != "date" && "name" != "date" && "pulse" != "date";
  }

  // ---------------------------------------------------------------------
  // The table
  // ---------------------------------------------------------------------

  datatype DeleteOutcome = Removed(message: string) | NotFound(error: string)

  /** Rows read one by one from `offset` until `count` were read or the
      rows ran out are the LIMIT/OFFSET slice. */
  lemma ReadRowsAreSlice(rows: seq<Record>, offset: nat, count: nat, list: seq<Record>)
    requires |list| <= count
    requires |list| > 0 ==> offset + |list| <= |rows|
    requires |list| == count || offset + |list| >= |rows|
    requires forall k :: 0 <= k < |list| ==> list[k] == rows[offset + k]
    ensures list == Slice(rows, offset, count)
  {
    var expected := Slice(rows, offset, count);
    assert |list| == |expected|;
  }

  /** The data-reader loop: rows are read one by one from `offset` until
      `count` were read or the rows run out. */
  method ReadRows(rows: seq<Record>, offset: nat, count: nat) returns (list: seq<Record>)
    ensures list == Slice(rows, offset, count)
  {
    list := [];
    var i := 0;
    while i < count && offset + i < |rows|
      invariant 0 <= i <= count
      invariant |list| == i
      invariant i > 0 ==> offset + i <= |rows|
      invariant forall k :: 0 <= k < i ==> list[k] == rows[offset + k]
    {
      list := list + [rows[offset + i]];
      i := i + 1;
    }
    ReadRowsAreSlice(rows, offset, count, list);
  }

  class Store {
    /** The rows of `records`, in insertion order. */
    var records: seq<Record>
    /** The AUTOINCREMENT counter: the largest id ever handed out. */
    var lastId: int
    /** The `Users` list from configuration. */
    const users: seq<string>

    ghost predicate Valid()
      reads this
    {
      lastId >= 0
      && IdsIncreasing(records)
      && (forall r :: r in records ==> 0 < r.id <= lastId)
    }

    constructor (users: seq<string>)
      ensures Valid()
      ensures records == [] && lastId == 0 && this.users == users
    {
      records := [];
      lastId := 0;
      this.users := users;
    }

    /** GET /api/records: clamp, count, then read the selected rows one by
        one as the data reader yields them.  The offset is computed as the
        handler computes it, in 32-bit arithmetic; while it fits, the reply
        is the intended `Query`.  The parameters are C# `int?`, so ASP.NET
        binds only 32-bit values. */
    method List(f: Filter, page: Option<int>, pageSize: Option<int>) returns (resp: RecordResponse)
      requires page.Some? ==> Int32Min <= page.value <= Int32Max
      requires pageSize.Some? ==> Int32Min <= pageSize.value <= Int32Max
      ensures resp.meta == Query(records, f, page, pageSize).meta
      ensures resp.data == PageSliceAsWritten(SortByDate(Matching(records, f)), resp.meta.page, resp.meta.pageSize)
      ensures OffsetFits(resp.meta.page, resp.meta.pageSize) ==> resp == Query(records, f, page, pageSize)
    {
      var p := ClampPage(page);
      var ps := ClampPageSize(pageSize);
      var matching := Matching(records, f);
      var total := |matching|;
      var rows := SortByDate(matching);
      var list := ReadRows(rows, WrappedOffset(p, ps), ps);
      resp := RecordResponse(list, Meta(total, p, ps, CeilDiv(total, ps)));
      var q := Query(records, f, page, pageSize);
      assert resp.meta == q.meta;
      if OffsetFits(p, ps) {
        AsWrittenAgreesForSmallPages(rows, p, ps);
        assert resp.data == q.data;
      }
    }

    /** POST /api/records: validate, then insert with a fresh id and the
        server's clock as `date`. */
    method Create(body: Body, now: string) returns (out: CreateOutcome)
      requires Valid()
      modifies this
      ensures Valid()
      ensures out == CreateReply(body, now, old(lastId) + 1)
      ensures out.Created? ==> records == old(records) + [out.record] && lastId == out.record.id
      ensures !out.Created? ==> records == old(records) && lastId == old(lastId)
    {
      out := CreateReply(body, now, lastId + 1);
      if out.Created? {
        records := records + [out.record];
        lastId := lastId + 1;
      }
    }

    /** DELETE /api/records/{id}. */
    method Delete(id: int) returns (out: DeleteOutcome)
      requires Valid()
      modifies this
      ensures Valid() && lastId == old(lastId)
      ensures out.Removed? <==> exists r :: r in old(records) && r.id == id
      ensures out == if out.Removed? then Removed(Deleted) else NotFound(NoSuchRecord)
      ensures records == WithoutId(old(records), id)
    {
      var before := records;
      WithoutIdKeepsOrder(records, id);
      records := WithoutId(records, id);
      if |records| < |before| {
        out := Removed(Deleted);
      } else {
        assert records == before by {
          assert forall x :: x in before ==> x.id != id by {
            if exists x :: x in before && x.id == id {
              WithoutIdRemovesOne(before, id);
            }
          }
        }
        out := NotFound(NoSuchRecord);
      }
    }

    /** GET /api/users: the configured names, verbatim. */
    method Users() returns (names: seq<string>)
      ensures names == users
    {
      names := users;
    }
  }

  /** A second delete of the same id finds nothing and changes nothing. */
  lemma DeleteTwice(s: seq<Record>, id: int)
    ensures !exists r :: r in WithoutId(s, id) && r.id == id
    ensures WithoutId(WithoutId(s, id), id) == WithoutId(s, id)
  {
  }

  // ---------------------------------------------------------------------
  // Scenarios
  // ---------------------------------------------------------------------

  /** An empty table lists no rows, with total 0, page 1, size 20 and 0 pages. */
  lemma EmptyStoreScenario(f: Filter)
    ensures Query([], f, None, None) == RecordResponse([], Meta(0, 1, 20, 0))
  {
  }

  /** With 25 rows and no filter, page 2 of size 20 holds the last 5. */
  lemma TwentyFiveRowsScenario(s: seq<Record>)
    requires |s| == 25
    ensures |Query(s, Filter(None, None, None), Some(2), Some(20)).data| == 5
    ensures Query(s, Filter(None, None, None), Some(2), Some(20)).meta.totalPages == 2
  {
    var f := Filter(None, None, None);
    MatchingNoFilter(s, f);
    var rows := SortByDate(Matching(s, f));
    assert |rows| == 25;
    assert CeilDiv(25, 20) == 2;
    var resp := Query(s, f, Some(2), Some(20));
    assert resp.meta.page == 2 && resp.meta.pageSize == 20;
    assert resp.data == Slice(rows, 20, 20);
  }

  /** January's bounds, as the clients send them, exclude a row stamped at
      the first instant of February. */
  lemma JanuaryFilterScenario(r: Record)
    requires r.date == "2024-02-01T00:00:00.000Z"
    ensures !Matches(Filter(Some("2024-01-01T00:00:00.000Z"), Some("2024-01-31T23:59:59.999Z"), None), r)
  {
    LexLeFirstDifference(r.date, "2024-01-31T23:59:59.999Z", 6);
  }

  /** Stored dates have seven fractional digits, bounds three.  A row
      stamped within the first millisecond of the start day, for instance
      at exactly midnight, compares below the start bound and is left out,
      although its instant is not before it. */
  lemma FirstMillisecondBelowStart(day: string, fraction: string)
    requires |fraction| == 4 && AllDigits(fraction)
    ensures !LexLe(day + "T00:00:00.000Z", day + "T00:00:00.000" + fraction + "Z")
  {
    LexLeCommonPrefix(day + "T00:00:00.000", "Z", fraction + "Z");
    assert day + "T00:00:00.000Z" == (day + "T00:00:00.000") + "Z";
    assert day + "T00:00:00.000" + fraction + "Z" == (day + "T00:00:00.000") + (fraction + "Z");
    assert IsDigit(fraction[0]);
  }

  /** A new reading whose clock reading sorts after every stored date is
      the first row of page 1 of a list filtered by its own name. */
  lemma CreatedThenListedFirst(s: seq<Record>, fields: map<string, Json>, now: string, id: int)
    requires CreateReply(Object(fields), now, id).Created?
    requires forall x :: x in s ==> LexLt(x.date, now)
    ensures var rec := CreateReply(Object(fields), now, id).record;
      var resp := Query(s + [rec], Filter(None, None, rec.name), Some(1), None);
      |resp.data| >= 1 && resp.data[0] == rec
  {
    var rec := CreateReply(Object(fields), now, id).record;
    var f := Filter(None, None, rec.name);
    var all := s + [rec];
    var m := Matching(all, f);
    assert rec in all && Matches(f, rec);
    forall x | x in m && x != rec ensures LexLt(x.date, rec.date) {
      assert x in s;
    }
    LatestIsFirst(m, rec);
    var rows := SortByDate(m);
    var resp := Query(all, f, Some(1), None);
    assert resp.meta.page == 1 && resp.meta.pageSize == 20;
    assert resp.data == Slice(rows, 0, 20);
  }

  /** A row dated after every other comes first in the date order. */
  lemma LatestIsFirst(m: seq<Record>, rec: Record)
    requires rec in m
    requires forall x :: x in m && x != rec ==> LexLt(x.date, rec.date)
    ensures |SortByDate(m)| >= 1 && SortByDate(m)[0] == rec
  {
    var rows := SortByDate(m);
    assert rec in multiset(rows);
    var k :| 0 <= k < |rows| && rows[k] == rec;
    if k > 0 {
      var y := rows[0];
      assert y in multiset(rows);
      if y != rec {
        assert LexLe(rec.date, y.date);
        LexLeAntisymmetric(rec.date, y.date);
        assert false;
      }
    }
  }
}
