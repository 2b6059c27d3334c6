# HealthApp record protocol in Dafny

HealthApp records blood-pressure readings. A small ASP.NET server keeps them in one SQLite table and answers three record endpoints: a filtered, paged list, create and delete. It also serves a configured list of user names. A React web client and an Android client (Kotlin, Compose) list, page, add and delete readings, and each classifies a reading as 正常 (normal), 偏高 (elevated) or 高血压 (high).

This project models the core of that protocol and proves properties of the model:

- **Server store** (`record_store.dfy`, module `RecordStore`). The table is a class holding a sequence of rows and the AUTOINCREMENT counter. The list query is a pure function: clamp the paging parameters, filter with SQLite's string comparison, order by date descending, take the LIMIT/OFFSET slice. The `List` method computes the offset in 32-bit arithmetic as the handler does, reads the selected rows one by one like its data-reader loop, and is proved equal to that function whenever the offset fits.
- **Web session** (`web_session.dfy`, module `WebSession`). The `localStorage` token and code, the `apiRequest` wrapper (a Bearer header as in section 2.1 of RFC 6750, one re-login and one retry on a 401), and the login form.
- **Web list** (`web_app.dfy`, module `WebApp`). The `App` component's state slots, the mount effect, replace-versus-append paging, the scroll guard, `FilterPanel`'s effect and the reset button, deletion, and the pure helpers `getStatus`, `getPrevRecord` and `buildParamsFromFilter`.
- **Android view model** (`main_view_model.dfy`, module `ViewModel`). The `MainViewModel` class: filter fields, page counter, records, meta, loading flags, the 401 flag, and every operation that changes them.
- **Android satellites**:
  - the history screen's status tag, previous-record lookup, comparison chip and paging conditions (`history_screen.dfy`);
  - the export layout (`export_utils.dfy`);
  - the Retrofit singleton's base URL (`retrofit_client.dfy`);
  - the preference store (`preference_manager.dfy`).
- **Agreement** (`clients_agree.dfy`). Where the three classifiers agree and where they differ, and proof that both clients send the server the same filter.
- **Shared pieces**. `models.dfy` holds the shared value types (`Record`, `Meta`, `CreateRecordRequest`). `strings.dfy` holds code-point string order, decimal rendering and JavaScript's `trim`.

Network replies, the server clock ("now") and the client's "today" are parameters. Every method that makes a request appends it to a log field, so its contract can say exactly which requests were sent.

Several behaviours are modelled exactly as the code has them:

- **The date filter compares strings, not instants.** Stored dates carry seven fractional digits (.NET's `"o"` format). The clients send bounds with three. A reading stamped in the first millisecond of the start day therefore sorts below `…T00:00:00.000Z` and is filtered out (`RecordStore.FirstMillisecondBelowStart`).
- **Rows with equal dates.** `ORDER BY date DESC` leaves their order open. This model keeps them in table order (a stable sort), so every query has one determined answer.
- **Web first fetch is unfiltered.** The mount effect and the reset button fetch page 1 with no parameters, although the form shows the last 30 days (`WebApp.InitialFetchIsUnfiltered`). `FilterPanel`'s effect then fetches page 1 again, with the first user standing in for an empty name. Scroll appends send the form as it is, with no such default. The proofs that paging lists each row once (`WebApp.LoadedIsFirstPages`, `WebApp.HasMoreIffRecordsRemain`) therefore hold only when page 1 was fetched with the same parameters as the appends; the Findings table shows the repeat otherwise.
- **Web mount runs twice.** The mount effect depends on `authenticated`, which starts false. With a stored token its first run sets it, so the effect runs again: two user requests and two unfiltered page-1 requests (`WebApp.App.Mount`).
- **Web failed append.** The web `fetchRecords` clears `loadingMore` only on a successful append. After a failed append the scroll guard stays closed.
- **Android start-up fetches race.** `refreshData` and `init` launch `fetchUsers` and a reset fetch side by side. The reset fetch reads the name before the users reply, so at start-up it asks for every user's readings. When the users reply chooses the first user, a second reset fetch follows with that name. If the first fetch's reply lands last, the list shows every user's readings while the filter shows the first user (`ViewModel.MainViewModel.RefreshData`).
- **Android rejected base URL.** `setBaseUrl` stores the URL before building the Retrofit instance. When the builder rejects the URL, the old service stays in use while `getBaseUrl` reports the rejected URL, and entering the same URL again succeeds without a rebuild (`Retrofit.RejectedUrlRetried`). The settings and welcome screens catch the first failure, but not the silent second attempt.
- **Android failed `loadMore`.** `loadMore` advances `currentPage` before fetching and does not undo it on failure. The next successful `loadMore` then asks for the page after the lost one.
- **Web status thresholds.** The web `getStatus` repeats the `dia >= 90` test in its second branch, so its "elevated" depends on the systolic value alone. Android uses 130/85.

## Model

| member | source | states |
|---|---|---|
| Models.WithoutId | server-dotnet/Health.Api/Program.cs:111-113 | `DELETE … WHERE id = $id`: the result holds exactly the rows whose id differs, in order; it is never longer; it is unchanged when no row has the id |
| Models.WithoutIdRemovesOne | server-dotnet/Health.Api/Program.cs:113-115 | with AUTOINCREMENT ids, deleting an existing id removes exactly one row, which is why `changes > 0` means success |
| Models.WithoutIdKeepsOrder | server-dotnet/Health.Api/Program.cs:21 | deleting keeps ids strictly increasing along the table |
| Strings.LexLeReflexive | server-dotnet/Health.Api/Program.cs:58 | the date order is reflexive |
| Strings.LexLeTotal | server-dotnet/Health.Api/Program.cs:58 | any two dates are comparable |
| Strings.LexLeAntisymmetric | server-dotnet/Health.Api/Program.cs:58 | two dates that sort both ways are equal |
| Strings.LexLeTransitive | server-dotnet/Health.Api/Program.cs:58 | the date order is transitive |
| Strings.LexLeCommonPrefix | server-dotnet/Health.Api/Program.cs:49-50 | a shared prefix does not change how two dates compare |
| Strings.LexLeFirstDifference | server-dotnet/Health.Api/Program.cs:49-50 | two dates compare by their first differing character |
| Strings.NatToString | android-app/app/src/main/java/com/example/healthapp/ui/screens/HistoryScreen.kt:501 | the decimal text of a natural number is non-empty, all digits, with no leading zero |
| Strings.IntToString | android-app/app/src/main/java/com/example/healthapp/ui/screens/HistoryScreen.kt:501 | the decimal text of an integer starts with '-' exactly when it is negative |
| Strings.ParseNatToString | android-app/app/src/main/java/com/example/healthapp/ui/screens/HistoryScreen.kt:501 | parsing the digits of `n` gives back `n` |
| Strings.IntToStringRoundTrip | src/App.jsx:921-924 | the decimal text of any integer parses back to it, as the server reads the `page` parameter |
| Strings.Trim | src/App.jsx:730 | `trim` returns a slice of the input with only white space outside it, and it neither starts nor ends with white space |
| Strings.TrimEmptyIffAllSpace | src/App.jsx:730 | the code is blank exactly when it is all white space |
| Strings.TrimIdempotent | src/App.jsx:741 | trimming a trimmed code changes nothing |
| RecordStore.ClampPage | server-dotnet/Health.Api/Program.cs:45 | a positive page is kept, an absent or non-positive one becomes 1 |
| RecordStore.ClampPageSize | server-dotnet/Health.Api/Program.cs:46 | the page size is always in [1,200]: a positive one is capped at 200, otherwise 20 |
| RecordStore.CeilDiv | server-dotnet/Health.Api/Program.cs:78 | `totalPages` is the least `n` with `n*ps >= total`, and 0 exactly when there are no matches |
| RecordStore.Matching | server-dotnet/Health.Api/Program.cs:49-52 | a row is selected exactly when it is in the table and passes each given bound and name; empty parameters impose nothing |
| RecordStore.MatchingNoFilter | server-dotnet/Health.Api/Program.cs:52 | with no parameter given, every row matches |
| RecordStore.InsertByDateDescending | server-dotnet/Health.Api/Program.cs:58 | inserting a row into a date-descending list keeps it descending |
| RecordStore.SortByDate | server-dotnet/Health.Api/Program.cs:58 | `ORDER BY date DESC` returns a permutation of the rows, latest first |
| RecordStore.Slice | server-dotnet/Health.Api/Program.cs:58-60 | LIMIT/OFFSET gives at most `count` rows taken in order from `offset`, and none past the end |
| RecordStore.Offset | server-dotnet/Health.Api/Program.cs:60 | the intended offset of page `p`: `(p-1)*ps` over unbounded integers, never negative |
| RecordStore.PageSlice | server-dotnet/Health.Api/Program.cs:58-60 | the intended page `p`: at most `ps` rows, row `k` of the page is row `(p - 1) * ps + k` of the ordered matches, none when that offset is past the end, and the page stays date-descending |
| RecordStore.PageSliceEmptyIffPastEnd | server-dotnet/Health.Api/Program.cs:56-60 | a page is empty exactly when its offset is past the last row, that is, exactly when `p > totalPages` |
| RecordStore.Query | server-dotnet/Health.Api/Program.cs:40-80 | the intended list reply: meta echoes the clamped page and size; total counts the matches; totalPages is their ceiling; data holds at most `ps` matching rows, date-descending, and is exactly page `p` of the ordered matches |
| RecordStore.PastLastPageIsEmpty | server-dotnet/Health.Api/Program.cs:56-60 | a page past the last is empty data, not an error, and still reports its page number |
| RecordStore.MorePagesIffRowsBeyond | server-dotnet/Health.Api/Program.cs:78 | `p < totalPages` exactly when rows remain after page `p` |
| RecordStore.PagesArePrefix | server-dotnet/Health.Api/Program.cs:58-60 | pages 1..k concatenated are the first `min(k*ps, n)` ordered rows |
| RecordStore.SequentialPagesCoverAll | server-dotnet/Health.Api/Program.cs:48-79 | fetching pages 1..totalPages yields every match exactly once, `total` rows in all |
| RecordStore.WrapInt32 | server-dotnet/Health.Api/Program.cs:60 | C# `int` arithmetic reduces the product into 32 bits and keeps values already in range |
| RecordStore.WrappedOffset | server-dotnet/Health.Api/Program.cs:60 | the OFFSET SQLite receives is never negative, and is `(p-1)*ps` whenever that fits in 32 bits |
| RecordStore.PageSliceAsWritten | server-dotnet/Health.Api/Program.cs:58-60 | the handler's slice holds at most `ps` rows, all from the ordered matches, and stays date-descending |
| RecordStore.AsWrittenAgreesForSmallPages | server-dotnet/Health.Api/Program.cs:60 | while `(p-1)*ps` fits in 32 bits, the handler's slice is the intended page |
| RecordStore.FarPageReturnsFirstPage | server-dotnet/Health.Api/Program.cs:60 | page 10737420 of size 200 returns page 1's rows instead of none (see Findings) |
| RecordStore.CreateReply | server-dotnet/Health.Api/Program.cs:82-103 | missing pressures give the first 400; otherwise a missing or non-string name gives the second; a record is created exactly when the three fields are 32-bit integers and a string; it carries the server id and clock and echoes the fields; a null or absent pulse is stored as null; an empty name is accepted |
| RecordStore.CreateIgnoresDate | server-dotnet/Health.Api/Program.cs:92 | a `date` in the body, whatever its value, does not change the reply |
| RecordStore.ReadRows | server-dotnet/Health.Api/Program.cs:64-76 | the reader loop collects exactly the LIMIT/OFFSET slice, in order |
| RecordStore.Store.constructor | server-dotnet/Health.Api/Program.cs:14-20 | the table starts empty with the counter at 0 and the configured users; the id invariant holds |
| RecordStore.Store.List | server-dotnet/Health.Api/Program.cs:40-80 | meta is the list query's; data is the slice at the 32-bit offset, as the handler computes it; whenever that offset fits, the reply is exactly the list query's |
| RecordStore.Store.Create | server-dotnet/Health.Api/Program.cs:82-103 | the reply is `CreateReply` with the next id; only a created row is appended; ids keep increasing |
| RecordStore.Store.Delete | server-dotnet/Health.Api/Program.cs:106-116 | succeeds exactly when the id existed, with "删除成功", else "记录不存在"; removes only that row |
| RecordStore.Store.Users | server-dotnet/Health.Api/Program.cs:129 | the user list is the configured one, verbatim |
| RecordStore.DeleteTwice | server-dotnet/Health.Api/Program.cs:106-116 | after a delete no row has the id, so a second delete changes nothing and reports NotFound |
| RecordStore.EmptyStoreScenario | server-dotnet/Health.Api/Program.cs:40-80 | an empty table answers no rows with meta (0, 1, 20, 0) |
| RecordStore.TwentyFiveRowsScenario | server-dotnet/Health.Api/Program.cs:56-79 | 25 rows at size 20 make 2 pages, the second holding 5 |
| RecordStore.JanuaryFilterScenario | server-dotnet/Health.Api/Program.cs:49-50 | January's bounds exclude a reading stamped at midnight on 1 February |
| RecordStore.FirstMillisecondBelowStart | server-dotnet/Health.Api/Program.cs:92 | a seven-digit timestamp in the first millisecond of a day sorts below the client's start bound for that day |
| RecordStore.CreatedThenListedFirst | server-dotnet/Health.Api/Program.cs:92-103 | a new reading whose clock sorts after every stored date is the first row of page 1 for its name |
| WebSession.GetItem | src/App.jsx:831 | `getItem` returns the stored value exactly when the key is present |
| WebSession.WithBearer | src/App.jsx:831-835 | the request carries `Authorization: Bearer <token>` exactly when a truthy token is stored; other headers pass unchanged |
| WebSession.GrantedToken | src/App.jsx:851-852 | the stored token is the login body's `token` |
| WebSession.Browser.ApiRequest | src/App.jsx:830-877 | the first request carries the stored token; a non-401 reply is returned unchanged; a 401 without a code drops the token and reloads; with a code, exactly one login; a failed login drops token and code and reloads; a granted one stores the token and re-sends once with it, returning the retry's response even if it is another 401 |
| WebSession.Browser.HandleLogin | src/App.jsx:728-760 | a blank trimmed code is refused with no request (BlankCode exactly then); otherwise one login with the trimmed code; token and trimmed code are stored exactly on an ok, parsable reply; a non-ok status is "wrong code"; a network error or an unparsable ok body is the generic failure |
| WebApp.GetStatus | src/App.jsx:348-354 | high exactly when `sys>=140 \|\| dia>=90`; elevated exactly when not high and `sys>=130`; normal otherwise |
| WebApp.GetPrevRecord | src/App.jsx:375-382 | returns the first later entry with the same name (null read as ""), or none exactly when no later entry has it |
| WebApp.BuildParams | src/App.jsx:955-963 | only the non-empty fields are sent; the dates are widened to the first and last millisecond of their day |
| WebApp.FormReachesServer | src/App.jsx:918-927 | the server reads page `p`, size 20 and the form's own bounds and name from the query string |
| WebApp.Fetched | src/App.jsx:928-949 | a parsed reply appends or replaces the records and sets page and meta from its meta (defaults for missing fields) and `hasMore = page < totalPages`; only an append clears `loadingMore`; a failure changes nothing |
| WebApp.PanelParams | src/App.jsx:76-84 | `FilterPanel` sends the form's parameters, except that an empty name becomes the first user |
| WebApp.App.constructor | src/App.jsx:880-895 | not signed in, no records or users, `loading`, an empty form, page 1, `hasMore`, no append in flight, the default meta |
| WebApp.App.FetchRecords | src/App.jsx:918-953 | asks for `page+1` when appending, else 1, leaving out falsy params; the list slots become `Fetched` of the old ones; `loading` drops; nothing else changes |
| WebApp.App.OnScroll | src/App.jsx:965-976 | near the bottom with more pages and no append in flight, raises `loadingMore` and appends the next page of the current form, leaving records, page, meta and `hasMore` as `Fetched` says and `loadingMore` raised exactly on a failure; otherwise nothing changes |
| WebApp.App.FetchUsers | src/App.jsx:978-986 | a reply replaces the user list |
| WebApp.App.MountEffect | src/App.jsx:899-916 | one run: without a token only `loading` drops and the list slots are unchanged; with one, signed in, users fetched, the form's dates become the last 30 days, and page 1 fetched with no parameters settles the list slots |
| WebApp.App.Mount | src/App.jsx:880-916 | with a token on a fresh page the effect runs twice: two unfiltered page-1 requests, the second replies decide users and list; when already signed in, once; without a token, nothing but `loading` changes |
| WebApp.App.ApplyPanel | src/App.jsx:76-85 | page 1 of `PanelParams` of the form and users; the list slots become `Fetched` of the old ones; form and users unchanged |
| WebApp.App.ResetForm | src/App.jsx:392-402 | the form becomes no name and the last 30 days, and page 1 is fetched with no parameters |
| WebApp.App.HandleDeleteRecord | src/App.jsx:1008-1023 | an ok reply drops exactly that id from the list; the toast is the success text, the server's non-empty error, "删除失败", or the network text |
| WebApp.SameFilterOnEveryPage | src/App.jsx:919-927 | successive requests differ only in their page number |
| WebApp.AnswerIsPage | src/App.jsx:927-935 | the server's answer to the k-th request is page k of the ordered matches |
| WebApp.LoadedIsFirstPages | src/App.jsx:936-944 | when every append sends page 1's parameters (the corrected paging), after the first fetch and k-1 appends the list is exactly pages 1..k, nothing repeated or skipped |
| WebApp.HasMoreIffRecordsRemain | src/App.jsx:945 | when every append sends page 1's parameters, `hasMore` is true exactly when some matching record is not yet listed |
| WebApp.InitialFetchIsUnfiltered | src/App.jsx:915 | the mount fetch selects every stored record, whatever range the form shows |
| WebApp.FormFilterMatches | src/App.jsx:955-963 | the server keeps a row for the form's query exactly when it is in the form's range and, when the form names someone, theirs |
| WebApp.PanelFirstPage | src/App.jsx:76-85 | with an empty name, `FilterPanel`'s page 1 holds only the first user's rows, with their count in the meta |
| WebApp.ScrollSecondPage | src/App.jsx:965-971 | with an empty name, the scroll's page 2 is page 2 of every user's rows |
| WebApp.ScrollAfterDefaultNameRepeats | src/App.jsx:76-85 | as written: with an empty name, newer rows of other users and more than a page of the first user's, page 1 has more pages and the next scroll lists a row twice |
| ViewModel.QueryParams | android-app/app/src/main/java/com/example/healthapp/viewmodel/MainViewModel.kt:109-127 | each field is null when empty; the dates are widened to the day's first and last millisecond; page is the current page and the size is 20 |
| ViewModel.MainViewModel.constructor | android-app/app/src/main/java/com/example/healthapp/viewmodel/MainViewModel.kt:18-48 | no records or users, both flags down, the default meta, no name, the last 30 days, page 1, no 401 flag |
| ViewModel.MainViewModel.ClearAuthError | android-app/app/src/main/java/com/example/healthapp/viewmodel/MainViewModel.kt:50-52 | the 401 flag is cleared |
| ViewModel.MainViewModel.FetchRecords | android-app/app/src/main/java/com/example/healthapp/viewmodel/MainViewModel.kt:99-146 | a reset sets page 1 and replaces the records, otherwise rows are appended; success replaces meta; failure keeps records and meta and raises the flag on a 401; both loading flags end false |
| ViewModel.MainViewModel.SetFilter | android-app/app/src/main/java/com/example/healthapp/viewmodel/MainViewModel.kt:80-85 | overwrites all three filter fields, then does a reset fetch with them |
| ViewModel.MainViewModel.ResetFilter | android-app/app/src/main/java/com/example/healthapp/viewmodel/MainViewModel.kt:87-97 | name becomes the first user or "", dates become today-30 and today, then a reset fetch |
| ViewModel.MainViewModel.LoadMore | android-app/app/src/main/java/com/example/healthapp/viewmodel/MainViewModel.kt:148-154 | nothing while loading or on the last page; otherwise the page counter moves up by exactly one and that page is appended |
| ViewModel.MainViewModel.FetchUsers | android-app/app/src/main/java/com/example/healthapp/viewmodel/MainViewModel.kt:59-78 | a success replaces the users; it chooses the first name and refetches only when no name is chosen and the list is non-empty, leaving both loading flags down; otherwise the flags are unchanged |
| ViewModel.MainViewModel.AddRecord | android-app/app/src/main/java/com/example/healthapp/viewmodel/MainViewModel.kt:156-169 | the body never carries a date; only a successful create refetches from page 1, replacing records and meta on success, with both loading flags down, and calls back; a failure changes neither list nor flags |
| ViewModel.MainViewModel.DeleteRecord | android-app/app/src/main/java/com/example/healthapp/viewmodel/MainViewModel.kt:171-183 | only a successful delete refetches from page 1, replacing records and meta on success, with both loading flags down; a failure keeps records and flags and raises the 401 flag on a 401 |
| ViewModel.MainViewModel.RefreshData | android-app/app/src/main/java/com/example/healthapp/viewmodel/MainViewModel.kt:185-188 | two coroutines: the reset fetch is sent with the name as it was before the users reply; when that reply chooses the first user, a second reset fetch with that name is sent; records and meta come from whichever successful reply lands last (`resetLandsLast`); the 401 flag is the OR over every reply; the page is 1 and both flags end down |
| ViewModel.MainViewModel.Settle | android-app/app/src/main/java/com/example/healthapp/viewmodel/MainViewModel.kt:129-144 | a successful reply replaces the records on a reset and appends them otherwise, and sets meta; a failed one keeps both; a 401 raises the flag; both flags end down; page, requests and filters are unchanged |
| ViewModel.AnswerIsPage | android-app/app/src/main/java/com/example/healthapp/viewmodel/MainViewModel.kt:121-127 | the server's answer for page k is page k of the ordered matches |
| ViewModel.LoadedIsFirstPages | android-app/app/src/main/java/com/example/healthapp/viewmodel/MainViewModel.kt:129-133 | after a reset and k-1 appends the list is exactly pages 1..k |
| ViewModel.LoadMoreStopsWhenAllLoaded | android-app/app/src/main/java/com/example/healthapp/viewmodel/MainViewModel.kt:150 | `currentPage >= totalPages` holds exactly when every matching record is loaded |
| ViewModel.AddRecordBodyAccepted | android-app/app/src/main/java/com/example/healthapp/viewmodel/MainViewModel.kt:159 | every body `addRecord` sends is accepted and stored with the server's id and clock and the fields as sent |
| HistoryScreen.GetStatus | android-app/app/src/main/java/com/example/healthapp/ui/screens/HistoryScreen.kt:526-532 | "高血压" exactly when `sys>=140 \|\| dia>=90`; "偏高" exactly when not high and `sys>=130 \|\| dia>=85`; "正常" otherwise; each with its colour |
| HistoryScreen.GetStatusMonotone | android-app/app/src/main/java/com/example/healthapp/ui/screens/HistoryScreen.kt:526-532 | raising either value never lowers the status |
| HistoryScreen.IndexOf | android-app/app/src/main/java/com/example/healthapp/ui/screens/HistoryScreen.kt:317 | the first position holding an equal value, or -1 exactly when there is none |
| HistoryScreen.PreviousRecord | android-app/app/src/main/java/com/example/healthapp/ui/screens/HistoryScreen.kt:317-318 | a card has no comparison exactly when its reading appears nowhere before the last entry; otherwise it compares with the entry after some copy of itself |
| HistoryScreen.PreviousIsNext | android-app/app/src/main/java/com/example/healthapp/ui/screens/HistoryScreen.kt:317-318 | with distinct ids, card i compares with entry i+1 whatever its name, and the last card with none |
| HistoryScreen.DuplicateComparesAfterFirstCopy | android-app/app/src/main/java/com/example/healthapp/ui/screens/HistoryScreen.kt:317-318 | every copy of a reading listed more than once compares with the entry after its FIRST copy |
| HistoryScreen.ComparisonText | android-app/app/src/main/java/com/example/healthapp/ui/screens/HistoryScreen.kt:501 | the label, a space, then "持平" for 0, a '+' for a rise, a '-' for a fall |
| HistoryScreen.ComparisonTextRoundTrip | android-app/app/src/main/java/com/example/healthapp/ui/screens/HistoryScreen.kt:501 | the chip text determines the change it shows |
| HistoryScreen.AllLoadedIffEverythingListed | android-app/app/src/main/java/com/example/healthapp/ui/screens/HistoryScreen.kt:350 | "已加载全部" shows exactly when every matching record is listed and there is at least one |
| HistoryScreen.CollectLastVisible | android-app/app/src/main/java/com/example/healthapp/ui/screens/HistoryScreen.kt:67-74 | a page is requested exactly when the last visible index is within three of the end and `loadMore`'s guard is open; then the page counter moves up by one and records, meta and flags follow the reply; otherwise the view model is unchanged |
| ExportUtils.StatusText | android-app/app/src/main/java/com/example/healthapp/utils/ExportUtils.kt:190-196 | high, elevated and normal with the 140/90 and 130/85 thresholds |
| ExportUtils.HeaderRow | android-app/app/src/main/java/com/example/healthapp/utils/ExportUtils.kt:36-43 | row 0 holds exactly the six titles, in order |
| ExportUtils.RecordRow | android-app/app/src/main/java/com/example/healthapp/utils/ExportUtils.kt:47-53 | six cells: formatted date, name or "", systolic, diastolic, pulse or 0, status text |
| ExportUtils.ExcelSheet | android-app/app/src/main/java/com/example/healthapp/utils/ExportUtils.kt:36-54 | the header in row 0 and record i in row i+1, nothing else |
| ExportUtils.RowPositions | android-app/app/src/main/java/com/example/healthapp/utils/ExportUtils.kt:136-145 | one baseline per drawn row, 18 points apart |
| ExportUtils.PdfPage | android-app/app/src/main/java/com/example/healthapp/utils/ExportUtils.kt:102-145 | the summary appears exactly when there are records (four lines when a pulse is known); at most 30 rows, the first ones; every row stays above y = 800, so the overflow check never fires |
| Retrofit.Normalize | android-app/app/src/main/java/com/example/healthapp/api/RetrofitClient.kt:14 | the result ends with "/"; a URL already ending in "/" is unchanged, any other gains one |
| Retrofit.NormalizeIdempotent | android-app/app/src/main/java/com/example/healthapp/api/RetrofitClient.kt:14 | normalising twice is normalising once |
| Retrofit.NormalizeIgnoresTrailingSlash | android-app/app/src/main/java/com/example/healthapp/api/RetrofitClient.kt:14 | `u` and `u/` configure the same base URL |
| Retrofit.RetrofitClient.constructor | android-app/app/src/main/java/com/example/healthapp/api/RetrofitClient.kt:7-11 | starts at "http://10.0.2.2:3000/" with no service |
| Retrofit.RetrofitClient.SetBaseUrl | android-app/app/src/main/java/com/example/healthapp/api/RetrofitClient.kt:13-19 | the base URL always becomes the normalised one, before the build; a rebuild is attempted exactly when it changed or no service exists; an accepted build installs a service for it, a rejected one fails and leaves the old service, which then no longer targets the base URL |
| Retrofit.RetrofitClient.SetBaseUrlIntended | android-app/app/src/main/java/com/example/healthapp/api/RetrofitClient.kt:13-19 | the corrected `setBaseUrl`: the URL is stored only after its service is built, so a rejected URL changes nothing and the service always targets the reported base URL |
| Retrofit.RetrofitClient.BuildRetrofit | android-app/app/src/main/java/com/example/healthapp/api/RetrofitClient.kt:23-29 | on an accepted base URL the new service targets it; on a rejected one the call fails and the service is unchanged |
| Retrofit.RetrofitClient.GetBaseUrl | android-app/app/src/main/java/com/example/healthapp/api/RetrofitClient.kt:21 | returns the current base URL, the normalised one after `setBaseUrl` |
| Retrofit.RetrofitClient.ApiService | android-app/app/src/main/java/com/example/healthapp/api/RetrofitClient.kt:31-35 | an existing service is reused as it is; with none, one is built for the base URL, or the getter fails when the builder rejects it |
| Retrofit.RejectedUrlRetried | android-app/app/src/main/java/com/example/healthapp/api/RetrofitClient.kt:15-17 | entering the same rejected URL twice: the first attempt fails, the second succeeds, and the old service stays while the base URL reports the rejected one |
| Retrofit.RejectedUrlRetriedIntended | android-app/app/src/main/java/com/example/healthapp/api/RetrofitClient.kt:15-17 | under the corrected definition both attempts fail, and the base URL and service are unchanged |
| Preferences.Lookup | android-app/app/src/main/java/com/example/healthapp/utils/PreferenceManager.kt:8-10 | a key never saved reads as "" |
| Preferences.Configured | android-app/app/src/main/java/com/example/healthapp/utils/PreferenceManager.kt:20-24 | a base URL is always set afterwards; an existing one is never overwritten; other keys are unchanged |
| Preferences.ConfiguredIdempotent | android-app/app/src/main/java/com/example/healthapp/utils/PreferenceManager.kt:20-24 | configuring twice is configuring once |
| Preferences.PreferenceManager.GetBaseUrl | android-app/app/src/main/java/com/example/healthapp/utils/PreferenceManager.kt:8-10 | reads the base URL, "" if never saved |
| Preferences.PreferenceManager.SaveBaseUrl | android-app/app/src/main/java/com/example/healthapp/utils/PreferenceManager.kt:12-14 | the base URL then reads back as saved; other keys are unchanged |
| Preferences.PreferenceManager.IsFirstRun | android-app/app/src/main/java/com/example/healthapp/utils/PreferenceManager.kt:16-18 | true exactly when the base URL is empty |
| Preferences.PreferenceManager.SetConfigured | android-app/app/src/main/java/com/example/healthapp/utils/PreferenceManager.kt:20-24 | the store becomes `Configured` of itself, so it is no longer the first run |
| Preferences.PreferenceManager.GetAuthToken | android-app/app/src/main/java/com/example/healthapp/utils/PreferenceManager.kt:26-28 | reads the token, "" if never saved |
| Preferences.PreferenceManager.SaveAuthToken | android-app/app/src/main/java/com/example/healthapp/utils/PreferenceManager.kt:30-32 | the token then reads back as saved; other keys are unchanged |
| Preferences.PreferenceManager.GetAuthCode | android-app/app/src/main/java/com/example/healthapp/utils/PreferenceManager.kt:34-36 | reads the code, "" if never saved |
| Preferences.PreferenceManager.SaveAuthCode | android-app/app/src/main/java/com/example/healthapp/utils/PreferenceManager.kt:38-40 | the code then reads back as saved; other keys are unchanged |
| ClientsAgree.ExportAgreesWithHistory | android-app/app/src/main/java/com/example/healthapp/utils/ExportUtils.kt:190-196 | the export's status column equals the history screen's tag for every reading |
| ClientsAgree.WebAndAndroidDiffer | src/App.jsx:348-354 | the web and Android tags differ exactly when `sys < 130` and `85 <= dia < 90`, where the web says normal and Android elevated |
| ClientsAgree.WebNeverMoreSevere | src/App.jsx:348-354 | the web tag is never more severe than Android's |
| ClientsAgree.QueriesAgree | src/App.jsx:955-963 | the web form and the Android filter fields holding the same values make the server read the same filter, page and size |

## Left out

- SQLite plumbing is not modelled: table creation, the `name` column migration, connections, static files, host binding. The table is a sequence held by the `Store` class.
- Deleting by a 64-bit id, AUTOINCREMENT overflow and a stored pulse outside 32 bits are not modelled. Ids are unbounded integers.
- Query strings that do not parse as integers are not modelled. ASP.NET rejects them with a 400 before the handler runs; `WebApp.ServerInt` yields no value for them.
- Malformed JSON and the exceptions in `GetInt32` are not modelled separately. Every such case is the single `ServerFault` outcome. A body whose root is not an object is `NotObject`.
- The server clock (`DateTime.UtcNow`), the clients' "today" and the time-zone formatting (`TimeUtils`, date-fns `format`) are parameters. Excel date cells keep the raw date as `FormattedDate`.
- `new Date(…).toISOString()` in `buildParamsFromFilter` is modelled as the identity on `yyyy-MM-dd` + time text. That holds for the valid dates the date inputs produce; an invalid date, on which it throws, is not modelled.
- `fetch`, Retrofit, Gson and `response.json()` are not modelled. What each call settles to is an input: a parsed body, an HTTP status or an exception. Whether `Retrofit.Builder().baseUrl` accepts a base URL (OkHttp's URL parser) is the `accepted` input of the Retrofit client's methods. Gson's omission of null fields is written out in `ViewModel.CreateBody`.
- Coroutines, React state batching and the non-atomic count-then-select on the server are not modelled in general. Each handler is one sequential step, and a nested fetch completes before its caller returns. The one race that changes what the Android list shows, between the two fetches of `refreshData` and `init`, is modelled by the reply-order parameter of `ViewModel.MainViewModel.RefreshData`.
- `window.location.reload()` is counted in `reloads`; the page it reloads is not modelled.
- Floating point is not modelled: averages, chart geometry, `Math.ceil` over a double (an integer ceiling stands in), and `toDouble` in the Excel cells (modelled as integers).
- The web list's client-side sort by `new Date(date)` is not modelled. `WebApp.GetPrevRecord` takes the already sorted list.
- The web `handleSave` (append the saved reading locally) is outside the modelled core.
- Toasts, icons, colours of the web tones, the PDF drawing calls, file writes and sharing are not modelled.
- The Android `init` block (MainViewModel.kt:54-57) runs `fetchUsers` then a reset fetch, the same two launches as `ViewModel.MainViewModel.RefreshData`. It is not modelled as its own member.
- Retrofit.RetrofitClient.SetBaseUrl: no longer promises that the service targets the current base URL. After a rejected URL it does not, as the Findings table shows; `Current()` states the property, and it is kept only by accepted builds.
- The Android screens other than the history screen, `MainActivity` and the navigation are not modelled.
- RecordStore.Offset: states the intended offset over unbounded integers, not the handler's 32-bit `(p-1)*ps`; it belongs to the corrected half of the first Findings row. `RecordStore.WrappedOffset` models the offset as written.
- RecordStore.Query: states the intended reply, with the unbounded offset. `RecordStore.Store.List` and `RecordStore.PageSliceAsWritten` model the handler as written, and equal it while the offset fits in 32 bits (`RecordStore.AsWrittenAgreesForSmallPages`).

## Findings

| source | as written | input that shows it | evidently intended | confidence | as-written member | corrected member |
|---|---|---|---|---|---|---|
| server-dotnet/Health.Api/Program.cs:60 | `(p - 1) * ps` is 32-bit `int` arithmetic, so it wraps; SQLite reads the negative OFFSET as 0 | `page=10737420&pageSize=200` on a non-empty table returns page 1's rows instead of an empty page | a page past the end is empty (`PageSliceEmptyIffPastEnd`, `PastLastPageIsEmpty`) | high for the arithmetic, not executed | RecordStore.FarPageReturnsFirstPage | RecordStore.PageSlice |
| src/App.jsx:76-85, 955-971 | `FilterPanel` fetches page 1 with `name = filter.name \|\| users[0]`, but the scroll appends page 2 with `buildParamsFromFilter()`, which has no default name | users ["A","B"], an empty name, 21 A readings and 5 newer B readings: page 1 is A1..A20 with two pages, page 2 of all rows starts at A16, so A16..A20 are listed twice | every append reuses page 1's parameters, so pages 1..k are listed once each | medium, not executed | WebApp.ScrollAfterDefaultNameRepeats | WebApp.LoadedIsFirstPages |
| android-app/app/src/main/java/com/example/healthapp/api/RetrofitClient.kt:15-17 | `setBaseUrl` stores the new base URL before `buildRetrofit()`, which throws on a URL Retrofit rejects; the old service stays, and the guard then treats the stored URL as already configured | a service built for "http://10.0.2.2:3000/", then `setBaseUrl("192.168.1.5:3000")` twice: the first call throws, the second returns normally, and requests still go to the old server while `getBaseUrl` reports "192.168.1.5:3000/" | a rejected URL leaves the base URL as it was, so the service always targets the reported URL and every retry is refused | medium, not executed | Retrofit.RejectedUrlRetried | Retrofit.RetrofitClient.SetBaseUrlIntended |
