/** Where the three classifiers of a reading agree and where they part,
    and how the two clients' list queries compare once the server has
    read them. */
module ClientsAgree {

  import opened Models
  import RecordStore
  import HistoryScreen
  import ExportUtils
  import WebApp
  import ViewModel

  /** The export's status column always matches the history screen's tag. */
  lemma ExportAgreesWithHistory(sys: int, dia: int)
    ensures ExportUtils.StatusText(sys, dia) == HistoryScreen.GetStatus(sys, dia).text
  {
  }

  /** The web and Android tags differ exactly for a diastolic value of 85
      to 89 with a systolic value below 130: the web says normal, Android
      says elevated. */
  lemma WebAndAndroidDiffer(sys: int, dia: int)
    ensures WebApp.GetStatus(sys, dia).text != HistoryScreen.GetStatus(sys, dia).text
        <==> sys < 130 && 85 <= dia < 90
    ensures sys < 130 && 85 <= dia < 90 ==>
        WebApp.GetStatus(sys, dia).text == NormalLabel
        && HistoryScreen.GetStatus(sys, dia).text == ElevatedLabel
  {
  }

  /** Whatever the reading, the web tag is never more severe than Android's. */
  lemma WebNeverMoreSevere(sys: int, dia: int)
    ensures HistoryScreen.Rank(WebApp.GetStatus(sys, dia).text)
         <= HistoryScreen.Rank(HistoryScreen.GetStatus(sys, dia).text)
  {
  }

  /** The web filter form and the Android filter fields, holding the same
      name and dates, make the server see the same filter and page: both
      clients list the same rows. */
  lemma QueriesAgree(name: string, start: string, end: string, p: int)
    ensures var web := WebApp.SearchParams(p, WebApp.BuildParams(WebApp.FilterForm(name, start, end)));
      var android := ViewModel.QueryParams(name, start, end, p);
      WebApp.ServerFilter(web) == RecordStore.Filter(android.start, android.end, android.name)
      && WebApp.ServerInt(web, "page") == Some(android.page)
      && WebApp.ServerInt(web, "pageSize") == Some(android.pageSize)
  {
    WebApp.FormReachesServer(WebApp.FilterForm(name, start, end), p);
  }
}
