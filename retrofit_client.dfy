/** The Android client's `RetrofitClient` singleton: the base URL and the
    service built for it.  A service is represented by the base URL its
    Retrofit instance was built with; `builds` counts the rebuilds. */
module Retrofit {

  import opened Models
  import opened Strings

  const DefaultBaseUrl: string := "http://10.0.2.2:3000/"

  /** `if (url.endsWith("/")) url else "$url/"`. */
  function Normalize(url: string): (r: string)
    ensures EndsWith(r, "/")
    ensures EndsWith(url, "/") ==> r == url
    ensures !EndsWith(url, "/") ==> r == url + "/"
  {
    if EndsWith(url, "/") then url else url + "/"
  }

  /** Normalising twice is normalising once. */
  lemma NormalizeIdempotent(url: string)
    ensures Normalize(Normalize(url)) == Normalize(url)
  {
  }

  /** Two URLs that differ only by a trailing slash normalise alike. */
  lemma NormalizeIgnoresTrailingSlash(url: string)
    requires !EndsWith(url, "/")
    ensures Normalize(url + "/") == Normalize(url)
  {
    var r := url + "/";
    assert EndsWith(r, "/") by { assert r[|r| - 1..] == "/"; }
  }

  class RetrofitClient {
    var baseUrl: string
    /** `_apiService`: the base URL of the service built, if any. */
    var service: Option<string>
    var builds: nat

    /** The service, when there is one, targets the base URL that
        `getBaseUrl` reports.  Not an invariant of the class: a base URL the
        builder rejects breaks it (see `SetBaseUrl`). */
    predicate Current()
      reads this
    {
      service.Some? ==> service.value == baseUrl
    }

    constructor ()
      ensures Current()
      ensures baseUrl == DefaultBaseUrl && service == None && builds == 0
    {
      baseUrl := DefaultBaseUrl;
      service := None;
      builds := 0;
    }

    /** `setBaseUrl(url)`: when the normalised URL is new or no service
        exists yet, it stores the URL and then rebuilds; otherwise it changes
        nothing.  `accepted` is the builder's verdict on the stored URL
        (`Retrofit.Builder().baseUrl` throws for text that is not an http or
        https URL); `ok` is false exactly when that throw reaches the caller,
        and by then the base URL has already been overwritten. */
    method SetBaseUrl(url: string, accepted: bool) returns (ok: bool)
      modifies this
      ensures baseUrl == Normalize(url)
      ensures var rebuild := old(baseUrl) != Normalize(url) || old(service).None?;
        (rebuild && accepted ==> ok && service == Some(Normalize(url)) && builds == old(builds) + 1)
        && (rebuild && !accepted ==> !ok && service == old(service) && builds == old(builds))
        && (!rebuild ==> ok && service == old(service) && builds == old(builds))
      ensures ok && old(Current()) ==> Current()
      ensures !ok && old(Current()) ==> (Current() <==> old(service).None?)
    {
      var formatted := Normalize(url);
      if baseUrl != formatted || service.None? {
        baseUrl := formatted;
        ok := BuildRetrofit(accepted);
      } else {
        ok := true;
      }
    }

    /** `buildRetrofit()`: on a URL the builder accepts, a new service for
        the current base URL; on one it rejects, the throw leaves `retrofit`
        and `_apiService` as they were. */
    method BuildRetrofit(accepted: bool) returns (ok: bool)
      modifies this`service, this`builds
      ensures ok == accepted
      ensures accepted ==> service == Some(baseUrl) && builds == old(builds) + 1
      ensures !accepted ==> service == old(service) && builds == old(builds)
    {
      if accepted {
        service := Some(baseUrl);
        builds := builds + 1;
      }
      ok := accepted;
    }

    /** `getBaseUrl()`. */
    method GetBaseUrl() returns (url: string)
      ensures url == baseUrl
    {
      url := baseUrl;
    }

    /** The `apiService` getter: builds on first use and reuses the service
        afterwards.  `None` stands for the throw when no service exists and
        the builder rejects the base URL. */
    method ApiService(accepted: bool) returns (s: Option<string>)
      modifies this`service, this`builds
      ensures s == service
      ensures old(service).Some? ==> s == old(service) && builds == old(builds)
      ensures old(service).None? && accepted ==> s == Some(baseUrl) && builds == old(builds) + 1
      ensures old(service).None? && !accepted ==> s.None? && builds == old(builds)
      ensures s.Some? && old(Current()) ==> s.value == baseUrl
    {
      if service.None? {
        var _ := BuildRetrofit(accepted);
      }
      s := service;
    }

    /** The base URL as evidently intended: stored only once a service has
        been built for it, so the service always targets the reported URL
        and a rejected URL changes nothing. */
    method SetBaseUrlIntended(url: string, accepted: bool) returns (ok: bool)
      modifies this
      ensures var rebuild := old(baseUrl) != Normalize(url) || old(service).None?;
        (rebuild && accepted ==> ok && baseUrl == Normalize(url) && service == Some(Normalize(url)) && builds == old(builds) + 1)
        && (rebuild && !accepted ==> !ok && baseUrl == old(baseUrl) && service == old(service) && builds == old(builds))
        && (!rebuild ==> ok && baseUrl == old(baseUrl) && service == old(service) && builds == old(builds))
      ensures old(Current()) ==> Current()
      ensures ok ==> baseUrl == Normalize(url)
    {
      var formatted := Normalize(url);
      if baseUrl != formatted || service.None? {
        if accepted {
          baseUrl := formatted;
          service := Some(formatted);
          builds := builds + 1;
          ok := true;
        } else {
          ok := false;
        }
      } else {
        ok := true;
      }
    }
  }

  /** Entering the same rejected URL twice: the first `setBaseUrl` throws,
      the second returns normally, and the old service stays in use while
      `getBaseUrl` reports the rejected URL. */
  method RejectedUrlRetried(c: RetrofitClient, url: string) returns (first: bool, second: bool)
    requires c.service.Some? && c.Current()
    requires c.baseUrl != Normalize(url)
    modifies c
    ensures !first && second
    ensures c.service == old(c.service) && c.baseUrl == Normalize(url)
    ensures !c.Current()
  {
    first := c.SetBaseUrl(url, false);
    second := c.SetBaseUrl(url, false);
  }

  /** The same two attempts under the intended definition: both are
      refused, and the service still targets the reported base URL. */
  method RejectedUrlRetriedIntended(c: RetrofitClient, url: string) returns (first: bool, second: bool)
    requires c.service.Some? && c.Current()
    requires c.baseUrl != Normalize(url)
    modifies c
    ensures !first && !second
    ensures c.service == old(c.service) && c.baseUrl == old(c.baseUrl)
    ensures c.Current()
  {
    first := c.SetBaseUrlIntended(url, false);
    second := c.SetBaseUrlIntended(url, false);
  }
}
