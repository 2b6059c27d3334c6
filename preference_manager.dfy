/** The Android client's `PreferenceManager`: three string settings in a
    shared-preferences file, read with "" as the default. */
module Preferences {

  const BaseUrlKey: string := "base_url"
  const AuthTokenKey: string := "auth_token"
  const AuthCodeKey: string := "auth_code"
  const DefaultBaseUrl: string := "http://10.0.2.2:3000/"

  /** `prefs.getString(key, "") ?: ""`. */
  function Lookup(prefs: map<string, string>, key: string): (v: string)
    ensures key !in prefs ==> v == ""
    ensures key in prefs ==> v == prefs[key]
  {
    if key in prefs then prefs[key] else ""
  }

  /** The settings after `setConfigured`: the default URL is written only
      when no base URL is set. */
  function Configured(prefs: map<string, string>): (r: map<string, string>)
    ensures Lookup(r, BaseUrlKey) != ""
    ensures Lookup(prefs, BaseUrlKey) != "" ==> r == prefs
    ensures Lookup(prefs, BaseUrlKey) == "" ==> Lookup(r, BaseUrlKey) == DefaultBaseUrl
    ensures forall k :: k != BaseUrlKey ==> Lookup(r, k) == Lookup(prefs, k)
  {
    if Lookup(prefs, BaseUrlKey) == "" then prefs[BaseUrlKey := DefaultBaseUrl] else prefs
  }

  /** Configuring twice is configuring once. */
  lemma ConfiguredIdempotent(prefs: map<string, string>)
    ensures Configured(Configured(prefs)) == Configured(prefs)
  {
  }

  class PreferenceManager {
    var prefs: map<string, string>

    constructor (prefs: map<string, string>)
      ensures this.prefs == prefs
    {
      this.prefs := prefs;
    }

    method GetBaseUrl() returns (url: string)
      ensures url == Lookup(prefs, BaseUrlKey)
    {
      url := Lookup(prefs, BaseUrlKey);
    }

    method SaveBaseUrl(url: string)
      modifies this
      ensures prefs == old(prefs)[BaseUrlKey := url]
      ensures Lookup(prefs, BaseUrlKey) == url
      ensures forall k :: k != BaseUrlKey ==> Lookup(prefs, k) == Lookup(old(prefs), k)
    {
      prefs := prefs[BaseUrlKey := url];
    }

    /** `isFirstRun()`: no base URL saved, or an empty one. */
    method IsFirstRun() returns (first: bool)
      ensures first <==> Lookup(prefs, BaseUrlKey) == ""
    {
      var url := GetBaseUrl();
      first := url == "";
    }

    /** `setConfigured()`; afterwards it is no longer the first run. */
    method SetConfigured()
      modifies this
      ensures prefs == Configured(old(prefs))
      ensures Lookup(prefs, BaseUrlKey) != ""
    {
      var url := GetBaseUrl();
      if url == "" {
        SaveBaseUrl(DefaultBaseUrl);
      }
    }

    method GetAuthToken() returns (token: string)
      ensures token == Lookup(prefs, AuthTokenKey)
    {
      token := Lookup(prefs, AuthTokenKey);
    }

    method SaveAuthToken(token: string)
      modifies this
      ensures prefs == old(prefs)[AuthTokenKey := token]
      ensures Lookup(prefs, AuthTokenKey) == token
      ensures forall k :: k != AuthTokenKey ==> Lookup(prefs, k) == Lookup(old(prefs), k)
    {
      prefs := prefs[AuthTokenKey := token];
    }

    method GetAuthCode() returns (code: string)
      ensures code == Lookup(prefs, AuthCodeKey)
    {
      code := Lookup(prefs, AuthCodeKey);
    }

    method SaveAuthCode(code: string)
      modifies this
      ensures prefs == old(prefs)[AuthCodeKey := code]
      ensures Lookup(prefs, AuthCodeKey) == code
      ensures forall k :: k != AuthCodeKey ==> Lookup(prefs, k) == Lookup(old(prefs), k)
    {
      prefs := prefs[AuthCodeKey := code];
    }
  }
}
