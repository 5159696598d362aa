/**
 * The CORS-misconfiguration plugin (source/background/plugins/corsmisconfig/index.ts): a
 * response whose `Access-Control-Allow-Origin` is `*` or `null` is an issue, the worst being
 * `*` together with `Access-Control-Allow-Credentials: true`; two filters, on by default,
 * keep only that combination and only pages holding a cross-site secure cookie.
 */
module CorsMisconfig {
  import opened Wrappers
  import opened Values
  import opened OrderedMaps
  import opened Settings
  import opened Notifications
  import opened Plugins
  import opened Reporting

  const PluginId: string := "CorsMisconfig"
  const OnlyIfCookiesKey: string := "onlyIfCookiesArePresent"
  const OnlyIfCredentialsKey: string := "onlyIfAllowCredentials"
  const AllowOriginHeader: string := "access-control-allow-origin"
  const AllowCredentialsHeader: string := "access-control-allow-credentials"

  /** `CorsIssueType`. */
  datatype CorsIssue = WildcardOrigin | NullOrigin | InvalidCredentialsCombo

  /** The enum's string value, the second half of the rate key. */
  function IssueType(issue: CorsIssue): (t: string)
    ensures |t| == match issue case WildcardOrigin => 15 case NullOrigin => 11 case InvalidCredentialsCombo => 25
  {
    match issue
    case WildcardOrigin => "wildcard_origin"
    case NullOrigin => "null_origin"
    case InvalidCredentialsCombo => "invalid_credentials_combo"
  }

  /** The notification text of each issue. */
  function IssueMessage(issue: CorsIssue): string {
    match issue
    case InvalidCredentialsCombo =>
      "The site uses 'Access-Control-Allow-Origin: *' together with 'Access-Control-Allow-Credentials: true'. "
        + "This is an invalid and insecure combination."
    case WildcardOrigin =>
      "The site uses 'Access-Control-Allow-Origin: *'. This allows any website to make requests and read the "
        + "response, which can be a security risk."
    case NullOrigin =>
      "The site uses 'Access-Control-Allow-Origin: null'. Allowing the 'null' origin can be dangerous."
  }

  /** The classification of the two header values (`undefined` when the header is absent). */
  function Classify(allowOrigin: Option<string>, allowCredentials: Option<string>): (issue: Option<CorsIssue>)
    ensures issue == Some(InvalidCredentialsCombo) <==> allowOrigin == Some("*") && allowCredentials == Some("true")
    ensures issue == Some(WildcardOrigin) <==> allowOrigin == Some("*") && allowCredentials != Some("true")
    ensures issue == Some(NullOrigin) <==> allowOrigin == Some("null")
    ensures issue.None? <==> allowOrigin != Some("*") && allowOrigin != Some("null")
  {
    if allowOrigin == Some("*") then
      if allowCredentials == Some("true") then Some(InvalidCredentialsCombo) else Some(WildcardOrigin)
    else if allowOrigin == Some("null") then Some(NullOrigin)
    else None
  }

  /** The issue a response's headers show; header names are matched ignoring case. */
  function IssueOf(headers: seq<Header>): Option<CorsIssue> {
    Classify(HeaderValue(headers, AllowOriginHeader), HeaderValue(headers, AllowCredentialsHeader))
  }

  /** The part of a `browser.cookies.Cookie` the filter reads. */
  datatype Cookie = Cookie(sameSite: string, secure: bool)

  predicate CrossSiteSecure(c: Cookie) {
    c.sameSite == "no_restriction" && c.secure
  }

  /** `cookies.find(c => c.sameSite === 'no_restriction' && c.secure)`. */
  function FindCrossSiteSecure(cookies: seq<Cookie>): (c: Option<Cookie>)
    ensures c.Some? <==> exists i :: 0 <= i < |cookies| && CrossSiteSecure(cookies[i])
    ensures c.Some? ==> CrossSiteSecure(c.value) && c.value in cookies
  {
    if cookies == [] then None
    else if CrossSiteSecure(cookies[0]) then Some(cookies[0])
    else
      var c := FindCrossSiteSecure(cookies[1..]);
      assert forall i :: 0 < i < |cookies| ==> cookies[i] == cookies[1..][i - 1];
      c
  }

  /** `hostname:issueType`. */
  function IssueRateKey(hostname: string, issue: CorsIssue): string {
    hostname + ":" + IssueType(issue)
  }

  /** `handlePotentialNotification` and `notify`: the report raised for `issue` on the page at `url`. */
  function IssueReport(url: Url, issue: CorsIssue): Report {
    Report(IssueRateKey(url.hostname, issue), url.href, "Potential CORS Misconfiguration (" + url.hostname + ")",
      IssueMessage(issue))
  }

  /**
   * `onResponseHeadersReceived` up to the lock: the report for the page at `url`, if any;
   * `cookies` is what `browser.cookies.getAll` returns for that page, looked at only when the
   * cookie filter is on.
   */
  function Finding(url: Url, headers: Option<seq<Header>>, settings: Record, cookies: seq<Cookie>): (r: Option<Report>)
    ensures r.Some? ==> headers.Some? && IssueOf(headers.value).Some? && r == Some(IssueReport(url, IssueOf(headers.value).value))
  {
    if headers.None? then None
    else
      var issue := IssueOf(headers.value);
      if issue.None? then None
      else if Truthy(Get(settings, OnlyIfCredentialsKey)) && issue.value != InvalidCredentialsCombo then None
      else if Truthy(Get(settings, OnlyIfCookiesKey)) && (|cookies| == 0 || FindCrossSiteSecure(cookies).None?) then None
      else Some(IssueReport(url, issue.value))
  }

  /**
   * A report is raised exactly for a response with headers that show an issue, which is the
   * credentials combination when that filter is on, on a page holding a cross-site secure
   * cookie when the cookie filter is on.
   */
  lemma ReportedExactly(url: Url, headers: Option<seq<Header>>, settings: Record, cookies: seq<Cookie>)
    ensures Finding(url, headers, settings, cookies).Some? <==>
      && headers.Some? && IssueOf(headers.value).Some?
      && (Truthy(Get(settings, OnlyIfCredentialsKey)) ==> IssueOf(headers.value) == Some(InvalidCredentialsCombo))
      && (Truthy(Get(settings, OnlyIfCookiesKey)) ==> exists i :: 0 <= i < |cookies| && CrossSiteSecure(cookies[i]))
  {
    var found := FindCrossSiteSecure(cookies);
    if headers.Some? && IssueOf(headers.value).Some? {
      var issue := IssueOf(headers.value).value;
      if Truthy(Get(settings, OnlyIfCredentialsKey)) && issue != InvalidCredentialsCombo {
        assert Finding(url, headers, settings, cookies).None?;
      } else if Truthy(Get(settings, OnlyIfCookiesKey)) && found.None? {
        assert Finding(url, headers, settings, cookies).None?;
      } else {
        assert found.Some? ==> |cookies| > 0;
        assert Finding(url, headers, settings, cookies) == Some(IssueReport(url, issue));
      }
    }
  }

  /**
   * The filters only take findings away: turning a filter on (or leaving it on) never adds a
   * report nor changes one; with both off every issue is reported.
   */
  lemma FiltersOnlyNarrow(url: Url, headers: Option<seq<Header>>, s1: Record, s2: Record, cookies: seq<Cookie>)
    requires Truthy(Get(s1, OnlyIfCredentialsKey)) ==> Truthy(Get(s2, OnlyIfCredentialsKey))
    requires Truthy(Get(s1, OnlyIfCookiesKey)) ==> Truthy(Get(s2, OnlyIfCookiesKey))
    ensures Finding(url, headers, s2, cookies).Some? ==> Finding(url, headers, s1, cookies) == Finding(url, headers, s2, cookies)
    ensures !Truthy(Get(s1, OnlyIfCredentialsKey)) && !Truthy(Get(s1, OnlyIfCookiesKey)) ==>
      (Finding(url, headers, s1, cookies).Some? <==> headers.Some? && IssueOf(headers.value).Some?)
  {
  }

  /**
   * With both filters on, as by default, only the credentials combination on a page holding a
   * cross-site secure cookie is reported, under the key `hostname:invalid_credentials_combo`.
   */
  lemma DefaultFiltersReportOnlyCombo(url: Url, headers: Option<seq<Header>>, settings: Record, cookies: seq<Cookie>)
    requires Get(settings, OnlyIfCredentialsKey) == Bool(true) && Get(settings, OnlyIfCookiesKey) == Bool(true)
    ensures Finding(url, headers, settings, cookies).Some? <==>
      && headers.Some?
      && HeaderValue(headers.value, AllowOriginHeader) == Some("*")
      && HeaderValue(headers.value, AllowCredentialsHeader) == Some("true")
      && exists i :: 0 <= i < |cookies| && CrossSiteSecure(cookies[i])
    ensures Finding(url, headers, settings, cookies).Some? ==>
      Finding(url, headers, settings, cookies).value.rateKey == IssueRateKey(url.hostname, InvalidCredentialsCombo)
  {
    var f := Finding(url, headers, settings, cookies);
    assert Truthy(Get(settings, OnlyIfCredentialsKey)) && Truthy(Get(settings, OnlyIfCookiesKey));
    if headers.Some? {
      var issue := IssueOf(headers.value);
      var c := FindCrossSiteSecure(cookies);
      if issue == Some(InvalidCredentialsCombo) && c.Some? {
        assert |cookies| > 0;
        assert f == Some(IssueReport(url, InvalidCredentialsCombo));
      } else {
        assert f.None?;
      }
    }
  }

  /** Different issues on one host are rate-limited under different keys. */
  lemma IssueRateKeysSeparate(hostname: string, a: CorsIssue, b: CorsIssue)
    ensures IssueRateKey(hostname, a) == IssueRateKey(hostname, b) <==> a == b
  {
    if IssueRateKey(hostname, a) == IssueRateKey(hostname, b) {
      assert |IssueType(a)| == |IssueType(b)|;
    }
  }

  /** `getSettingsDefinitions`: both filters are booleans, on by default. */
  function PluginDefinitions(): (defs: Definitions)
    ensures WellFormed(defs) && RateLimitKey !in defs.entries && PriorityKey !in defs.entries
  {
    OrderedMap([OnlyIfCookiesKey, OnlyIfCredentialsKey], map[
      OnlyIfCookiesKey := BooleanDef(Bool(true)),
      OnlyIfCredentialsKey := BooleanDef(Bool(true))])
  }

  /** The factory as the manager registers it: its id and definitions, whose defaults pass strict validation. */
  function Factory(): (f: PluginFactory)
    ensures f.id == PluginId && WellFormed(f.definitions)
    ensures Validate(Schema(f.definitions), Defaults(Schema(f.definitions)), false).Pass?
  {
    DefaultsAccepted();
    PluginFactory(PluginId, PluginDefinitions())
  }

  /** The definitions are an object literal of two booleans that leaves the suggested settings alone. */
  lemma DefinitionsShape()
    ensures WellFormed(PluginDefinitions())
    ensures RateLimitKey !in PluginDefinitions().entries && PriorityKey !in PluginDefinitions().entries
    ensures forall k :: k in PluginDefinitions().entries ==> PluginDefinitions().entries[k] == BooleanDef(Bool(true))
  {
    assert OnlyIfCookiesKey[6] != OnlyIfCredentialsKey[6];
    assert RateLimitKey[0] != OnlyIfCookiesKey[0] && RateLimitKey[0] != OnlyIfCredentialsKey[0];
    assert PriorityKey[0] != OnlyIfCookiesKey[0] && PriorityKey[0] != OnlyIfCredentialsKey[0];
  }

  /** The definitions are an object literal that leaves the suggested settings alone, and their defaults pass strict validation. */
  lemma DefaultsAccepted()
    ensures WellFormed(PluginDefinitions())
    ensures RateLimitKey !in PluginDefinitions().entries && PriorityKey !in PluginDefinitions().entries
    ensures forall k :: k in PluginDefinitions().entries ==> PluginDefinitions().entries[k] == BooleanDef(Bool(true))
    ensures var defs := Schema(PluginDefinitions()); Validate(defs, Defaults(defs), false).Pass?
  {
    DefinitionsShape();
    SchemaDefaultsValid(PluginDefinitions());
    assert CheckValue(BooleanDef(Bool(true)), Bool(true), false).None?;
  }

  /**
   * Whatever the store holds, a resolved record has a boolean under each filter, and with
   * nothing stored both filters are on.
   */
  lemma ResolvedFilters(stored: Option<Record>)
    requires Resolve(Schema(PluginDefinitions()), stored).Success?
    ensures var r := Resolve(Schema(PluginDefinitions()), stored).value;
      Get(r, OnlyIfCookiesKey).Bool? && Get(r, OnlyIfCredentialsKey).Bool?
    ensures stored.None? ==> var r := Resolve(Schema(PluginDefinitions()), stored).value;
      Get(r, OnlyIfCookiesKey) == Bool(true) && Get(r, OnlyIfCredentialsKey) == Bool(true)
  {
    DefinitionsShape();
    assert CheckValue(BooleanDef(Bool(true)), Bool(true), false).None?;
    ResolvedOwnValue(PluginDefinitions(), stored, OnlyIfCookiesKey);
    ResolvedOwnValue(PluginDefinitions(), stored, OnlyIfCredentialsKey);
  }

  /** A `CorsMisconfigPlugin` instance. */
  class CorsMisconfigPlugin {
    const settings: Record
    const notificationCreator: PluginNotificationCreator

    constructor(settings: Record, notificationCreator: PluginNotificationCreator)
      ensures this.settings == settings && this.notificationCreator == notificationCreator
    {
      this.settings := settings;
      this.notificationCreator := notificationCreator;
    }

    /**
     * `onResponseHeadersReceived` for a response from `url`; `cookies` stands for the cookie
     * store's answer and `now` for the clock. The guard chain is `Finding`; its report, if any,
     * goes through the rate limiter.
     */
    method OnResponseHeadersReceived(url: Url, headers: Option<seq<Header>>, cookies: seq<Cookie>, now: int)
      returns (alerts: seq<HostAlert>)
      requires notificationCreator.storedNotifications.Valid()
      modifies notificationCreator.database, notificationCreator.storedNotifications
      ensures notificationCreator.storedNotifications.Valid()
      ensures Finding(url, headers, settings, cookies).None? ==>
        alerts == [] && unchanged(notificationCreator.database, notificationCreator.storedNotifications)
      ensures Finding(url, headers, settings, cookies).Some? ==>
        var a := Admit([Finding(url, headers, settings, cookies).value],
          StoreOf(old(notificationCreator.database.stores), notificationCreator.databaseStoreKey).stamps, TtlMillis(settings), now);
        && StampsWritten(old(notificationCreator.database.stores), notificationCreator.database.stores,
             notificationCreator.databaseStoreKey, a.stamps)
        && notificationCreator.storedNotifications.records == old(notificationCreator.storedNotifications.records)
          + StoredFor(a.admitted, notificationCreator.pluginId, old(notificationCreator.storedNotifications.nextId), now)
        && notificationCreator.storedNotifications.nextId == old(notificationCreator.storedNotifications.nextId) + |a.admitted|
        && alerts == AlertsFor(a.admitted, PriorityFromSetting(settings))
    {
      alerts := [];
      var finding := Finding(url, headers, settings, cookies);
      if finding.None? {
        return;
      }
      alerts := NotifyAll(notificationCreator, [finding.value], TtlMillis(settings), PriorityFromSetting(settings), now);
    }
  }
}
