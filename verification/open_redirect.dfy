/**
 * The open-redirect plugin (source/background/plugins/openredirect/index.ts): a 3xx response
 * whose `Location` leads to another host is reported when that host (with its path, unless
 * the path is `/`) appears in the path or the query of the address that redirected.
 */
module OpenRedirect {
  import opened Wrappers
  import opened Values
  import opened OrderedMaps
  import opened Settings
  import opened Notifications
  import opened Plugins
  import opened Reporting

  const PluginId: string := "OpenRedirect"
  const OnlyGetRequestsKey: string := "onlyGetRequests"
  const LocationHeader: string := "location"

  /** `statusCode >= 300 && statusCode < 400`. */
  predicate IsRedirect(status: int) {
    300 <= status < 400
  }

  /** `redirectPartialString`: the target's host, followed by its path unless that is `/`. */
  function PartialString(location: Url): (p: string)
    ensures location.pathname == "/" ==> p == location.hostname
    ensures location.pathname != "/" ==> p == location.hostname + location.pathname
  {
    if location.pathname != "/" then location.hostname + location.pathname else location.hostname
  }

  /** The notification text: the two hosts and the address that redirected. */
  function RedirectMessage(url: Url, location: Url): string {
    "Potential external redirect: The site redirected from '" + url.hostname + "' to a different domain '"
      + location.hostname + "' present in the origin url ('" + url.href
      + "'). Review if this redirect is intended and secure."
  }

  /**
   * `onResponseHeadersReceived` up to the lock: the report for a response to a `requestMethod`
   * request for `url` with status `status`, if any. `resolve(location, base)` is
   * `new URL(location, base)`, `None` when that throws.
   */
  function Finding(url: Url, requestMethod: string, status: int, headers: Option<seq<Header>>, settings: Record,
                   resolve: (string, string) -> Option<Url>): (r: Option<Report>)
    ensures r.Some? ==> headers.Some? && IsRedirect(status) && (Truthy(Get(settings, OnlyGetRequestsKey)) ==> requestMethod == "GET")
    ensures r.Some? ==> r.value.rateKey == url.hostname && r.value.url == url.href
    ensures r.Some? ==> r.value.title == "Potential External Redirect (" + url.hostname + ")"
  {
    if headers.None? then None
    else if Truthy(Get(settings, OnlyGetRequestsKey)) && requestMethod != "GET" then None
    else if !IsRedirect(status) then None
    else
      var location := HeaderValue(headers.value, LocationHeader);
      if location.None? || location.value == "" then None
      else
        var target := resolve(location.value, url.href);
        if target.None? || url.hostname == target.value.hostname then None
        else
          var partial := PartialString(target.value);
          if !Contains(url.pathname, partial) && !Contains(url.search, partial) then None
          else Some(Report(url.hostname, url.href, "Potential External Redirect (" + url.hostname + ")",
            RedirectMessage(url, target.value)))
  }

  /** What `includes` finds, its prefixes are found too. */
  lemma ContainsPrefix(text: string, a: string, b: string)
    requires Contains(text, a + b)
    ensures Contains(text, a)
  {
    ContainsSpec(text, a + b);
    var i :| OccursAt(text, a + b, i);
    assert text[i..i + |a|] == (a + b)[..|a|] == a;
    assert OccursAt(text, a, i);
    ContainsSpec(text, a);
  }

  /**
   * A report is raised exactly for a response with headers, allowed by the GET filter, with a
   * 3xx status and a non-empty `Location` that resolves to another host whose partial string
   * the original path or query contains; the target's host itself then appears there.
   */
  lemma ReportedTargetEchoed(url: Url, requestMethod: string, status: int, headers: Option<seq<Header>>, settings: Record,
                             resolve: (string, string) -> Option<Url>)
    ensures Finding(url, requestMethod, status, headers, settings, resolve).Some? <==>
      && headers.Some? && (Truthy(Get(settings, OnlyGetRequestsKey)) ==> requestMethod == "GET") && IsRedirect(status)
      && var location := HeaderValue(headers.value, LocationHeader);
      && location.Some? && location.value != ""
      && var target := resolve(location.value, url.href);
      && target.Some? && target.value.hostname != url.hostname
      && (Contains(url.pathname, PartialString(target.value)) || Contains(url.search, PartialString(target.value)))
    ensures Finding(url, requestMethod, status, headers, settings, resolve).Some? ==>
      var target := resolve(HeaderValue(headers.value, LocationHeader).value, url.href).value;
      Contains(url.pathname, target.hostname) || Contains(url.search, target.hostname)
  {
    if Finding(url, requestMethod, status, headers, settings, resolve).Some? {
      var target := resolve(HeaderValue(headers.value, LocationHeader).value, url.href).value;
      var partial := PartialString(target);
      if target.pathname != "/" {
        if Contains(url.pathname, partial) {
          ContainsPrefix(url.pathname, target.hostname, target.pathname);
        } else {
          ContainsPrefix(url.search, target.hostname, target.pathname);
        }
      }
    }
  }

  /** With the GET filter off, the request method makes no difference. */
  lemma MethodIgnoredWithoutFilter(url: Url, m1: string, m2: string, status: int, headers: Option<seq<Header>>,
                                   settings: Record, resolve: (string, string) -> Option<Url>)
    requires !Truthy(Get(settings, OnlyGetRequestsKey))
    ensures Finding(url, m1, status, headers, settings, resolve) == Finding(url, m2, status, headers, settings, resolve)
  {
  }

  /** `getSettingsDefinitions`: the GET filter, on by default. */
  function PluginDefinitions(): (defs: Definitions)
    ensures WellFormed(defs) && RateLimitKey !in defs.entries && PriorityKey !in defs.entries
  {
    OrderedMap([OnlyGetRequestsKey], map[OnlyGetRequestsKey := BooleanDef(Bool(true))])
  }

  /** The factory as the manager registers it: its id and definitions, whose defaults pass strict validation. */
  function Factory(): (f: PluginFactory)
    ensures f.id == PluginId && WellFormed(f.definitions)
    ensures Validate(Schema(f.definitions), Defaults(Schema(f.definitions)), false).Pass?
  {
    DefaultsAccepted();
    PluginFactory(PluginId, PluginDefinitions())
  }

  /** The definitions are an object literal that leaves the suggested settings alone, and their defaults pass strict validation. */
  lemma DefaultsAccepted()
    ensures WellFormed(PluginDefinitions())
    ensures RateLimitKey !in PluginDefinitions().entries && PriorityKey !in PluginDefinitions().entries
    ensures var defs := Schema(PluginDefinitions()); Validate(defs, Defaults(defs), false).Pass?
  {
    assert RateLimitKey[0] != OnlyGetRequestsKey[0] && PriorityKey[0] != OnlyGetRequestsKey[0];
    SchemaDefaultsValid(PluginDefinitions());
  }

  /** Whatever the store holds, a resolved record has a boolean GET filter, on when nothing is stored. */
  lemma ResolvedFilter(stored: Option<Record>)
    requires Resolve(Schema(PluginDefinitions()), stored).Success?
    ensures Get(Resolve(Schema(PluginDefinitions()), stored).value, OnlyGetRequestsKey).Bool?
    ensures stored.None? ==> Get(Resolve(Schema(PluginDefinitions()), stored).value, OnlyGetRequestsKey) == Bool(true)
  {
    DefaultsAccepted();
    ResolvedOwnValue(PluginDefinitions(), stored, OnlyGetRequestsKey);
  }

  /** An `OpenRedirectPlugin` instance. */
  class OpenRedirectPlugin {
    const settings: Record
    const notificationCreator: PluginNotificationCreator

    constructor(settings: Record, notificationCreator: PluginNotificationCreator)
      ensures this.settings == settings && this.notificationCreator == notificationCreator
    {
      this.settings := settings;
      this.notificationCreator := notificationCreator;
    }

    /**
     * `onResponseHeadersReceived`; `resolve` stands for `URL` parsing and `now` for the clock.
     * The guard chain is `Finding`; its report, if any, goes through the rate limiter.
     */
    method OnResponseHeadersReceived(url: Url, requestMethod: string, status: int, headers: Option<seq<Header>>,
                                     resolve: (string, string) -> Option<Url>, now: int)
      returns (alerts: seq<HostAlert>)
      requires notificationCreator.storedNotifications.Valid()
      modifies notificationCreator.database, notificationCreator.storedNotifications
      ensures notificationCreator.storedNotifications.Valid()
      ensures Finding(url, requestMethod, status, headers, settings, resolve).None? ==>
        alerts == [] && unchanged(notificationCreator.database, notificationCreator.storedNotifications)
      ensures Finding(url, requestMethod, status, headers, settings, resolve).Some? ==>
        var a := Admit([Finding(url, requestMethod, status, headers, settings, resolve).value],
          StoreOf(old(notificationCreator.database.stores), notificationCreator.databaseStoreKey).stamps, TtlMillis(settings), now);
        && StampsWritten(old(notificationCreator.database.stores), notificationCreator.database.stores,
             notificationCreator.databaseStoreKey, a.stamps)
        && notificationCreator.storedNotifications.records == old(notificationCreator.storedNotifications.records)
          + StoredFor(a.admitted, notificationCreator.pluginId, old(notificationCreator.storedNotifications.nextId), now)
        && notificationCreator.storedNotifications.nextId == old(notificationCreator.storedNotifications.nextId) + |a.admitted|
        && alerts == AlertsFor(a.admitted, PriorityFromSetting(settings))
    {
      alerts := [];
      var finding := Finding(url, requestMethod, status, headers, settings, resolve);
      if finding.None? {
        return;
      }
      alerts := NotifyAll(notificationCreator, [finding.value], TtlMillis(settings), PriorityFromSetting(settings), now);
    }
  }
}
