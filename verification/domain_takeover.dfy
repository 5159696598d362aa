/**
 * The domain-takeover plugin (source/background/plugins/domaintakeover/index.ts): a request
 * from a page that failed because its host does not resolve is checked once per registrable
 * domain, through a DNS-over-HTTPS `NS` query; a Name Error answer (RCODE 3, section 4.1.1 of
 * RFC 1035) means the domain may be unregistered, and is reported.
 */
module DomainTakeover {
  import opened Wrappers
  import opened Values
  import opened OrderedMaps
  import opened Settings
  import opened Notifications
  import opened Plugins
  import opened Reporting
  import opened LruCaches

  const PluginId: string := "DomainTakeover"
  const DohServerKey: string := "dohServer"
  const LruCacheSizeKey: string := "lruCacheSize"
  const UnknownHostError: string := "NS_ERROR_UNKNOWN_HOST"

  /** The RCODE of a Name Error: the queried name does not exist. */
  const NameError: int := 3

  /** `DOH_SERVERS`: the resolver behind each choice of `dohServer`. */
  const DohServers: map<string, string> := map[
    "google" := "https://dns.google/resolve",
    "cloudflare" := "https://cloudflare-dns.com/dns-query"]

  /** `Object.keys(DOH_SERVERS)`, in declaration order. */
  const DohServerNames: seq<string> := ["google", "cloudflare"]

  /** The fields of `_OnErrorOccurredDetails` the plugin reads; an absent field is `None`. */
  datatype RequestError = RequestError(url: string, ip: Option<string>, originUrl: Option<string>, error: string)

  /** What `tldts.parse` reports of an address: whether its host is an IP or private, and its registrable domain. */
  datatype ParsedHost = ParsedHost(isIp: bool, isPrivate: bool, domain: Option<string>)

  /** A string field tested for truthiness: present and not empty. */
  predicate Present(s: Option<string>) {
    s.Some? && s.value != ""
  }

  /** A failed request worth a lookup: the registrable domain to query and the page that made the request. */
  datatype Suspect = Suspect(domain: string, originUrl: string)

  /**
   * The guard chain of `onRequestErrorOccurred` before the cache: only a request that got no
   * IP, came from a page and failed with an unknown host, for a public, non-IP host with a
   * registrable domain, is looked up.
   */
  function Candidate(details: RequestError, parse: string -> ParsedHost): (c: Option<Suspect>)
    ensures c.Some? <==> (!Present(details.ip) && Present(details.originUrl) && details.error == UnknownHostError
      && !parse(details.url).isIp && !parse(details.url).isPrivate && Present(parse(details.url).domain))
    ensures c.Some? ==> c.value == Suspect(parse(details.url).domain.value, details.originUrl.value)
  {
    if Present(details.ip) then None
    else if !Present(details.originUrl) then None
    else if details.error != UnknownHostError then None
    else
      var parsed := parse(details.url);
      if parsed.isIp || parsed.isPrivate || !Present(parsed.domain) then None
      else Some(Suspect(parsed.domain.value, details.originUrl.value))
  }

  /** `${originHostname}:${requestedDomain}`. */
  function TakeoverRateKey(originHostname: string, domain: string): string {
    originHostname + ":" + domain
  }

  /**
   * After the query: `status` is the `Status` of the DoH answer (`None` when the query threw)
   * and `hostnameOf` is `new URL(originUrl).hostname` (`None` when that throws). Only a Name
   * Error is reported, under the origin and the domain.
   */
  function TakeoverReport(suspect: Suspect, status: Option<int>, hostnameOf: string -> Option<string>): (r: Option<Report>)
    ensures r.Some? <==> status == Some(NameError) && hostnameOf(suspect.originUrl).Some?
    ensures r.Some? ==> (r.value.rateKey == TakeoverRateKey(hostnameOf(suspect.originUrl).value, suspect.domain)
      && r.value.url == suspect.originUrl)
  {
    if status.None? || status.value != NameError then None
    else
      var origin := hostnameOf(suspect.originUrl);
      if origin.None? then None
      else Some(Report(TakeoverRateKey(origin.value, suspect.domain), suspect.originUrl,
        "Potential request from " + origin.value + " to an unregistered domain (" + suspect.domain + ")",
        origin.value + " initiated a request to " + suspect.domain
          + ", which may not be registered. This could indicate a vulnerability to domain takeover."))
  }

  /** One page's findings about different domains are rate-limited under different keys. */
  lemma RateKeysSeparateDomains(origin: string, a: string, b: string)
    ensures TakeoverRateKey(origin, a) == TakeoverRateKey(origin, b) <==> a == b
  {
    if TakeoverRateKey(origin, a) == TakeoverRateKey(origin, b) {
      var n := |origin| + 1;
      assert TakeoverRateKey(origin, a)[n..] == a;
      assert TakeoverRateKey(origin, b)[n..] == b;
    }
  }

  /**
   * The resolver a settings record selects: `DOH_SERVERS[dohServer]`; a name outside the table
   * gives `undefined`, which the template string turns into the text `undefined`.
   */
  function DohServerUrl(settings: Record): string {
    match Get(settings, DohServerKey)
    case Str(name) => if name in DohServers then DohServers[name] else "undefined"
    case _ => "undefined"
  }

  /** `getSettingsDefinitions`: the resolver, Cloudflare's by default, and a cache of at least 1024 domains. */
  function PluginDefinitions(): (defs: Definitions)
    ensures WellFormed(defs) && RateLimitKey !in defs.entries && PriorityKey !in defs.entries
  {
    OrderedMap([DohServerKey, LruCacheSizeKey], map[
      DohServerKey := EnumDef(Str("cloudflare"), DohServerNames),
      LruCacheSizeKey := NumberDef(Num(Integral(1024 * 4)), Some(1024), None)])
  }

  /** The factory as the manager registers it: its id and definitions, whose defaults pass strict validation. */
  function Factory(): (f: PluginFactory)
    ensures f.id == PluginId && WellFormed(f.definitions)
    ensures Validate(Schema(f.definitions), Defaults(Schema(f.definitions)), false).Pass?
  {
    DefaultsAccepted();
    PluginFactory(PluginId, PluginDefinitions())
  }

  /** The enum offers exactly the names of the table. */
  lemma ServerNamesListed()
    ensures forall name :: name in DohServerNames <==> name in DohServers
  {
  }

  /** The definitions are an object literal that leaves the suggested settings alone. */
  lemma DefinitionsShape()
    ensures WellFormed(PluginDefinitions())
    ensures RateLimitKey !in PluginDefinitions().entries && PriorityKey !in PluginDefinitions().entries
  {
    assert DohServerKey[0] != LruCacheSizeKey[0];
    assert RateLimitKey[0] != DohServerKey[0] && RateLimitKey[0] != LruCacheSizeKey[0];
    assert PriorityKey[0] != DohServerKey[0] && PriorityKey[0] != LruCacheSizeKey[0];
  }

  /** The defaults of the definitions pass strict validation. */
  lemma DefaultsAccepted()
    ensures var defs := Schema(PluginDefinitions()); Validate(defs, Defaults(defs), false).Pass?
  {
    DefinitionsShape();
    assert "cloudflare" in DohServerNames;
    SchemaDefaultsValid(PluginDefinitions());
  }

  /** Whatever the store holds, a resolved record names one of the two resolvers, Cloudflare's when nothing is stored. */
  lemma ResolvedServer(stored: Option<Record>)
    requires Resolve(Schema(PluginDefinitions()), stored).Success?
    ensures var r := Resolve(Schema(PluginDefinitions()), stored).value;
      Get(r, DohServerKey).Str? && Get(r, DohServerKey).s in DohServers
      && DohServerUrl(r) == DohServers[Get(r, DohServerKey).s]
    ensures stored.None? ==> DohServerUrl(Resolve(Schema(PluginDefinitions()), stored).value) == DohServers["cloudflare"]
  {
    ResolvedServerName(stored);
    ListedServerUrl(Resolve(Schema(PluginDefinitions()), stored).value);
  }

  lemma ResolvedServerName(stored: Option<Record>)
    requires Resolve(Schema(PluginDefinitions()), stored).Success?
    ensures var v := Get(Resolve(Schema(PluginDefinitions()), stored).value, DohServerKey);
      v.Str? && v.s in DohServerNames && (stored.None? ==> v == Str("cloudflare"))
  {
    DefinitionsShape();
    var def := PluginDefinitions().entries[DohServerKey];
    assert CheckValue(def, def.defaultValue, false).None? by {
      assert "cloudflare" in DohServerNames;
    }
    ResolvedOwnValue(PluginDefinitions(), stored, DohServerKey);
  }

  lemma ListedServerUrl(r: Record)
    requires Get(r, DohServerKey).Str? && Get(r, DohServerKey).s in DohServerNames
    ensures Get(r, DohServerKey).s in DohServers && DohServerUrl(r) == DohServers[Get(r, DohServerKey).s]
  {
    ServerNamesListed();
  }

  /** Whatever the store holds, a resolved record gives the cache room for at least 1024 domains. */
  lemma ResolvedCacheSize(stored: Option<Record>)
    requires Resolve(Schema(PluginDefinitions()), stored).Success?
    ensures var size := Get(Resolve(Schema(PluginDefinitions()), stored).value, LruCacheSizeKey);
      size.Num? && size.n.Integral? && size.n.i >= 1024
    ensures stored.None? ==> Get(Resolve(Schema(PluginDefinitions()), stored).value, LruCacheSizeKey) == Num(Integral(4096))
  {
    DefinitionsShape();
    var def := PluginDefinitions().entries[LruCacheSizeKey];
    assert CheckValue(def, def.defaultValue, false).None?;
    ResolvedOwnValue(PluginDefinitions(), stored, LruCacheSizeKey);
  }

  /** A `DomainTakeoverPlugin` instance. */
  class DomainTakeoverPlugin {
    const settings: Record
    const notificationCreator: PluginNotificationCreator
    const lruCache: LruCache
    /** The address of the DoH resolver the instance queries. */
    const resolver: string

    ghost predicate Valid()
      reads lruCache, notificationCreator.storedNotifications
    {
      lruCache.Valid() && notificationCreator.storedNotifications.Valid()
    }

    /** The constructor: the resolver the settings select and an empty cache of `lruCacheSize` domains. */
    constructor(settings: Record, notificationCreator: PluginNotificationCreator)
      requires Get(settings, LruCacheSizeKey).Num? && Get(settings, LruCacheSizeKey).n.Integral?
      requires Get(settings, LruCacheSizeKey).n.i >= 1
      requires notificationCreator.storedNotifications.Valid()
      ensures Valid() && fresh(lruCache) && lruCache.entries == []
      ensures lruCache.maxSize == Get(settings, LruCacheSizeKey).n.i && resolver == DohServerUrl(settings)
      ensures this.settings == settings && this.notificationCreator == notificationCreator
    {
      this.settings := settings;
      this.notificationCreator := notificationCreator;
      resolver := DohServerUrl(settings);
      lruCache := new LruCache(Get(settings, LruCacheSizeKey).n.i);
    }

    /**
     * `onRequestErrorOccurred`. `parse` stands for `tldts.parse`, `query(resolver, domain)` for
     * the `NS` query and the `Status` of its answer (`None` when it throws), `hostnameOf` for
     * `URL` parsing and `now` for the clock; `queried` tells whether the query was sent.
     * A request the guards reject changes nothing; a cached domain is only touched; a new
     * domain is cached before it is queried, and a Name Error is reported through the rate
     * limiter.
     */
    method OnRequestErrorOccurred(details: RequestError, parse: string -> ParsedHost, query: (string, string) -> Option<int>,
                                  hostnameOf: string -> Option<string>, now: int)
      returns (queried: bool, alerts: seq<HostAlert>)
      requires Valid()
      modifies lruCache, notificationCreator.database, notificationCreator.storedNotifications
      ensures Valid()
      ensures Candidate(details, parse).None? ==>
        && !queried && alerts == []
        && unchanged(lruCache, notificationCreator.database, notificationCreator.storedNotifications)
      ensures Candidate(details, parse).Some? && Candidate(details, parse).value.domain in old(lruCache.entries) ==>
        && !queried && alerts == []
        && lruCache.entries == Touch(old(lruCache.entries), Candidate(details, parse).value.domain)
        && unchanged(notificationCreator.database, notificationCreator.storedNotifications)
      ensures queried ==> (Candidate(details, parse).Some? && Candidate(details, parse).value.domain !in old(lruCache.entries)
        && Candidate(details, parse).value.domain in lruCache.entries)
      ensures Candidate(details, parse).Some? && Candidate(details, parse).value.domain !in old(lruCache.entries) ==>
        && queried
        && lruCache.entries == Inserted(old(lruCache.entries), lruCache.maxSize, Candidate(details, parse).value.domain)
        && var suspect := Candidate(details, parse).value;
          var reports := OptionList(TakeoverReport(suspect, query(resolver, suspect.domain), hostnameOf));
          var a := Admit(reports, StoreOf(old(notificationCreator.database.stores), notificationCreator.databaseStoreKey).stamps,
            TtlMillis(settings), now);
          && StampsWritten(old(notificationCreator.database.stores), notificationCreator.database.stores,
               notificationCreator.databaseStoreKey, a.stamps)
          && notificationCreator.storedNotifications.records == old(notificationCreator.storedNotifications.records)
            + StoredFor(a.admitted, notificationCreator.pluginId, old(notificationCreator.storedNotifications.nextId), now)
          && notificationCreator.storedNotifications.nextId == old(notificationCreator.storedNotifications.nextId) + |a.admitted|
          && alerts == AlertsFor(a.admitted, PriorityFromSetting(settings))
    {
      queried := false;
      alerts := [];
      var suspect := Candidate(details, parse);
      if suspect.None? {
        return;
      }
      var domain := suspect.value.domain;
      var hit := lruCache.Get(domain);
      if hit {
        return;
      }
      lruCache.Set(domain);
      queried := true;
      var status := query(resolver, domain);
      var report := TakeoverReport(suspect.value, status, hostnameOf);
      if report.None? {
        assert StampsWritten(old(notificationCreator.database.stores), notificationCreator.database.stores,
          notificationCreator.databaseStoreKey, StoreOf(old(notificationCreator.database.stores), notificationCreator.databaseStoreKey).stamps);
        return;
      }
      alerts := NotifyAll(notificationCreator, [report.value], TtlMillis(settings), PriorityFromSetting(settings), now);
    }
  }

  /**
   * Each domain is queried at most once while cached: the cache after a query of `domain`
   * (`Inserted`, as the handler leaves it) keeps `domain` through any run of fewer than
   * `maxSize` cache accesses for other domains, so the next failure for `domain` meets a hit
   * and sends no query.
   */
  lemma QueriedOnceWhileCached(before: seq<string>, maxSize: nat, domain: string, accesses: seq<Access>)
    requires maxSize >= 1 && Distinct(before)
    requires |accesses| < maxSize
    requires forall i :: 0 <= i < |accesses| ==> accesses[i].key != domain
    ensures domain in Replay(Inserted(before, maxSize, domain), maxSize, accesses)
  {
    InsertedSpec(before, maxSize, domain);
    KeptWhileRecent(Inserted(before, maxSize, domain), maxSize, domain, accesses);
  }

  /** The report, if any, as a run of reports. */
  function OptionList(r: Option<Report>): (s: seq<Report>)
    ensures (r.None? ==> s == []) && (r.Some? ==> s == [r.value])
  {
    if r.Some? then [r.value] else []
  }
}
