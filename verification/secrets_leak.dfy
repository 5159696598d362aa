/**
 * The secrets-leak plugin (source/background/plugins/secretsleak/index.ts): every new chunk
 * of a response body is handed to a worker running `findSecrets`; a chunk already seen is
 * skipped; each finding is rate-limited under a key made of the host, the rule and a hash of
 * the secret, and raises an URGENT notification.
 */
module SecretsLeak {
  import opened Wrappers
  import opened Values
  import opened OrderedMaps
  import opened Settings
  import opened Notifications
  import opened Plugins
  import opened Reporting
  import opened SecretRules
  import opened SecretsWorker

  const PluginId: string := "SecretsLeak"
  const BloomFilterSizeKey: string := "bloomFilterSize"
  const WorkerPoolSizeKey: string := "workerPoolSize"

  /**
   * `Math.max(navigator.hardwareConcurrency || 16, 8)`, the largest pool the settings allow;
   * a `hardwareConcurrency` of 0 stands for a browser that does not report one.
   */
  function MaxWorkers(hardwareConcurrency: nat): (n: int)
    ensures n >= 8 && n >= hardwareConcurrency
    ensures hardwareConcurrency == 0 ==> n == 16
    ensures hardwareConcurrency >= 8 ==> n == hardwareConcurrency
  {
    var reported := if hardwareConcurrency == 0 then 16 else hardwareConcurrency;
    if reported > 8 then reported else 8
  }

  /** `getSettingsDefinitions`: a bloom filter of at least 1024 entries and a worker pool of 1 to `MaxWorkers` workers. */
  function PluginDefinitions(hardwareConcurrency: nat): (defs: Definitions)
    ensures WellFormed(defs) && RateLimitKey !in defs.entries && PriorityKey !in defs.entries
  {
    OrderedMap([BloomFilterSizeKey, WorkerPoolSizeKey], map[
      BloomFilterSizeKey := NumberDef(Num(Integral(1024 * 1024)), Some(1024), None),
      WorkerPoolSizeKey := NumberDef(Num(Integral(8)), Some(1), Some(MaxWorkers(hardwareConcurrency)))])
  }

  /** The factory as the manager registers it: its id and definitions, whose defaults pass strict validation on every browser. */
  function Factory(hardwareConcurrency: nat): (f: PluginFactory)
    ensures f.id == PluginId && WellFormed(f.definitions)
    ensures Validate(Schema(f.definitions), Defaults(Schema(f.definitions)), false).Pass?
  {
    DefaultsAccepted(hardwareConcurrency);
    PluginFactory(PluginId, PluginDefinitions(hardwareConcurrency))
  }

  /**
   * The definitions are an object literal that leaves the suggested settings alone, and their
   * defaults, with the suggested ones, pass strict validation on every browser.
   */
  lemma DefaultsAccepted(hardwareConcurrency: nat)
    ensures WellFormed(PluginDefinitions(hardwareConcurrency))
    ensures RateLimitKey !in PluginDefinitions(hardwareConcurrency).entries
    ensures PriorityKey !in PluginDefinitions(hardwareConcurrency).entries
    ensures var defs := Schema(PluginDefinitions(hardwareConcurrency)); Validate(defs, Defaults(defs), false).Pass?
  {
    var defs := PluginDefinitions(hardwareConcurrency);
    assert BloomFilterSizeKey[0] != WorkerPoolSizeKey[0];
    assert RateLimitKey[0] != BloomFilterSizeKey[0] && RateLimitKey[0] != WorkerPoolSizeKey[0];
    assert PriorityKey[0] != BloomFilterSizeKey[0] && PriorityKey[0] != WorkerPoolSizeKey[0];
    SchemaDefaultsValid(defs);
  }

  /**
   * Whatever the store holds, the settings a plugin instance receives give the bloom filter at
   * least 1024 entries and the pool between 1 and `MaxWorkers` workers.
   */
  lemma ResolvedSizes(hardwareConcurrency: nat, stored: Option<Record>)
    requires Resolve(Schema(PluginDefinitions(hardwareConcurrency)), stored).Success?
    ensures var r := Resolve(Schema(PluginDefinitions(hardwareConcurrency)), stored).value;
      && Get(r, BloomFilterSizeKey).Num? && Get(r, BloomFilterSizeKey).n.Integral?
      && Get(r, BloomFilterSizeKey).n.i >= 1024
      && Get(r, WorkerPoolSizeKey).Num? && Get(r, WorkerPoolSizeKey).n.Integral?
      && 1 <= Get(r, WorkerPoolSizeKey).n.i <= MaxWorkers(hardwareConcurrency)
  {
    var own := PluginDefinitions(hardwareConcurrency);
    DefaultsAccepted(hardwareConcurrency);
    var defs := Schema(own);
    SchemaEntry(own, BloomFilterSizeKey);
    SchemaEntry(own, WorkerPoolSizeKey);
    ResolvedNumberInBounds(defs, stored, BloomFilterSizeKey);
    ResolvedNumberInBounds(defs, stored, WorkerPoolSizeKey);
  }

  /** A digit of a number written in base 10. */
  function Digit(d: nat): char
    requires d < 10
  {
    "0123456789"[d]
  }

  /** A number as a template literal writes it: its decimal digits. */
  function Decimal(n: nat): (s: string)
    ensures s != [] && forall i :: 0 <= i < |s| ==> '0' <= s[i] <= '9'
    ensures |s| == 1 <==> n < 10
  {
    if n < 10 then [Digit(n)] else Decimal(n / 10) + [Digit(n % 10)]
  }

  /**
   * The rate-limit key of one finding on `hostname`, `hash` standing for
   * `murmurhash.v3(secret, 0x69)`.
   */
  function RateKey(hostname: string, f: FoundSecret, hash: string -> nat): (key: string)
    ensures hostname + ":" <= key && |key| > |hostname| + |f.ruleId| + 2
  {
    hostname + ":" + f.ruleId + ":" + Decimal(hash(f.secret))
  }

  /** `handlePotentialNotification` then `notify`: the report of one finding on the page at `url`. */
  function SecretReport(url: Url, f: FoundSecret, hash: string -> nat): (r: Report)
    ensures r.rateKey == RateKey(url.hostname, f, hash) && r.url == url.href
  {
    Report(RateKey(url.hostname, f, hash), url.href,
      "Potential Secret Leak Detected (" + f.ruleId + ")",
      "Possible leak matching \"" + f.description + "\" (" + f.secret + ") found on " + url.hostname + ".")
  }

  function SecretReports(url: Url, found: seq<FoundSecret>, hash: string -> nat): (reports: seq<Report>)
    ensures |reports| == |found| && forall i :: 0 <= i < |found| ==> reports[i] == SecretReport(url, found[i], hash)
  {
    if found == [] then [] else [SecretReport(url, found[0], hash)] + SecretReports(url, found[1..], hash)
  }

  /** A string with no colon that ends two colon-separated strings splits them at the same place. */
  lemma {:induction false} LastFieldSplits(a: string, b: string, x: string, y: string)
    requires ':' !in x && ':' !in y
    requires a + ":" + x == b + ":" + y
    ensures a == b && x == y
  {
    var s := a + ":" + x;
    forall i | |a| < i < |s| ensures s[i] != ':' {
      assert s[i] == x[i - |a| - 1];
    }
    forall i | |b| < i < |s| ensures s[i] != ':' {
      assert s[i] == (b + ":" + y)[i] == y[i - |b| - 1];
    }
    assert s[|a|] == ':' && s[|b|] == (b + ":" + y)[|b|] == ':';
    assert a == s[..|a|] == (b + ":" + y)[..|b|] == b;
    assert x == s[|a| + 1..] == (b + ":" + y)[|b| + 1..] == y;
  }

  /**
   * On one host, two findings share a rate-limit key exactly when they come from the same rule
   * and their secrets hash alike: the hash is written in digits, so it cannot absorb a colon.
   */
  lemma RateKeySeparates(hostname: string, f: FoundSecret, g: FoundSecret, hash: string -> nat)
    ensures RateKey(hostname, f, hash) == RateKey(hostname, g, hash) <==>
      f.ruleId == g.ruleId && hash(f.secret) == hash(g.secret)
  {
    var x := Decimal(hash(f.secret));
    var y := Decimal(hash(g.secret));
    if RateKey(hostname, f, hash) == RateKey(hostname, g, hash) {
      var a := hostname + ":" + f.ruleId;
      var b := hostname + ":" + g.ruleId;
      assert a + ":" + x == b + ":" + y;
      LastFieldSplits(a, b, x, y);
      assert f.ruleId == a[|hostname| + 1..] == b[|hostname| + 1..] == g.ruleId;
      DecimalInjective(hash(f.secret), hash(g.secret));
    }
  }

  /** Different numbers are written differently. */
  lemma {:induction false} DecimalInjective(m: nat, n: nat)
    requires Decimal(m) == Decimal(n)
    ensures m == n
  {
    if m >= 10 {
      var s := Decimal(m);
      assert Digit(m % 10) == s[|s| - 1] == Digit(n % 10);
      assert Decimal(m / 10) == s[..|s| - 1] == Decimal(n / 10);
      DecimalInjective(m / 10, n / 10);
    }
  }

  /**
   * The findings of one chunk come from distinct rules, so every one of them is rate-limited
   * under a key of its own.
   */
  lemma ChunkRateKeysDistinct(url: Url, found: seq<FoundSecret>, hash: string -> nat)
    requires DistinctRuleIds(found)
    ensures var reports := SecretReports(url, found, hash);
      forall i, j :: 0 <= i < j < |reports| ==> reports[i].rateKey != reports[j].rateKey
  {
    var reports := SecretReports(url, found, hash);
    forall i, j | 0 <= i < j < |reports| ensures reports[i].rateKey != reports[j].rateKey {
      RateKeySeparates(url.hostname, found[i], found[j], hash);
    }
  }

  /** A `SecretsLeakPlugin` instance. */
  class SecretsLeakPlugin {
    const settings: Record
    const notificationCreator: PluginNotificationCreator
    /** The pool's worker: the bundled rules, their keyword index and the expressions compiled so far. */
    const worker: RegexRuntime
    const rulesIndex: RulesIndex
    /** The chunks the bloom filter holds. */
    var seenChunks: set<seq<bv8>>
    /** Whether `shutdownPool` has terminated the pool. */
    var poolTerminated: bool

    ghost predicate Valid()
      reads this, worker, notificationCreator.storedNotifications
    {
      worker.Valid() && rulesIndex == RulesMap(worker.rules) && notificationCreator.storedNotifications.Valid()
    }

    /** The constructor: an empty bloom filter and a fresh pool whose worker indexes the bundled rules. */
    constructor(settings: Record, notificationCreator: PluginNotificationCreator, rules: seq<RawRule>)
      requires notificationCreator.storedNotifications.Valid()
      ensures Valid() && fresh(worker)
      ensures this.settings == settings && this.notificationCreator == notificationCreator && worker.rules == rules
      ensures seenChunks == {} && !poolTerminated
    {
      this.settings := settings;
      this.notificationCreator := notificationCreator;
      worker := new RegexRuntime(rules);
      var index := BuildRulesMap(rules);
      rulesIndex := index;
      seenChunks := {};
      poolTerminated := false;
    }

    /** `shutdownPool`. */
    method ShutdownPool()
      modifies this`poolTerminated
      ensures poolTerminated
    {
      poolTerminated := true;
    }

    /**
     * `onResponseBodyReceived` on one chunk of the body of the page at `url`; `decode`, `search`,
     * `find` and `log2` are the worker's collaborators as in `FindSecrets`, `hash` is murmurhash
     * and `now` the clock. An empty or already seen chunk is dropped; a new chunk is recorded
     * and scanned, and its findings go through the rate limiter as URGENT notifications.
     */
    method OnResponseBodyReceived(url: Url, data: seq<bv8>, decode: seq<bv8> -> string, search: string -> seq<seq<string>>,
                                  find: (string, string) -> string, log2: real -> real, hash: string -> nat, now: int)
      returns (alerts: seq<HostAlert>)
      requires Valid()
      modifies this`seenChunks, worker, notificationCreator.database, notificationCreator.storedNotifications
      ensures Valid()
      ensures data == [] ==> seenChunks == old(seenChunks)
      ensures data != [] ==> seenChunks == old(seenChunks) + {data}
      ensures data == [] || data in old(seenChunks) ==>
        && alerts == [] && unchanged(worker)
        && unchanged(notificationCreator.database, notificationCreator.storedNotifications)
      ensures data != [] && data !in old(seenChunks) ==>
        && IndexFits(rulesIndex, |worker.rules|)
        && var reports := SecretReports(url, Findings(worker.rules, rulesIndex, search(decode(data)), decode(data), find, log2), hash);
          var a := Admit(reports, StoreOf(old(notificationCreator.database.stores), notificationCreator.databaseStoreKey).stamps,
            TtlMillis(settings), now);
          && StampsWritten(old(notificationCreator.database.stores), notificationCreator.database.stores,
               notificationCreator.databaseStoreKey, a.stamps)
          && notificationCreator.storedNotifications.records == old(notificationCreator.storedNotifications.records)
            + StoredFor(a.admitted, notificationCreator.pluginId, old(notificationCreator.storedNotifications.nextId), now)
          && notificationCreator.storedNotifications.nextId == old(notificationCreator.storedNotifications.nextId) + |a.admitted|
          && alerts == AlertsFor(a.admitted, Urgent)
    {
      alerts := [];
      if |data| == 0 {
        return;
      }
      if data in seenChunks {
        return;
      }
      seenChunks := seenChunks + {data};
      var secrets := FindSecrets(worker, rulesIndex, data, decode, search, find, log2);
      if |secrets| == 0 {
        return;
      }
      alerts := NotifyAll(notificationCreator, SecretReports(url, secrets, hash), TtlMillis(settings), Urgent, now);
    }
  }

  /** `SecretsLeakPluginFactory`: it remembers the last instance it built and stops that one's pool before building the next. */
  class SecretsLeakPluginFactory {
    /** The rules bundled with the extension. */
    const rules: seq<RawRule>
    var latestInstance: SecretsLeakPlugin?

    constructor(rules: seq<RawRule>)
      ensures this.rules == rules && latestInstance == null
    {
      this.rules := rules;
      latestInstance := null;
    }

    /** `newInstance`: the previous instance's pool is terminated and the new instance becomes the latest. */
    method NewInstance(settings: Record, notificationCreator: PluginNotificationCreator) returns (p: SecretsLeakPlugin)
      requires notificationCreator.storedNotifications.Valid()
      modifies this, latestInstance
      ensures fresh(p) && fresh(p.worker) && p.Valid() && latestInstance == p
      ensures p.settings == settings && p.notificationCreator == notificationCreator && p.worker.rules == rules
      ensures p.seenChunks == {} && !p.poolTerminated
      ensures old(latestInstance) != null ==> old(latestInstance).poolTerminated
    {
      if latestInstance != null {
        latestInstance.ShutdownPool();
      }
      p := new SecretsLeakPlugin(settings, notificationCreator, rules);
      latestInstance := p;
    }
  }
}
