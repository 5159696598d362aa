# autowwwtest core, modelled in Dafny

autowwwtest is a browser extension that watches the traffic of the pages a user visits and
reports likely security problems as stored notifications and desktop alerts. This project
models its background core:

- **the plugin manager** (`Plugins`, `Settings`). It covers:
  - the four-variant settings schema, with the two suggested settings every plugin inherits;
  - lenient and strict validation, and the merge of stored overrides over defaults;
  - each plugin's enabled flag and settings record in its own object store;
  - the TTL rate limiter and `createNotification`;
  - the registry, the reload that rebuilds the active plugins, and `initializePluginsManager`.
- **the worker API** (`WorkerApi`). It covers the `getPlugins`, `togglePlugin`,
  `updatePluginSettings`, `resetPlugin` and `getNotifications` handlers, and the listener that
  routes a message to one of them.
- **the notification store** (`Notifications`). It covers the append-only records with
  store-assigned ids, and the newest-first, filtered, offset/limit cursor reads.
- **the secret-leak pipeline**. It covers:
  - the keyword index of the rules (`SecretRules`);
  - the lazily compiled regular expressions;
  - the character counting of `shannonEntropy`;
  - the scan of `findSecrets`, which tests each rule id at most once (`SecretsWorker`);
  - the plugin's chunk deduplication, rate keys and pool replacement (`SecretsLeak`);
  - the Python script that normalises imported gitleaks rules (`RuleImport`).
- **the four heuristic detectors**. These are dot-file exposure (`DotFilesLeak`), CORS
  misconfiguration (`CorsMisconfig`), open redirect (`OpenRedirect`) and domain takeover
  (`DomainTakeover`). They share the header lookup and the rate-limit-then-notify step
  (`Reporting`), and an LRU seen-set (`LruCaches`).

The model has two flavours:

- **Pure decision logic is written as functions**, with lemmas about them. This covers
  validation, classification, guard chains, the keyword index and the reload outcome.
- **Code that updates state is written as classes and methods**, each proved against those
  functions. This covers the object store, the notification store, the LRU cache, the regex
  id cache, the bloom filter, the active-plugin map and the handlers.

Collaborators are passed in as parameters. These are `Date.now()`, URL parsing, `tldts`, the DoH
query, `fetch`, the cookie store, Go's `FindString`, the Aho-Corasick search, `Math.log2`,
murmurhash and `TextDecoder`. JavaScript values are a `Value` datatype, because validation
inspects runtime types: `undefined`, `null`, booleans, numbers (integral, fractional, infinite,
NaN), strings and objects. Settings definitions are ordered maps, because `Object.entries`
order decides which error validation throws first.

Behaviour of the code that the model keeps as it is:

- **Duplicate plugin ids.** `initializePluginsManager` compares the id set's size with itself,
  so its duplicate check never fires. A list that repeats an id is accepted, and the registry
  keeps the last factory under that id (see Findings). The intended check is modelled beside
  it and proved correct.
- **Invalid stored values.** A stored record is spread over the defaults, and the merge must
  pass strict validation, or reading the settings throws. An invalid stored value does not
  fall back to its default.
- **Which check is strict.** `setSettings` validates leniently. Strict validation happens when
  the settings are read back.
- **Releasing old instances on reload.** Only the secret-leak factory terminates the pool of
  the instance it replaces. The other plugins keep no resources.
- **Muted and disabled rules.** The secret rules have no muted or disabled state.
- **Partial updates.** A command writes the store first and then reloads. A failing reload does
  not undo the write, and the model states this.
- **The dot-file defaults.** The `DotFilesLeak` factory registers its definitions as written,
  with three toggle defaults left `undefined` (see Findings). The corrected table is modelled
  beside it.
- **Fetching past the end.** `fetchNotifications` does not assign the cursor that `advance`
  resolves to. With a positive limit, an offset equal to or beyond the number of records
  therefore rejects instead of returning an empty page (see Findings).

## Model

| member | source | states |
|---|---|---|
| Settings.SuggestionsPresent | source/background/pluginsManager.ts:51-65 | Every plugin's schema holds `suggestedNotificationRateLimit` and `suggestedNotificationPriority`, first and in that order. A plugin's own definition under one of those keys wins, and every other definition of the plugin is kept unchanged. |
| OrderedMaps.PutSpec | source/background/pluginsManager.ts:110-112 | Setting a key on an object stores the value, keeps the existing keys in their order, and adds a new key at the end only. |
| OrderedMaps.SpreadShape | source/background/pluginsManager.ts:63 | `{...base, ...over}` is a well-formed object whose first keys are `base`'s, in their own order. |
| OrderedMaps.SpreadKeys | source/background/pluginsManager.ts:63 | The spread has exactly the keys of both sides. |
| OrderedMaps.SpreadEntries | source/background/pluginsManager.ts:63 | In the spread, a key of `over` holds `over`'s value, and every other key keeps `base`'s. |
| Settings.SchemaEntry | source/background/pluginsManager.ts:51-65 | A key is in the schema iff it is one of the two suggested keys or a key of the plugin. Its definition is the plugin's own, else the suggested one (number, min 0, default 60; enum silent/regular/urgent, default regular). |
| Settings.Schema | source/background/pluginsManager.ts:51-65 | The spread of the plugin's definitions over the suggested ones is again a well-formed ordered object. |
| Settings.DefaultsSpec | source/background/pluginsManager.ts:106-115 | The default record maps exactly the definition keys, each to its own `default`. |
| Settings.DefaultsOverSpec | source/background/pluginsManager.ts:110-112 | The loop over the entries builds a record whose keys are exactly the listed keys, each holding its definition's default. |
| Settings.CheckValue | source/background/pluginsManager.ts:123-191 | `undefined` passes iff lenient. Any other value passes iff it has the definition's type and meets its constraints: a boolean is a boolean; a number is a safe integer within inclusive `min`/`max`; a string passes its pattern; an enum value is a string among `values`. Infinite and NaN numbers fail as not finite, and fractions as not safe integers. |
| Settings.ValidateKeysSpec | source/background/pluginsManager.ts:117-194 | Validation passes iff every defined key's value passes its definition. On failure, the error names the first key, in definition order, that does not pass, and every earlier key passes. |
| Settings.ValidateKeysError | source/background/pluginsManager.ts:117-194 | A thrown error names a defined key and the exact check that key's value failed. |
| Settings.ValidateSpec | source/background/pluginsManager.ts:117-194 | For a schema: validation passes iff every defined key is accepted. |
| Settings.ExtraKeysIgnored | source/background/pluginsManager.ts:120-121 | Validation only looks at defined keys: adding an undefined-in-schema key to the record never changes the verdict. |
| Settings.StrictIsLenientWithoutMissing | source/background/pluginsManager.ts:123-128 | Strict validation passes iff lenient validation passes and no defined key is `undefined`. |
| Settings.Resolve | source/background/pluginsManager.ts:205-217 | With nothing stored, the defaults are returned unvalidated. Whenever stored settings resolve, the result passes strict validation. |
| Settings.ResolveMerges | source/background/pluginsManager.ts:205-217 | With a stored record, resolution succeeds iff defaults+stored passes strict validation. The result then has exactly the keys of both: a stored value wins, and a defined key that is not stored gets its default. |
| Settings.ResolveIdempotent | source/background/pluginsManager.ts:205-217 | Storing a resolved record and resolving again gives the same record back. |
| Settings.ResolveStoredDefaults | source/background/pluginsManager.ts:205-217 | Storing the record of defaults resolves, to the defaults, iff every default passes strict validation. |
| Settings.DefaultsValid | source/background/pluginsManager.ts:106-128 | Strict validation accepts the defaults iff every default passes its own definition. |
| Settings.SchemaDefaultsValid | source/background/pluginsManager.ts:51-65 | A schema's defaults pass strict validation iff the plugin's own defaults do, because the suggested defaults always pass. |
| Settings.ResolvedValuePasses | source/background/pluginsManager.ts:205-217 | Whatever is stored, a resolved record holds, under every key with a valid default, a value that passes that key's definition strictly. |
| Settings.ResolveEmptyStored | source/background/pluginsManager.ts:205-217 | A stored `{}` resolves iff the defaults pass strict validation. When it fails, the error is at a key whose own default is refused, for the reason it is refused. |
| Settings.ResolvedOwnValue | source/background/pluginsManager.ts:205-217 | A plugin's own setting with a valid default reads, from any resolved record, as a value that passes its definition. With nothing stored it reads as its default. |
| Settings.ResolvedNumberInBounds | source/background/pluginsManager.ts:139-165 | A resolved number setting with a valid default is a safe integer within its inclusive bounds. |
| Settings.AcceptedRecordsResolve | source/background/pluginsManager.ts:196-217 | With valid defaults, every record `setSettings` accepts (holding no `undefined`) resolves, to defaults+record. |
| Plugins.StoreNameInjective | source/background/pluginsManager.ts:296-302 | Different plugin ids get different `plugin_store:` object stores. |
| Plugins.TtlKeySeparate | source/background/pluginsManager.ts:227-231 | A `plugin_notification_ttl:` key never equals `is_enabled` or `plugin_settings`, and different notification keys give different TTL keys. So the three kinds of entry in a plugin store never collide. |
| Plugins.CreatePluginStoreByPlugin | source/background/pluginsManager.ts:301-309 | The plugin's store exists afterwards. An existing store is kept as it was, and a missing one is created empty. |
| Plugins.EnabledByDefault | source/background/pluginsManager.ts:98-104 | A plugin whose flag was never stored is enabled, and after `setEnabled(b)` the plugin is enabled exactly when `b`. |
| Plugins.AlertFor | source/background/pluginsManager.ts:276-292 | No host alert iff the priority is SILENT. An alert carries the notification's title and description, at level 2 iff URGENT and at level 0 iff REGULAR. |
| Plugins.PriorityFromSetting | source/background/plugins/corsmisconfig/index.ts:111-116 | The detectors' priority is SILENT iff `suggestedNotificationPriority` is `'silent'`, and is never URGENT, even for `'urgent'`. |
| Plugins.RateLimit | source/background/pluginsManager.ts:250-274 | A notification is allowed iff TTL ≤ 0, or no (or a zero) stamp is stored, or at least TTL has passed since the stamp. The stamp becomes `now` exactly when a positive TTL allows, and is otherwise unchanged. |
| Plugins.RateLimitSpacing | source/background/pluginsManager.ts:250-274 | With a positive TTL, after a notification is allowed at `t1`, the next one under the same key is allowed iff `t2 - t1 >= TTL`. |
| Plugins.PluginNotificationCreator.NotificationRateLimitWithTtl | source/background/pluginsManager.ts:227-274 | Returns the `RateLimit` decision on the stamp stored under `plugin_notification_ttl:`+key. Only that stamp of this plugin's store is written, and only when a positive TTL allows. |
| Plugins.PluginNotificationCreator.CreateNotification | source/background/pluginsManager.ts:276-292 | Always appends one notification with this plugin's id and time `now`, under the next key. Returns exactly the alert `AlertFor` gives. |
| Plugins.PluginStoreManager.AllDefinitions | source/background/pluginsManager.ts:107 | The definitions the manager validates against are the plugin's schema, and are well formed. |
| Plugins.PluginStoreManager.SetEnabled | source/background/pluginsManager.ts:102-104 | Only this plugin's flag changes, and `isEnabled` then returns the new flag. |
| Plugins.PluginStoreManager.BuildDefaultSettings | source/background/pluginsManager.ts:106-115 | The record has both suggested keys and every key of the plugin, each holding its default. A suggested key the plugin does not redefine gets 60 or `'regular'`. |
| Plugins.PluginStoreManager.SetSettings | source/background/pluginsManager.ts:196-199 | The record is validated leniently first. A rejected record leaves the store unchanged; an accepted one replaces the stored record whole. |
| Plugins.PluginStoreManager.GetSettingsWithDefaults | source/background/pluginsManager.ts:205-217 | Returns the resolution of the stored record, if any, against the schema. |
| Plugins.PluginStoreManager.NewPluginInstance | source/background/pluginsManager.ts:201-203 | Returns a fresh instance holding the resolved settings and this plugin's notification creator, or the resolution's error. |
| Plugins.RegistryShape | source/background/pluginsManager.ts:311-323 | The registry `Map` holds one entry per distinct plugin id, and nothing else. |
| Plugins.RegistryLastWins | source/background/pluginsManager.ts:311-323 | The entry under an id is the last factory in the list with that id. |
| Plugins.AsWrittenGuardMissesDuplicate | source/background/pluginsManager.ts:364-368 | Every factory list passes the guard as written. When two factories share an id, the registry has fewer keys than the list has factories, and each id holds the last factory with that id. |
| Plugins.ConflictGuardSpec | source/background/pluginsManager.ts:364-368 | The intended guard (set size differs from list length) fires iff two factories share an id. |
| Plugins.ReloadSpec | source/background/pluginsManager.ts:328-338 | A reload succeeds iff every enabled registered plugin's settings resolve. It then holds exactly the enabled plugins, each with its resolved settings. On failure, the error is that of the first enabled plugin, in registry order, that does not resolve. |
| Plugins.ReloadSkips | source/background/pluginsManager.ts:331-334 | A disabled plugin is skipped. |
| Plugins.ReloadAdds | source/background/pluginsManager.ts:336 | An enabled plugin whose settings resolve is added under its id. |
| Plugins.ReloadStops | source/background/pluginsManager.ts:336 | An enabled plugin whose settings fail ends the reload with that error. The instances created so far stay. |
| Plugins.ReloadErrorSticks | source/background/pluginsManager.ts:328-338 | Once the reload has failed, plugins registered later change nothing. |
| Plugins.PluginsManager.constructor | source/background/pluginsManager.ts:311-326 | One store manager and one notification creator per factory, in `Registry` order, and no active plugin. |
| Plugins.PluginsManager.ManagerAgrees | source/background/pluginsManager.ts:98-100 | Each registered manager's flag and resolved settings are those the pure reload step reads from the store. |
| Plugins.PluginsManager.ReloadAllSettings | source/background/pluginsManager.ts:328-338 | The active map is cleared and refilled as `ReloadOver` says. The registry is unchanged, every instance belongs to its registered plugin, and the first failure is raised. |
| Plugins.PluginsManager.InstantiateEnabled | source/background/pluginsManager.ts:331-337 | The loop creates exactly the instances `ReloadOver` describes, in registry order. |
| Plugins.PluginsManager.GetManagedPlugin | source/background/pluginsManager.ts:344-352 | Returns the manager registered under the id, or the not-found error for an unknown id. |
| Plugins.PluginsManager.GetManagedPlugins | source/background/pluginsManager.ts:340-342 | Returns the registered managers in registry order, each under its own plugin id. |
| Plugins.PluginsManager.GetEnabledPlugins | source/background/pluginsManager.ts:354-356 | Returns the active instances in insertion order. |
| Plugins.InitializePluginsManager | source/background/pluginsManager.ts:359-380 | Every plugin's store exists afterwards: existing stores keep their contents, and new ones are empty. Initialisation succeeds iff the reload of `Registry(plugins)` over those stores raises no settings error, and otherwise fails with exactly that error. The duplicate check, as written, never rejects, so a list that repeats an id succeeds under the same condition, with the last factory registered under it. On success the manager holds `Registry(plugins)` and has been reloaded once. |
| Notifications.StoredNotificationsManager.PutNotification | source/background/notificationsManager.ts:23-36 | Appends the record with `timestamp = now` under the next key, and returns that key. Keys stay increasing. |
| Notifications.StoredNotificationsManager.constructor | source/background/notificationsManager.ts:74-94 | The store starts empty, with its key generator at 1. |
| Notifications.StoredNotificationsManager.FetchNotifications | source/background/notificationsManager.ts:38-71 | The cursor loop returns exactly `Fetch` of the selected index: the page at `offset`, at most `limit` long, or the rejection an advance past the end or out of range raises. |
| Notifications.Page | source/background/notificationsManager.ts:58-67 | What a live cursor collects after skipping `offset` records: nothing for `limit ≤ 0` or an offset at or past the end, otherwise `min(limit, remaining)` records, those at positions `max(offset,0)+i` of the ordered view. |
| Notifications.Fetch | source/background/notificationsManager.ts:38-71 | A fetch rejects iff the view is non-empty and the offset is positive and either exceeds `unsigned long` (TypeError) or, with `limit > 0`, reaches past the last record (`continue()` on an exhausted cursor, InvalidStateError). Otherwise it returns the live-cursor page. |
| Notifications.FetchAwaited | source/background/notificationsManager.ts:60-62 | With the advanced cursor awaited, a fetch rejects only for an offset beyond `unsigned long` on a non-empty view, and otherwise returns the page, empty past the end. |
| Notifications.PageOffset | source/background/notificationsManager.ts:60-62 | The offsets of successive pages are never negative for a non-negative page size. |
| Notifications.LoadMoreRejectsAtEnd | source/background/notificationsManager.ts:60-67 | When the records fill `k` pages exactly, all `k` pages succeed, come back whole and the last one is full, and the next fetch, at offset `|view|`, rejects with the cursor past the end. |
| Notifications.AwaitedLoadMoreEnds | source/background/notificationsManager.ts:60-67 | With the advance awaited, the fetch after `k` full pages returns an empty page, and no offset within `unsigned long` rejects. |
| Notifications.SortSpec | source/background/notificationsManager.ts:58 | Ordering keeps exactly the same records and puts them newest first. |
| Notifications.SelectedSpec | source/background/notificationsManager.ts:50-56 | The selection holds exactly the records in the key range, each at most once. |
| Notifications.IndexViewSpec | source/background/notificationsManager.ts:50-58 | A fetch sees exactly the stored records in the range, each once and newest first, so timestamps never increase. |
| Notifications.TimestampsNonIncreasing | source/background/notificationsManager.ts:58 | Along a newest-first sequence, timestamps never increase. |
| Notifications.PageNewestFirst | source/background/notificationsManager.ts:58-67 | A fetched page's timestamps never increase. With `limit > 0`, a fetch succeeds only on an empty view or an offset inside it, and then skips exactly the first `offset` ordered records and returns at most `limit`. |
| Notifications.FilterSpec | source/background/notificationsManager.ts:50-56 | A truthy plugin id makes every successful fetch return only that plugin's records. Null, undefined or `''` covers every stored record. |
| Notifications.SelectedAll | source/background/notificationsManager.ts:53-56 | Without a truthy plugin id, the selection is every record. |
| Notifications.PagesConcatenate | source/background/notificationsManager.ts:58-67 | Fetching `k` pages at offsets 0, limit, 2·limit, … succeeds iff the view is empty, `k ≤ 1`, or the last offset is inside the view and within `unsigned long`. The pages then concatenate to the ordered records from the start, with no gap. |
| Notifications.PagesApart | source/background/notificationsManager.ts:60-66 | What a live cursor collects at offset ranges that do not overlap shares no record. |
| Notifications.PagesDisjoint | source/background/notificationsManager.ts:60-66 | Live-cursor pages at different multiples of `limit` are pairwise disjoint. |
| Notifications.DefaultFetch | source/background/notificationsManager.ts:38-42 | With the defaults (limit 10, offset 0), a fetch never rejects and returns the ten newest records. |
| Reporting.HeaderValue | source/background/plugins/corsmisconfig/index.ts:29-32 | Returns the value of the first header whose name matches ignoring case, or `undefined` when none matches. |
| Reporting.HeaderValueIgnoresCase | source/background/plugins/openredirect/index.ts:23-26 | The lookup gives the same answer however the caller spells the header name. |
| Reporting.ContainsSpec | source/background/plugins/openredirect/index.ts:60 | `includes` holds iff the part occurs at some position of the text. |
| Reporting.ResolvedRateLimit | source/background/plugins/corsmisconfig/index.ts:97 | Every record handed to a plugin that inherits the suggested rate limit holds a whole number of minutes ≥ 0. The TTL is that number × 60000 ms. |
| Reporting.RateLimitInherited | source/background/pluginsManager.ts:51-63 | A plugin that does not define `suggestedNotificationRateLimit` inherits the suggested definition. |
| Reporting.DefaultRateLimit | source/background/pluginsManager.ts:53-57 | The inherited default rate limit is 60 minutes. |
| Reporting.StrictRateLimit | source/background/pluginsManager.ts:139-162 | A record that passes strict validation holds a whole rate limit ≥ 0. |
| Reporting.AdmitWithoutTtl | source/background/pluginsManager.ts:251-253 | With TTL ≤ 0 every finding is admitted, and no stamp is written. |
| Reporting.AdmitOncePerKey | source/background/pluginsManager.ts:250-274 | Under a positive TTL, a run of findings admits at most one per rate key, and only findings of the run. Every admitted key is stamped with `now`. |
| Reporting.StoredForSpec | source/background/pluginsManager.ts:276-292 | Each admitted finding is stored once, in order, under the plugin's id, with consecutive ids and time `now`. |
| Reporting.AlertsForSpec | source/background/pluginsManager.ts:282-289 | A SILENT plugin raises no alert. Otherwise each admitted finding raises its own alert, in order. |
| Reporting.NotifyOne | source/background/plugins/corsmisconfig/index.ts:90-122 | One finding: the rate limiter decides on its key's stamp. If the finding is admitted, one notification is appended and the priority's alert is returned. If not, nothing is stored. |
| Reporting.NotifyAll | source/background/plugins/secretsleak/index.ts:65-89 | Over a run of findings: the stamps, the stored notifications and the returned alerts are exactly those `Admit`, `StoredFor` and `AlertsFor` give. |
| LruCaches.InsertedSpec | source/background/plugins/domaintakeover/index.ts:68 | After `set`, the key is present and most recently used. The cache holds at most `maxSize` distinct keys. |
| LruCaches.InsertedKeys | source/background/plugins/domaintakeover/index.ts:68 | A `set` only evicts keys held before, and evicts none while the cache is not full. |
| LruCaches.KeptWhileRecent | source/background/plugins/dotfilesleak/index.ts:88-94 | A stored key stays cached through any run of fewer than `maxSize` accesses to other keys. |
| LruCaches.StepKeeps | source/background/plugins/domaintakeover/index.ts:64-68 | One access to another key, by `get` or `set`, keeps a stored key cached while fewer than `maxSize - 1` keys are more recent. At most one more key then becomes more recent than it. |
| LruCaches.LruCache.constructor | source/background/plugins/dotfilesleak/index.ts:70 | A new cache is empty, with room for `maxSize` keys of size 1. |
| LruCaches.LruCache.Get | source/background/plugins/dotfilesleak/index.ts:90 | A hit iff the key is held. A held key becomes most recently used. |
| LruCaches.LruCache.Set | source/background/plugins/dotfilesleak/index.ts:94 | The key is held afterwards, as `Inserted` gives. |
| DotFilesLeak.SettingsKey | source/background/plugins/dotfilesleak/index.ts:21-23 | The key is `check` followed by the file key, with its first character upper-cased and the rest unchanged. |
| DotFilesLeak.SettingsKeys | source/background/plugins/dotfilesleak/index.ts:25-52 | The four dot files get the toggles `checkGitVcs`, `checkEnvFile`, `checkSvnVcs` and `checkGhVcs`. |
| DotFilesLeak.TogglesLoop | source/background/plugins/dotfilesleak/index.ts:187-192 | The `forEach` adds each toggle as a new key after the three sizes. |
| DotFilesLeak.DefinitionsShape | source/background/plugins/dotfilesleak/index.ts:166-195 | The definitions list the three sizes, then the four toggles, under distinct keys apart from the suggested ones. Each toggle is a boolean carrying its file's default. |
| DotFilesLeak.TableDefaults | source/background/plugins/dotfilesleak/index.ts:166-195 | Every default passes its definition except a toggle default left `undefined`. With boolean toggle defaults, every default passes. |
| DotFilesLeak.AsWrittenDefaultsRejected | source/background/plugins/dotfilesleak/index.ts:187-192 | As written, the defaults fail strict validation. `{}` passes `setSettings`, but resolving it then fails with "missing". |
| DotFilesLeak.UndefinedDefaultRejected | source/background/plugins/dotfilesleak/index.ts:187-192 | Any schema whose only refused defaults are `undefined` toggles accepts `{}` leniently but cannot resolve it. |
| DotFilesLeak.IntendedDefaultsAccepted | source/background/plugins/dotfilesleak/index.ts:187-192 | With the corrected table `IntendedDefinitions` (`false` for the other toggles), the defaults pass strict validation, every record `setSettings` accepts resolves, and only `checkGitVcs` is on by default. |
| DotFilesLeak.ValidDefaultsAccepted | source/background/plugins/dotfilesleak/index.ts:166-195 | A table with valid defaults and the intended toggles resolves every leniently valid record without `undefined`. |
| DotFilesLeak.IntendedOnlyGit | source/background/plugins/dotfilesleak/index.ts:25-31 | Only the first file, `.git/HEAD`, is enabled by default. |
| DotFilesLeak.ActiveDotFiles | source/background/plugins/dotfilesleak/index.ts:71-73 | The kept files are exactly those whose toggle is truthy, in `DOT_FILES` order. |
| DotFilesLeak.FirstMarker | source/background/plugins/dotfilesleak/index.ts:119 | Returns the first marker the body contains, or nothing iff the body contains none of them. |
| DotFilesLeak.MarkerFoundSpec | source/background/plugins/dotfilesleak/index.ts:119-121 | For non-empty markers, the check holds iff the body contains one of them. |
| DotFilesLeak.Probe | source/background/plugins/dotfilesleak/index.ts:101-130 | A file is reported iff its fetch (at `protocol//hostname/filename`) succeeds with status 200 and a marker appears in the body. Its rate key is `hostname:key`. Fetch errors give no report. |
| DotFilesLeak.ProbeReportsSpec | source/background/plugins/dotfilesleak/index.ts:96-98 | A file is reported iff its probe finds it, and there is at most one report per file probed. |
| DotFilesLeak.CollectSpec | source/background/plugins/dotfilesleak/index.ts:96-98 | A report is collected iff some file's probe gives it, and there are no more reports than files. |
| DotFilesLeak.CollectSound | source/background/plugins/dotfilesleak/index.ts:96-98 | Every collected report comes from one of the files. |
| DotFilesLeak.CollectComplete | source/background/plugins/dotfilesleak/index.ts:96-98 | Every file whose probe reports is collected. |
| DotFilesLeak.DotFilesLeakPlugin.constructor | source/background/plugins/dotfilesleak/index.ts:66-75 | An empty cache of `lruCacheSize` origins, and the enabled dot files. |
| DotFilesLeak.DotFilesLeakPlugin.OnResponseHeadersReceived | source/background/plugins/dotfilesleak/index.ts:77-99 | No files, or a scheme other than http(s), changes nothing. A cached `protocol:hostname` is only touched. A new origin is cached before probing, and the hits go through the rate limiter. |
| DotFilesLeak.DotFilesLeakPlugin.ProbeAll | source/background/plugins/dotfilesleak/index.ts:96-98 | The loop probes every enabled file, giving exactly `ProbeReports`. |
| DotFilesLeak.ResolvedSizes | source/background/plugins/dotfilesleak/index.ts:167-185 | For the registered (as-written) definitions, any resolved record has a cache of at least 1024, a concurrency in 8..128 and a timeout in 512..4096 ms. |
| DotFilesLeak.AsWrittenDefinitions | source/background/plugins/dotfilesleak/index.ts:166-195 | The definitions as written are well formed and leave the suggested keys to the plugin manager. |
| DotFilesLeak.IntendedDefinitions | source/background/plugins/dotfilesleak/index.ts:166-195 | The corrected definitions are well formed and leave the suggested keys to the plugin manager. |
| DotFilesLeak.Factory | source/background/plugins/dotfilesleak/index.ts:161-195 | The factory registers `DotFilesLeak` with the as-written definitions, whose defaults fail strict validation. |
| CorsMisconfig.Classify | source/background/plugins/corsmisconfig/index.ts:44-61 | ACAO `*` with ACAC `true` gives INVALID_CREDENTIALS_COMBO. ACAO `*` otherwise gives WILDCARD_ORIGIN. ACAO `null` gives NULL_ORIGIN. Anything else is no issue. Each case holds in both directions. |
| CorsMisconfig.FindCrossSiteSecure | source/background/plugins/corsmisconfig/index.ts:80 | A cookie is found iff some cookie has sameSite `no_restriction` and is secure. The found cookie is such a cookie. |
| CorsMisconfig.Finding | source/background/plugins/corsmisconfig/index.ts:34-88 | A report needs headers and an issue, and is the report of that issue. |
| CorsMisconfig.ReportedExactly | source/background/plugins/corsmisconfig/index.ts:34-88 | A report is raised iff headers are present and show an issue. With `onlyIfAllowCredentials` on, the issue must be the credentials combination. With `onlyIfCookiesArePresent` on, a cross-site secure cookie must exist. |
| CorsMisconfig.FiltersOnlyNarrow | source/background/plugins/corsmisconfig/index.ts:67-83 | Turning a filter on never adds or changes a report. With both filters off, every issue is reported. |
| CorsMisconfig.DefaultFiltersReportOnlyCombo | source/background/plugins/corsmisconfig/index.ts:67-83 | With both filters on (the defaults), only `*` plus `true` on a page with a cross-site secure cookie is reported, under `hostname:invalid_credentials_combo`. |
| CorsMisconfig.IssueRateKeysSeparate | source/background/plugins/corsmisconfig/index.ts:95-96 | The rate key is `hostname:issueType`, and different issues on a host get different keys. |
| CorsMisconfig.DefinitionsShape | source/background/plugins/corsmisconfig/index.ts:130-141 | Both filters are booleans defaulting to true, apart from the suggested keys. |
| CorsMisconfig.DefaultsAccepted | source/background/plugins/corsmisconfig/index.ts:130-141 | The schema's defaults pass strict validation. |
| CorsMisconfig.ResolvedFilters | source/background/plugins/corsmisconfig/index.ts:130-141 | Any resolved record holds booleans for both filters. With nothing stored, both are true. |
| CorsMisconfig.PluginDefinitions | source/background/plugins/corsmisconfig/index.ts:130-141 | The definitions are well formed and leave the suggested keys to the plugin manager. |
| CorsMisconfig.Factory | source/background/plugins/corsmisconfig/index.ts:125-141 | The factory registers `CorsMisconfig` with well-formed definitions whose defaults pass strict validation. |
| CorsMisconfig.CorsMisconfigPlugin.constructor | source/background/plugins/corsmisconfig/index.ts:22-27 | The instance keeps the resolved settings and the plugin's notification creator. |
| CorsMisconfig.CorsMisconfigPlugin.OnResponseHeadersReceived | source/background/plugins/corsmisconfig/index.ts:34-122 | Without a finding, nothing changes. With one, it goes through the rate limiter under its key, at the priority the setting maps to. |
| OpenRedirect.Finding | source/background/plugins/openredirect/index.ts:28-69 | A report needs headers, a 3xx status and the GET filter satisfied. Its rate key is the original hostname alone. |
| OpenRedirect.ReportedTargetEchoed | source/background/plugins/openredirect/index.ts:28-62 | A report is raised iff all of the following hold: headers are present; the GET filter is satisfied; the status is 300–399; a non-empty `Location` resolves to another host; the original path or query contains the partial string. The target's host then appears in the path or query. |
| OpenRedirect.MethodIgnoredWithoutFilter | source/background/plugins/openredirect/index.ts:33-35 | With `onlyGetRequests` off, the request method makes no difference. |
| OpenRedirect.DefaultsAccepted | source/background/plugins/openredirect/index.ts:106-113 | `onlyGetRequests` is a boolean defaulting to true, and the defaults pass strict validation. |
| OpenRedirect.ResolvedFilter | source/background/plugins/openredirect/index.ts:106-113 | Any resolved record holds a boolean GET filter, which is on when nothing is stored. |
| OpenRedirect.PluginDefinitions | source/background/plugins/openredirect/index.ts:106-113 | The definitions are well formed and leave the suggested keys to the plugin manager. |
| OpenRedirect.Factory | source/background/plugins/openredirect/index.ts:101-113 | The factory registers `OpenRedirect` with well-formed definitions whose defaults pass strict validation. |
| OpenRedirect.OpenRedirectPlugin.constructor | source/background/plugins/openredirect/index.ts:16-21 | The instance keeps the resolved settings and the plugin's notification creator. |
| OpenRedirect.OpenRedirectPlugin.OnResponseHeadersReceived | source/background/plugins/openredirect/index.ts:28-98 | Without a finding, nothing changes. With one, it goes through the rate limiter under the hostname. |
| DomainTakeover.Candidate | source/background/plugins/domaintakeover/index.ts:33-62 | A lookup happens iff the request has no IP, has an origin URL, and failed with `NS_ERROR_UNKNOWN_HOST`, for a non-IP, non-private host with a registrable domain. |
| DomainTakeover.TakeoverReport | source/background/plugins/domaintakeover/index.ts:72-116 | A report iff the DoH query answered `Status` 3 (RCODE 3, Name Error, section 4.1.1 of RFC 1035). Its key is `originHostname:domain` and its URL the origin. |
| DomainTakeover.RateKeysSeparateDomains | source/background/plugins/domaintakeover/index.ts:89-90 | One origin's findings about different domains get different keys. |
| DomainTakeover.ServerNamesListed | source/background/plugins/domaintakeover/index.ts:123-138 | The enum offers exactly the keys of `DOH_SERVERS`. |
| DomainTakeover.DefinitionsShape | source/background/plugins/domaintakeover/index.ts:132-145 | The definitions are an object literal that leaves the suggested keys alone. |
| DomainTakeover.DefaultsAccepted | source/background/plugins/domaintakeover/index.ts:132-145 | The schema's defaults pass strict validation. |
| DomainTakeover.ResolvedServer | source/background/plugins/domaintakeover/index.ts:29 | Any resolved record names one of the two resolvers, Cloudflare's when nothing is stored. |
| DomainTakeover.ResolvedCacheSize | source/background/plugins/domaintakeover/index.ts:139-143 | Any resolved record gives a cache of at least 1024 domains, 4096 by default. |
| DomainTakeover.PluginDefinitions | source/background/plugins/domaintakeover/index.ts:132-145 | The definitions are well formed and leave the suggested keys to the plugin manager. |
| DomainTakeover.Factory | source/background/plugins/domaintakeover/index.ts:122-145 | The factory registers `DomainTakeover` with well-formed definitions whose defaults pass strict validation. |
| DomainTakeover.DomainTakeoverPlugin.constructor | source/background/plugins/domaintakeover/index.ts:25-31 | The resolver the setting selects, and an empty cache of `lruCacheSize` domains. |
| DomainTakeover.DomainTakeoverPlugin.OnRequestErrorOccurred | source/background/plugins/domaintakeover/index.ts:33-116 | A rejected request changes nothing. A cached domain is only touched and not queried. A new domain is cached before the query, and its report, if any, goes through the rate limiter. |
| DomainTakeover.QueriedOnceWhileCached | source/background/plugins/domaintakeover/index.ts:64-68 | After a query, the domain stays cached through fewer than `lruCacheSize` other lookups, so it is not queried again meanwhile. |
| SecretRules.RuleListingsSpec | source/background/plugins/secretsleak/rules.ts:59-67 | A rule is listed once under each keyword it names, in keyword order. |
| SecretRules.IndexOverSpec | source/background/plugins/secretsleak/rules.ts:59-67 | The index has one entry per listed keyword, holding exactly the rules listed under it, in order. |
| SecretRules.ListingsMembers | source/background/plugins/secretsleak/rules.ts:59-67 | Rule `i` is under keyword `k` iff rule `i` lists `k`. |
| SecretRules.ListingsSorted | source/background/plugins/secretsleak/rules.ts:47-67 | The rules under a keyword keep the raw rule order. |
| SecretRules.RulesMapSpec | source/background/plugins/secretsleak/rules.ts:45-68 | A keyword is a key iff some rule lists it. Every entry is non-empty, holds exactly the rules that list the keyword, and keeps rule order. |
| SecretRules.AllKeywordsSpec | source/background/plugins/secretsleak/rules.ts:70 | The flattened keyword list holds exactly the keywords some rule lists. |
| SecretRules.AutomatonKeywords | source/background/plugins/secretsleak/rules.ts:70 | The automaton searches for exactly the keywords the map has entries for. |
| SecretRules.BuildRulesMap | source/background/plugins/secretsleak/rules.ts:45-68 | The `forEach` over the raw rules builds exactly `RulesMap`. |
| SecretRules.AddRule | source/background/plugins/secretsleak/rules.ts:59-67 | The inner loop pushes or sets one listing per keyword. |
| SecretRules.RegexRuntime.constructor | source/background/plugins/secretsleak/rules.ts:45-55 | The runtime starts with no compiled pattern and no cached rule id. |
| SecretRules.RegexRuntime.Compile | source/libs/re2wasm/re2.go:16-39 | A pattern is registered under the next id, starting from 1. |
| SecretRules.RegexRuntime.Test | source/libs/re2wasm/re2.go:41-70 | The answer is `Matched` applied to the compiled pattern's `FindString`. |
| SecretRules.RegexRuntime.FindSecret | source/background/plugins/secretsleak/rules.ts:48-55 | The first call compiles the rule's pattern and caches its id. Later calls compile nothing and reuse the id. Either way the answer is the pattern's match. |
| SecretRules.CountsShape | source/background/plugins/secretsleak/rules.ts:23-29 | The counts are keyed by exactly the one-character strings that occur. |
| SecretRules.CountsValues | source/background/plugins/secretsleak/rules.ts:26-29 | Each character's count is its number of occurrences. |
| SecretRules.EntropyOfRepetition | source/background/plugins/secretsleak/rules.ts:31-42 | A string of one repeated character has entropy 0, given `log2(1) = 0`. |
| SecretRules.CountChars | source/background/plugins/secretsleak/rules.ts:23-29 | The counting loop builds exactly `CountsOver(data)`. |
| SecretRules.ShannonEntropy | source/background/plugins/secretsleak/rules.ts:18-43 | Returns `Entropy(data)`. The empty string has entropy 0. |
| SecretRules.SumTerms | source/background/plugins/secretsleak/rules.ts:31-40 | The summing loop gives `-Σ freq·log2(freq)` over the counted characters. It sums them in the order they first occur, while `for…in` visits the keys `"0"`–`"9"` first; over reals the order does not matter. |
| SecretsWorker.Verdict | source/background/plugins/secretsleak/secretsWorker.ts:27-38 | A rule contributes iff its match is non-empty and, when `rule.entropy` is truthy, the match's entropy is at least the threshold. The finding carries the rule's id, its description and the match. |
| SecretsWorker.ScanConsistent | source/background/plugins/secretsleak/secretsWorker.ts:21-25 | The tested set is exactly the ids run, each id runs once, and the result is the harvest of the runs. |
| SecretsWorker.ScanRuns | source/background/plugins/secretsleak/secretsWorker.ts:20-25 | The scan only appends runs, and only candidates. |
| SecretsWorker.ScanTested | source/background/plugins/secretsleak/secretsWorker.ts:21-25 | Every candidate's id ends up tested. |
| SecretsWorker.HarvestSpec | source/background/plugins/secretsleak/secretsWorker.ts:27-38 | Each finding is the verdict of a rule that ran. |
| SecretsWorker.HarvestDistinct | source/background/plugins/secretsleak/secretsWorker.ts:27-38 | Rules run under distinct ids yield findings under distinct ids. |
| SecretsWorker.FindingsDistinct | source/background/plugins/secretsleak/secretsWorker.ts:8-25 | `findSecrets` reports each rule id at most once. |
| SecretsWorker.FindingsFromCandidates | source/background/plugins/secretsleak/secretsWorker.ts:7-20 | Every finding comes from a rule listed under a found keyword. No keyword match gives no finding. |
| SecretsWorker.EachRuleRunOnce | source/background/plugins/secretsleak/secretsWorker.ts:12-36 | Only rules listed under a found keyword are run, and no rule id runs twice. So a rule that found nothing, or failed the entropy check, is not retried under another keyword. |
| SecretsWorker.FindingsTestEveryCandidate | source/background/plugins/secretsleak/secretsWorker.ts:12-25 | Every rule listed under a found keyword is tested. |
| SecretsWorker.TestRules | source/background/plugins/secretsleak/secretsWorker.ts:20-40 | The innermost loop advances the scan state exactly as `ScanOver` does. |
| SecretsWorker.TestKeywords | source/background/plugins/secretsleak/secretsWorker.ts:13-41 | The keyword loop skips unmapped keywords and scans the rules of mapped ones, as `ScanOver` over `KeywordCandidates` does. |
| SecretsWorker.FindSecrets | source/background/plugins/secretsleak/secretsWorker.ts:4-45 | Returns exactly `Findings` of the decoded chunk. |
| SecretsLeak.MaxWorkers | source/background/plugins/secretsleak/index.ts:121 | The pool bound is at least 8 and at least `hardwareConcurrency`. It is 16 when that is 0 (unreported), and equals `hardwareConcurrency` from 8 up. |
| SecretsLeak.DefaultsAccepted | source/background/plugins/secretsleak/index.ts:110-124 | The definitions leave the suggested keys alone, and their defaults pass strict validation on every browser. |
| SecretsLeak.ResolvedSizes | source/background/plugins/secretsleak/index.ts:110-124 | Any resolved record gives the bloom filter at least 1024 entries and the pool 1..`MaxWorkers` workers. |
| SecretsLeak.PluginDefinitions | source/background/plugins/secretsleak/index.ts:110-124 | The definitions are well formed, on every browser, and leave the suggested keys to the plugin manager. |
| SecretsLeak.Factory | source/background/plugins/secretsleak/index.ts:103-124 | The factory registers `SecretsLeak` with well-formed definitions whose defaults pass strict validation. |
| SecretsLeak.Decimal | source/background/plugins/secretsleak/index.ts:76 | A hash in a template literal is a non-empty run of digits. |
| SecretsLeak.DecimalInjective | source/background/plugins/secretsleak/index.ts:76 | Different hashes are written differently. |
| SecretsLeak.LastFieldSplits | source/background/plugins/secretsleak/index.ts:76 | A colon-free last field splits two `a:x` strings at the same place. |
| SecretsLeak.RateKey | source/background/plugins/secretsleak/index.ts:74-77 | The rate key starts with `hostname:` and is longer than the host, the rule id and both separators together. |
| SecretsLeak.RateKeySeparates | source/background/plugins/secretsleak/index.ts:74-77 | On one host, two findings share `hostname:ruleId:hash(secret)` iff they share the rule id and the hash. |
| SecretsLeak.ChunkRateKeysDistinct | source/background/plugins/secretsleak/index.ts:61-77 | The findings of one chunk have pairwise different rate keys. |
| SecretsLeak.SecretReport | source/background/plugins/secretsleak/index.ts:65-97 | A finding's report is rate-limited under its `RateKey` and points at the page's address. |
| SecretsLeak.SecretReports | source/background/plugins/secretsleak/index.ts:66-68 | One report per finding, in order. |
| SecretsLeak.SecretsLeakPlugin.constructor | source/background/plugins/secretsleak/index.ts:28-37 | A new instance has an empty filter of seen chunks and a running pool over the rules. |
| SecretsLeak.SecretsLeakPlugin.ShutdownPool | source/background/plugins/secretsleak/index.ts:39-41 | The pool is terminated. |
| SecretsLeak.SecretsLeakPlugin.OnResponseBodyReceived | source/background/plugins/secretsleak/index.ts:43-97 | An empty or already seen chunk changes nothing. A new chunk is recorded before it is scanned. Its findings go through the rate limiter as URGENT notifications, and no findings means no rate-limit write. |
| SecretsLeak.SecretsLeakPluginFactory.constructor | source/background/plugins/secretsleak/index.ts:104 | The factory starts with no latest instance. |
| SecretsLeak.SecretsLeakPluginFactory.NewInstance | source/background/plugins/secretsleak/index.ts:126-132 | The previous instance's pool is terminated. The new instance, with an empty filter and a running pool, becomes the latest. |
| RuleImport.Reshape | source/background/plugins/secretsleak/update_rules.py:17-30 | An entry has exactly regex, description, id, keywords and entropy, copied from its table. The entropy is absent when the table has none. |
| RuleImport.KeptRulesSpec | source/background/plugins/secretsleak/update_rules.py:10-30 | The output is exactly the reshaped tables that have `regex` and `keywords` and are not `generic-api-key`. |
| RuleImport.KeptRulesAppend | source/background/plugins/secretsleak/update_rules.py:10-30 | Filtering commutes with concatenation, so the output keeps input order. |
| RuleImport.ImportedFails | source/background/plugins/secretsleak/update_rules.py:17-20 | The script fails iff a table it considers lacks `id` or `description`. It then fails with the key missing from the first such table. |
| RuleImport.ImportedKeeps | source/background/plugins/secretsleak/update_rules.py:8-30 | On success, it writes exactly the kept tables, reshaped, in input order. |
| RuleImport.FailureSticks | source/background/plugins/secretsleak/update_rules.py:10-20 | After the first `KeyError`, later tables change nothing. |
| RuleImport.ImportRules | source/background/plugins/secretsleak/update_rules.py:10-30 | The loop gives `Imported` of the `rules` array, and `KeyError('rules')` when there is none. |
| WorkerApi.ViewsSpec | source/background/mainWorkerApi.ts:74-84 | `getPlugins` answers iff every registered plugin's settings resolve. |
| WorkerApi.ViewsEntries | source/background/mainWorkerApi.ts:74-84 | An answer has one entry per registered plugin, in registry order, with its id, flag, resolved settings and schema. |
| WorkerApi.ViewsFirstFailure | source/background/mainWorkerApi.ts:74-84 | A rejection carries the error of the first registered plugin whose settings fail to resolve. |
| WorkerApi.ViewsAgreeWithReload | source/background/mainWorkerApi.ts:74-84 | When `getPlugins` answers, a reload succeeds. A plugin is then active iff its entry says enabled, with the settings the entry shows. |
| WorkerApi.GatherFirstFailure | source/background/mainWorkerApi.ts:75-83 | Collecting the entries succeeds iff every id's entry does. Otherwise it fails with the error of the first id that fails. |
| WorkerApi.GatherSticks | source/background/mainWorkerApi.ts:75-83 | Once an entry has failed, later ids change nothing. |
| WorkerApi.ReloadWhenViewed | source/background/mainWorkerApi.ts:74-94 | When `getPlugins` answers, the reload a command triggers on an unchanged store succeeds. It then activates exactly the enabled plugins, with their resolved settings. |
| WorkerApi.ReadView | source/background/mainWorkerApi.ts:76-81 | One entry, read through a store manager, is `ViewFor` that plugin. |
| WorkerApi.ReadViews | source/background/mainWorkerApi.ts:75-82 | The loop gives exactly `ViewsOver` the registered ids. |
| WorkerApi.HandleGetPlugins | source/background/mainWorkerApi.ts:74-84 | Reads every registered plugin and writes nothing. The reply is `ViewsOver`. |
| WorkerApi.HandleTogglePlugin | source/background/mainWorkerApi.ts:86-94 | An unknown id is rejected before any change. Otherwise the flag is stored and the plugins are reloaded from the new store. |
| WorkerApi.HandleUpdatePluginSettings | source/background/mainWorkerApi.ts:96-104 | An unknown id, or a record failing lenient validation, is rejected before any write and without a reload. Otherwise the record is stored whole and the plugins are reloaded. |
| WorkerApi.HandleResetPlugin | source/background/mainWorkerApi.ts:114-122 | An unknown id is rejected. Otherwise the full record of defaults is stored, if it passes, and the plugins are reloaded. |
| WorkerApi.ToggleDecidesActive | source/background/mainWorkerApi.ts:86-94 | After a toggle, a plugin switched off has no instance, and one switched on has one unless the reload failed. No other plugin's flag changes. |
| WorkerApi.UpdateReplacesOverrides | source/background/mainWorkerApi.ts:96-104 | An accepted update replaces the stored overrides rather than merging them: the plugin then resolves from the submitted record alone. No other store and no flag changes. |
| WorkerApi.ResetRestoresDefaults | source/background/mainWorkerApi.ts:114-122 | With valid defaults, a reset is accepted and the plugin then resolves to exactly its defaults. With a refused default, the plugin's settings no longer resolve after the reset. |
| WorkerApi.HandleGetNotifications | source/background/mainWorkerApi.ts:106-112 | `limit`, `offset` and `pluginId` are passed to the fetch unchanged, and a missing limit or offset takes the fetch's default. The handler answers with the fetch's page, or rejects with the fetch's error. |
| WorkerApi.MessageListener | source/background/mainWorkerApi.ts:124-141 | Each action is routed to its own handler. Reads leave the store and the active plugins alone, and a rejected fetch becomes a rejected reply. An accepted command changes the store as `StoresAfter` says and rebuilds the active plugins. |

## Left out

- **Concurrency.** The model leaves out `AsyncLock`, `Promise.all`, fire-and-forget handler calls,
  the worker pool's scheduling and `p-limit`. Each handler runs to completion, one after
  another, and the findings of one event go through the rate limiter in order.
- **IndexedDB.** The object stores are a map from store name to a typed compartment (enabled
  flag, settings record, TTL stamps). A lemma shows the three kinds of key cannot collide.
  Transactions, upgrade callbacks and failures of the database are not modelled. The
  notification store is a sequence with a key generator.
- **The bloom filter.** It is modelled as an exact set of seen chunks. False positives
  (`Filter.create(size, 0.01)`) and the bloom filter's size are not modelled.
- **LRU caches.** They are modelled with exact least-recently-used eviction and unit sizes.
  `lruCacheSize` only bounds the cache.
- **Settings that only reach library calls.** These are the dot-file `concurrency` and `timeout`
  and the secrets `workerPoolSize`. The model proves their bounds but not their use.
- **Collaborators passed as parameters.** These are:
  - `Date.now()`;
  - `new URL` (including `href` serialisation and the resolution of a relative `Location`);
  - `tldts.parse`;
  - the DoH query, with the answer's `Status` as an input;
  - `fetch`, with its status and body as an input (`AbortSignal` timeouts and
    `redirect: 'manual'` are left out);
  - `browser.cookies.getAll`;
  - the Aho-Corasick search;
  - Go's `regexp.FindString`;
  - `Math.log2`;
  - murmurhash;
  - `TextDecoder`.

  source/background/plugins/domaintakeover/doh.ts is not part of this model.
- **Lenient mode on a stored `undefined`.** A stored `undefined` under a defined key would be
  spread over the default, as JavaScript spreads do, and then fail strict validation. The model
  does exactly this.
- **Entropy.** Real-valued entropy is kept symbolic over an abstract `log2`. Only its structure
  is proved: the empty string has entropy 0, and so does a repeated character given
  `log2(1) = 0`. Floating-point rounding is not modelled.
- **Strings.** Strings are sequences of Dafny characters, which are Unicode scalar values.
  JavaScript strings are sequences of UTF-16 code units, so a character outside the Basic
  Multilingual Plane counts once here and twice in `shannonEntropy`. The model's entropy of
  such text therefore differs from the source's. `toLowerCase`/`toUpperCase` are modelled on
  ASCII letters only.
- **`navigator.hardwareConcurrency`.** It is a parameter, with 0 standing for a browser that
  does not report it.
- **`DOH_SERVERS` lookup.** `DOH_SERVERS[dohServer]` is modelled only for the two table keys.
  Validation guarantees that a resolved `dohServer` is one of them.
- **Python script I/O.** `update_rules.py`'s download, TOML parsing and `json.dump` are left out.
  The model starts from the parsed `rules` array, a table being a record of optional fields.
- **Logging.** `console.error`/`console.log` and the host alert's `type: 'basic'` are not
  modelled.
- **Out of scope.** The rest of the extension is not modelled:
  - the UI pages (source/options/index.ts, source/notifications/index.ts);
  - the webRequest wiring and stream filters (source/background/mainWorker.ts,
    source/background/index.ts);
  - the WASM loader (source/wasm/index.ts, source/libs/re2wasm/re2.ts's `ensureRe2Wasm`);
  - the Go Aho-Corasick bridge (source/wasm/gosrc/main.go).
- **`PriorityFromSetting`.** It is cited at the CORS plugin but is shared by all four detectors,
  whose `notify` methods are identical in this respect.

## Findings

| source | as written | input that shows it | evidently intended | confidence | as-written member | corrected member |
|---|---|---|---|---|---|---|
| source/background/plugins/dotfilesleak/index.ts:187-192 | `default: d.enabledByDefault!!` is a TypeScript non-null assertion, not a boolean coercion. So `checkEnvFile`, `checkSvnVcs` and `checkGhVcs` default to `undefined`. | `resetPlugin` for `DotFilesLeak`, or `updatePluginSettings` with `{}`. Lenient validation lets the record through. Every later read then merges `checkEnvFile: undefined` and fails strict validation with "settings key checkEnvFile missing", so the plugin can no longer be instantiated and each reload stops there. | `default: !!d.enabledByDefault`, i.e. `false` for every file except `.git/HEAD` | not executed | DotFilesLeak.AsWrittenDefaultsRejected | DotFilesLeak.IntendedDefaultsAccepted |
| source/background/pluginsManager.ts:366 | `pluginIds.size != pluginIds.size` compares the set's size with itself, so the guard never fires. | Two factories with the same id: no error is raised, and the registry `Map` silently keeps the later factory. | `pluginIds.size != plugins.length` | not executed | Plugins.AsWrittenGuardMissesDuplicate | Plugins.ConflictGuardSpec |
| source/background/notificationsManager.ts:60-67 | `cursor.advance(offset)` is called but its result is not assigned to `cursor`. After an advance past the last record, the loop still holds the old cursor, pushes its `undefined` value and calls `continue()`, which throws InvalidStateError. | One stored notification and `fetchNotifications(10, 1, null)`. Or a store holding a positive multiple of 50 notifications: the notifications page (source/notifications/index.ts:4, 77-99) asks for 50 at a time, stops only on a page shorter than 50, and so asks for one more page after the last full one, which rejects. | `cursor = await cursor.advance(offset)`, so that an offset past the end gives an empty page | not executed | Notifications.LoadMoreRejectsAtEnd | Notifications.AwaitedLoadMoreEnds |
