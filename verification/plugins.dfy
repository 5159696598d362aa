/**
 * The plugin machinery of source/background/pluginsManager.ts: each plugin's object store in the
 * plugins database, the per-plugin store manager (enabled flag, settings), the notification
 * creator with its TTL rate limiter, and the manager that keeps the registry of factories and
 * rebuilds the map of active plugin instances.
 */
module Plugins {
  import opened Wrappers
  import opened Values
  import opened OrderedMaps
  import opened Settings
  import opened Notifications

  const PluginStorePrefix: string := "plugin_store:"
  const IsEnabledFlagKey: string := "is_enabled"
  const PluginSettingsKey: string := "plugin_settings"
  const NotificationTtlPrefix: string := "plugin_notification_ttl:"

  /** The name of a plugin's object store. */
  function StoreName(pluginId: string): string {
    PluginStorePrefix + pluginId
  }

  /** `calculateNotificationTTLKey`: where the time of the last notification under a key is kept. */
  function TtlKey(notificationKey: string): string {
    NotificationTtlPrefix + notificationKey
  }

  /** Different plugins have different stores. */
  lemma StoreNameInjective(a: string, b: string)
    ensures StoreName(a) == StoreName(b) ==> a == b
  {
    if StoreName(a) == StoreName(b) {
      assert a == StoreName(a)[|PluginStorePrefix|..];
      assert b == StoreName(b)[|PluginStorePrefix|..];
    }
  }

  /**
   * A TTL key never collides with the enabled flag or the settings record, and different
   * notification keys have different TTL keys, so the three kinds of entry of a plugin's store
   * can be held apart.
   */
  lemma TtlKeySeparate(a: string, b: string)
    ensures TtlKey(a) != IsEnabledFlagKey && TtlKey(a) != PluginSettingsKey
    ensures TtlKey(a) == TtlKey(b) ==> a == b
  {
    assert TtlKey(a)[7] == 'n' && PluginSettingsKey[7] == 's';
    assert TtlKey(a)[0] == 'p' && IsEnabledFlagKey[0] == 'i';
    if TtlKey(a) == TtlKey(b) {
      assert a == TtlKey(a)[|NotificationTtlPrefix|..];
      assert b == TtlKey(b)[|NotificationTtlPrefix|..];
    }
  }

  /**
   * The contents of one plugin's object store: the value under `is_enabled`, the record under
   * `plugin_settings` and, by TTL key, the times stored by the rate limiter.
   */
  datatype Compartment = Compartment(enabledFlag: Option<bool>, settings: Option<Record>, stamps: map<string, int>)

  const EmptyCompartment: Compartment := Compartment(None, None, map[])

  function StoreOf(stores: map<string, Compartment>, name: string): Compartment {
    if name in stores then stores[name] else EmptyCompartment
  }

  function StampOf(c: Compartment, key: string): Option<int> {
    if key in c.stamps then Some(c.stamps[key]) else None
  }

  /** The plugins database: its object stores by name. */
  class PluginDatabase {
    var stores: map<string, Compartment>

    constructor()
      ensures stores == map[]
    {
      stores := map[];
    }
  }

  /** A plugin factory as the manager sees it: its id and its own settings definitions. */
  datatype PluginFactory = PluginFactory(id: string, definitions: Definitions)

  /** `createPluginStoreByPlugin`: the plugin's store is created unless it exists already. */
  method CreatePluginStoreByPlugin(database: PluginDatabase, plugin: PluginFactory)
    modifies database
    ensures StoreName(plugin.id) in database.stores
    ensures database.stores == if StoreName(plugin.id) in old(database.stores) then old(database.stores)
      else old(database.stores)[StoreName(plugin.id) := EmptyCompartment]
  {
    var storeName := StoreName(plugin.id);
    if storeName in database.stores {
      return;
    }
    database.stores := database.stores[storeName := EmptyCompartment];
  }

  /** `isEnabled`: only a stored `false` disables a plugin. */
  predicate EnabledIn(c: Compartment) {
    c.enabledFlag != Some(false)
  }

  /** A plugin that was never toggled is enabled, and toggling stores exactly the new state. */
  lemma EnabledByDefault(c: Compartment, b: bool)
    ensures EnabledIn(EmptyCompartment)
    ensures EnabledIn(c.(enabledFlag := Some(b))) == b
  {
  }

  datatype Priority = Silent | Regular | Urgent

  /** A `browser.notifications.create` call: title, message and the browser's priority level. */
  datatype HostAlert = HostAlert(title: string, message: string, priority: int)

  /** The host alert `createNotification` raises: none for SILENT, level 2 for URGENT and 0 for REGULAR. */
  function AlertFor(priority: Priority, title: string, description: string): (alert: Option<HostAlert>)
    ensures alert.None? <==> priority == Silent
    ensures alert.Some? ==> alert.value.title == title && alert.value.message == description
    ensures alert.Some? ==> (alert.value.priority == 2 <==> priority == Urgent)
    ensures alert.Some? ==> (alert.value.priority == 0 <==> priority == Regular)
  {
    if priority == Silent then None
    else Some(HostAlert(title, description, if priority == Urgent then 2 else 0))
  }

  /**
   * The priority the detectors give a notification from the plugin's settings: SILENT when
   * `suggestedNotificationPriority` is `'silent'` and REGULAR for anything else, `'urgent'` included.
   */
  function PriorityFromSetting(settings: Record): (p: Priority)
    ensures p == Silent <==> Get(settings, PriorityKey) == Str("silent")
    ensures p != Urgent
  {
    if Get(settings, PriorityKey) == Str("silent") then Silent else Regular
  }

  /** What one rate-limit check decides: whether to notify, and the stamp left in the store. */
  datatype RateDecision = RateDecision(allowed: bool, stamp: Option<int>)

  /**
   * `notificationRateLimitWithTTL` on the stamp stored under the key: a non-positive TTL
   * always allows; a missing (or zero) stamp allows and records `now`; a stamp less than the
   * TTL old refuses; an older one allows and is replaced by `now`.
   */
  function RateLimit(stamp: Option<int>, ttlMillis: int, now: int): (d: RateDecision)
    ensures d.allowed <==> ttlMillis <= 0 || stamp.None? || stamp == Some(0) || now - stamp.value >= ttlMillis
    ensures d.stamp == if d.allowed && ttlMillis > 0 then Some(now) else stamp
  {
    if ttlMillis <= 0 then RateDecision(true, stamp)
    else if stamp.None? || stamp.value == 0 then RateDecision(true, Some(now))
    else if now - stamp.value < ttlMillis then RateDecision(false, stamp)
    else RateDecision(true, Some(now))
  }

  /**
   * With a positive TTL, once a notification under a key is allowed at time `t1` (not zero),
   * the next check under that key is allowed exactly when at least the TTL has passed.
   */
  lemma RateLimitSpacing(stamp: Option<int>, ttlMillis: int, t1: int, t2: int)
    requires ttlMillis > 0 && t1 != 0
    requires RateLimit(stamp, ttlMillis, t1).allowed
    ensures RateLimit(RateLimit(stamp, ttlMillis, t1).stamp, ttlMillis, t2).allowed <==> t2 - t1 >= ttlMillis
  {
  }

  /** `PluginNotificationCreator`: rate limiting in the plugin's store, and persisted notifications. */
  class PluginNotificationCreator {
    const storedNotifications: StoredNotificationsManager
    const pluginId: string
    const database: PluginDatabase
    const databaseStoreKey: string

    constructor(storedNotifications: StoredNotificationsManager, plugin: PluginFactory, database: PluginDatabase, databaseStoreKey: string)
      ensures this.storedNotifications == storedNotifications && pluginId == plugin.id
      ensures this.database == database && this.databaseStoreKey == databaseStoreKey
    {
      this.storedNotifications := storedNotifications;
      this.pluginId := plugin.id;
      this.database := database;
      this.databaseStoreKey := databaseStoreKey;
    }

    /**
     * `notificationRateLimitWithTTL`, with `now` standing for `Date.now()`: the decision of
     * `RateLimit` on the stored stamp; the store is written only when a positive TTL allows.
     */
    method NotificationRateLimitWithTtl(notificationKey: string, ttlMillis: int, now: int) returns (allowed: bool)
      modifies database
      ensures var c := StoreOf(old(database.stores), databaseStoreKey);
        var d := RateLimit(StampOf(c, TtlKey(notificationKey)), ttlMillis, now);
        && allowed == d.allowed
        && database.stores == if d.allowed && ttlMillis > 0
          then old(database.stores)[databaseStoreKey := c.(stamps := c.stamps[TtlKey(notificationKey) := now])]
          else old(database.stores)
    {
      if ttlMillis <= 0 {
        return true;
      }
      var currentTime := now;
      var key := TtlKey(notificationKey);
      var c := StoreOf(database.stores, databaseStoreKey);
      var latestNotificationTime := StampOf(c, key);
      if latestNotificationTime.None? || latestNotificationTime.value == 0 {
        database.stores := database.stores[databaseStoreKey := c.(stamps := c.stamps[key := currentTime])];
        return true;
      }
      var isRateLimiting := currentTime - latestNotificationTime.value < ttlMillis;
      if isRateLimiting {
        return false;
      }
      database.stores := database.stores[databaseStoreKey := c.(stamps := c.stamps[key := currentTime])];
      return true;
    }

    /**
     * `createNotification`, with `now` standing for `Date.now()`: the host alert for the
     * priority is returned, and the notification is always stored under this plugin's id.
     */
    method CreateNotification(priority: Priority, url: string, title: string, description: string, now: int)
      returns (alert: Option<HostAlert>)
      requires storedNotifications.Valid()
      modifies storedNotifications
      ensures storedNotifications.Valid()
      ensures alert == AlertFor(priority, title, description)
      ensures storedNotifications.nextId == old(storedNotifications.nextId) + 1
      ensures storedNotifications.records == old(storedNotifications.records)
        + [Notification(old(storedNotifications.nextId), NotificationData(url, title, description, pluginId), now)]
    {
      var writableData := NotificationData(url, title, description, pluginId);
      alert := AlertFor(priority, title, description);
      var _ := storedNotifications.PutNotification(writableData, now);
    }
  }

  /** What `IPluginFactory.newInstance` returns, seen from the manager: whose it is, the settings it was built with and the creator it notifies through. */
  class PluginInstance {
    const pluginId: string
    const settings: Record
    const notificationCreator: PluginNotificationCreator

    constructor(pluginId: string, settings: Record, notificationCreator: PluginNotificationCreator)
      ensures this.pluginId == pluginId && this.settings == settings && this.notificationCreator == notificationCreator
    {
      this.pluginId := pluginId;
      this.settings := settings;
      this.notificationCreator := notificationCreator;
    }
  }

  /** `PluginStoreManager`: one plugin's factory and its object store. */
  class PluginStoreManager {
    const plugin: PluginFactory
    const database: PluginDatabase
    const storeKey: string
    const notificationCreator: PluginNotificationCreator

    /** The plugin's own definitions are an object literal. */
    ghost predicate Valid() {
      WellFormed(plugin.definitions)
    }

    constructor(plugin: PluginFactory, database: PluginDatabase, storeKey: string, notificationCreator: PluginNotificationCreator)
      ensures this.plugin == plugin && this.database == database
      ensures this.storeKey == storeKey && this.notificationCreator == notificationCreator
    {
      this.plugin := plugin;
      this.database := database;
      this.storeKey := storeKey;
      this.notificationCreator := notificationCreator;
    }

    function Stored(): Compartment
      reads database
    {
      StoreOf(database.stores, storeKey)
    }

    /** The definitions the manager checks against: the plugin's own with the suggested ones under them. */
    function AllDefinitions(): (defs: Definitions)
      requires Valid()
      ensures WellFormed(defs)
    {
      SuggestionsPresent(plugin.definitions);
      WithSuggestions(plugin.definitions)
    }

    predicate IsEnabled()
      reads database
    {
      EnabledIn(Stored())
    }

    /** `setEnabled`: only the flag of this plugin's store changes. */
    method SetEnabled(isEnabled: bool)
      modifies database
      ensures database.stores == old(database.stores)[storeKey := old(Stored()).(enabledFlag := Some(isEnabled))]
      ensures IsEnabled() == isEnabled
    {
      var c := Stored();
      database.stores := database.stores[storeKey := c.(enabledFlag := Some(isEnabled))];
    }

    /**
     * `buildDefaultSettings`: both suggested keys and every key of the plugin's own, each with
     * its default; a suggested key the plugin does not redefine gets the suggested default.
     */
    function BuildDefaultSettings(): (r: Record)
      requires Valid()
      ensures r.Keys == {RateLimitKey, PriorityKey} + KeysOf(plugin.definitions)
      ensures forall k :: k in plugin.definitions.entries ==> r[k] == plugin.definitions.entries[k].defaultValue
      ensures RateLimitKey !in plugin.definitions.entries ==> r[RateLimitKey] == Num(Integral(60))
      ensures PriorityKey !in plugin.definitions.entries ==> r[PriorityKey] == Str("regular")
    {
      SuggestionsPresent(plugin.definitions);
      DefaultsSpec(AllDefinitions());
      Defaults(AllDefinitions())
    }

    /**
     * `setSettings`: the record is validated leniently first; a rejected record is reported and
     * nothing is written, an accepted one replaces whatever record was stored.
     */
    method SetSettings(newSettings: Record) returns (r: Outcome<SettingError>)
      requires Valid()
      modifies database
      ensures r == Validate(AllDefinitions(), newSettings, true)
      ensures database.stores == if r.Pass? then old(database.stores)[storeKey := old(Stored()).(settings := Some(newSettings))]
        else old(database.stores)
    {
      r := Validate(AllDefinitions(), newSettings, true);
      if r.Fail? {
        return;
      }
      var c := Stored();
      database.stores := database.stores[storeKey := c.(settings := Some(newSettings))];
    }

    /** `getSettingsWithDefaults`: the resolution of the stored record, if any, against the definitions. */
    method GetSettingsWithDefaults() returns (r: Result<Record, SettingError>)
      requires Valid()
      ensures r == Resolve(AllDefinitions(), Stored().settings)
    {
      SuggestionsPresent(plugin.definitions);
      var settings := Stored().settings;
      var defaults := BuildDefaultSettings();
      if settings.None? {
        return Success(defaults);
      }
      var result := defaults + settings.value;
      var check := Validate(AllDefinitions(), result, false);
      if check.Fail? {
        return Failure(check.error);
      }
      return Success(result);
    }

    /** `newPluginInstance`: a new instance built with the resolved settings, or the resolution's error. */
    method NewPluginInstance() returns (r: Result<PluginInstance, SettingError>)
      requires Valid()
      ensures Resolve(AllDefinitions(), Stored().settings).Failure? ==> r == Failure(Resolve(AllDefinitions(), Stored().settings).error)
      ensures Resolve(AllDefinitions(), Stored().settings).Success? ==>
        && r.Success? && fresh(r.value) && r.value.pluginId == plugin.id
        && r.value.settings == Resolve(AllDefinitions(), Stored().settings).value
        && r.value.notificationCreator == notificationCreator
    {
      var settings := GetSettingsWithDefaults();
      if settings.Failure? {
        return Failure(settings.error);
      }
      var instance := new PluginInstance(plugin.id, settings.value, notificationCreator);
      return Success(instance);
    }
  }

  /** The errors the manager and the control-plane handlers raise. */
  datatype PluginError =
    | PluginNotFound(pluginId: string)     // `Plugin with id … not found`
    | InvalidSettings(error: SettingError) // thrown by settings validation

  /**
   * `new Map(plugins.map(p => [p.getPluginId(), …]))`: the factories by id, in the order ids
   * first appear; a repeated id keeps its first place and takes the later factory.
   */
  function Registry(plugins: seq<PluginFactory>): OrderedMap<PluginFactory>
    decreases |plugins|
  {
    if plugins == [] then Empty()
    else
      var last := plugins[|plugins| - 1];
      Put(Registry(plugins[..|plugins| - 1]), last.id, last)
  }

  /** Registering one more factory puts it under its id. */
  lemma RegistryStep(plugins: seq<PluginFactory>, i: nat)
    requires i < |plugins|
    ensures Registry(plugins[..i + 1]) == Put(Registry(plugins[..i]), plugins[i].id, plugins[i])
  {
    assert plugins[..i + 1][..i] == plugins[..i];
  }

  function PluginIds(plugins: seq<PluginFactory>): set<string> {
    set i | 0 <= i < |plugins| :: plugins[i].id
  }

  /** `plugins[i]` is the last factory in the list with that id. */
  ghost predicate LastWithId(plugins: seq<PluginFactory>, i: int, id: string) {
    0 <= i < |plugins| && plugins[i].id == id && forall j :: i < j < |plugins| ==> plugins[j].id != id
  }

  /** The ids of a list are those of all but its last factory, plus the last one's. */
  lemma PluginIdsSnoc(plugins: seq<PluginFactory>)
    requires plugins != []
    ensures PluginIds(plugins) == PluginIds(plugins[..|plugins| - 1]) + {plugins[|plugins| - 1].id}
  {
    var n := |plugins| - 1;
    var prefix := plugins[..n];
    forall id | id in PluginIds(plugins) ensures id in PluginIds(prefix) + {plugins[n].id} {
      var i :| 0 <= i < |plugins| && plugins[i].id == id;
      if i < n {
        assert prefix[i] == plugins[i];
      }
    }
    forall id | id in PluginIds(prefix) ensures id in PluginIds(plugins) {
      var i :| 0 <= i < |prefix| && prefix[i].id == id;
      assert plugins[i] == prefix[i];
    }
  }

  /** The registry lists each distinct id once, and nothing else. */
  lemma {:induction false} RegistryShape(plugins: seq<PluginFactory>)
    ensures WellFormed(Registry(plugins))
    ensures Registry(plugins).entries.Keys == PluginIds(plugins)
    decreases |plugins|
  {
    if plugins != [] {
      var n := |plugins| - 1;
      RegistryShape(plugins[..n]);
      PutSpec(Registry(plugins[..n]), plugins[n].id, plugins[n]);
      PluginIdsSnoc(plugins);
    }
  }

  /** The entry under an id is the LAST factory in the list with that id. */
  lemma {:induction false} RegistryLastWins(plugins: seq<PluginFactory>)
    ensures forall id :: id in Registry(plugins).entries ==>
      exists i :: LastWithId(plugins, i, id) && plugins[i] == Registry(plugins).entries[id]
    decreases |plugins|
  {
    if plugins != [] {
      var n := |plugins| - 1;
      var prefix := plugins[..n];
      var last := plugins[n];
      RegistryLastWins(prefix);
      var r := Registry(plugins);
      assert r.entries == Registry(prefix).entries[last.id := last];
      forall id | id in r.entries ensures exists i :: LastWithId(plugins, i, id) && plugins[i] == r.entries[id] {
        if id == last.id {
          assert plugins[n] == r.entries[id] && LastWithId(plugins, n, id);
        } else {
          var i :| LastWithId(prefix, i, id) && prefix[i] == Registry(prefix).entries[id];
          assert plugins[i] == r.entries[id];
          forall j | i < j < |plugins| ensures plugins[j].id != id {
            if j < n {
              assert plugins[j] == prefix[j];
            }
          }
          assert LastWithId(plugins, i, id);
        }
      }
    }
  }

  /** The duplicate-id guard of `initializePluginsManager` as written: the size of the id set compared with itself. */
  predicate ConflictGuardAsWritten(plugins: seq<PluginFactory>) {
    |PluginIds(plugins)| != |PluginIds(plugins)|
  }

  /** The guard as evidently intended: fewer distinct ids than plugins. */
  predicate HasConflictingIds(plugins: seq<PluginFactory>) {
    |PluginIds(plugins)| != |plugins|
  }

  /**
   * The guard as written passes every list, also one that repeats an id; the registry then
   * holds one entry per distinct id, the last factory with it.
   */
  lemma AsWrittenGuardMissesDuplicate(plugins: seq<PluginFactory>)
    ensures !ConflictGuardAsWritten(plugins)
    ensures (exists i, j :: 0 <= i < j < |plugins| && plugins[i].id == plugins[j].id) ==>
      HasConflictingIds(plugins) && |Registry(plugins).entries.Keys| < |plugins|
    ensures forall id :: id in Registry(plugins).entries ==>
      exists i :: LastWithId(plugins, i, id) && plugins[i] == Registry(plugins).entries[id]
  {
    ConflictGuardSpec(plugins);
    RegistryShape(plugins);
    RegistryLastWins(plugins);
  }

  /** The intended guard fires exactly when two factories share an id. */
  lemma {:induction false} ConflictGuardSpec(plugins: seq<PluginFactory>)
    ensures |PluginIds(plugins)| <= |plugins|
    ensures HasConflictingIds(plugins) <==> exists i, j :: 0 <= i < j < |plugins| && plugins[i].id == plugins[j].id
    decreases |plugins|
  {
    if plugins != [] {
      var n := |plugins| - 1;
      var prefix := plugins[..n];
      ConflictGuardSpec(prefix);
      PluginIdsSnoc(plugins);
      if plugins[n].id in PluginIds(prefix) {
        var i :| 0 <= i < |prefix| && prefix[i].id == plugins[n].id;
        assert plugins[i].id == plugins[n].id;
      } else {
        if exists i, j :: 0 <= i < j < |plugins| && plugins[i].id == plugins[j].id {
          var i, j :| 0 <= i < j < |plugins| && plugins[i].id == plugins[j].id;
          if j == n {
            assert prefix[i].id == plugins[n].id;
          } else {
            assert prefix[i].id == prefix[j].id;
          }
        }
      }
    }
  }

  /** The outcome of a reload over some registered ids: the active settings by id, and the error that stopped it, if any. */
  datatype ReloadOutcome = ReloadOutcome(active: OrderedMap<Record>, error: Option<SettingError>)

  ghost predicate Reloadable(ids: seq<string>, factories: map<string, PluginFactory>) {
    forall id :: id in ids ==> id in factories && WellFormed(factories[id].definitions)
  }

  /** The definitions a registered plugin's settings are checked against: its own, spread over the suggested ones. */
  function SchemaOf(factories: map<string, PluginFactory>, id: string): (defs: Definitions)
    requires id in factories && WellFormed(factories[id].definitions)
    ensures WellFormed(defs)
  {
    SuggestionsPresent(factories[id].definitions);
    WithSuggestions(factories[id].definitions)
  }

  /** The resolution a reload performs for one plugin. */
  function ResolveFor(factories: map<string, PluginFactory>, id: string, stores: map<string, Compartment>): Result<Record, SettingError>
    requires id in factories && WellFormed(factories[id].definitions)
  {
    Resolve(SchemaOf(factories, id), StoreOf(stores, StoreName(id)).settings)
  }

  /**
   * `reloadAllSettings` over the registered ids in order: a disabled plugin is skipped, an
   * enabled one gets an instance with its resolved settings, and the first resolution that
   * fails stops the loop with the instances created so far left in place.
   */
  function ReloadOver(ids: seq<string>, factories: map<string, PluginFactory>, stores: map<string, Compartment>): ReloadOutcome
    requires Reloadable(ids, factories)
    decreases |ids|
  {
    if ids == [] then ReloadOutcome(Empty(), None)
    else
      var prev := ReloadOver(ids[..|ids| - 1], factories, stores);
      var id := ids[|ids| - 1];
      if prev.error.Some? || !Active(stores, id) then prev
      else
        match ResolveFor(factories, id, stores)
        case Failure(e) => ReloadOutcome(prev.active, Some(e))
        case Success(s) => ReloadOutcome(Put(prev.active, id, s), None)
  }

  /** Whether the plugin registered under `id` is enabled in the store and would be instantiated. */
  predicate Active(stores: map<string, Compartment>, id: string) {
    EnabledIn(StoreOf(stores, StoreName(id)))
  }


  /** `ids[i]` is enabled, its settings fail to resolve with `e`, and every enabled plugin before it resolves. */
  ghost predicate FirstFailure(ids: seq<string>, factories: map<string, PluginFactory>, stores: map<string, Compartment>, i: int, e: SettingError)
    requires Reloadable(ids, factories)
  {
    && 0 <= i < |ids| && Active(stores, ids[i])
    && ResolveFor(factories, ids[i], stores) == Failure(e)
    && forall j :: 0 <= j < i && Active(stores, ids[j]) ==> ResolveFor(factories, ids[j], stores).Success?
  }

  /**
   * A reload succeeds exactly when every enabled plugin's settings resolve; it then holds
   * exactly the enabled plugins, each once, with its resolved settings. When it fails, the
   * error is that of the first enabled plugin (in registry order) whose settings do not resolve.
   */
  lemma {:induction false} ReloadSpec(ids: seq<string>, factories: map<string, PluginFactory>, stores: map<string, Compartment>)
    requires Reloadable(ids, factories)
    requires forall i, j :: 0 <= i < j < |ids| ==> ids[i] != ids[j]
    ensures var o := ReloadOver(ids, factories, stores);
      && WellFormed(o.active)
      && (o.error.None? <==> forall id :: id in ids && Active(stores, id) ==> ResolveFor(factories, id, stores).Success?)
      && (o.error.None? ==> forall id :: id in o.active.entries <==> id in ids && Active(stores, id))
      && (forall id :: id in o.active.entries ==>
            id in ids && Active(stores, id) && ResolveFor(factories, id, stores) == Success(o.active.entries[id]))
      && (o.error.Some? ==> exists i :: FirstFailure(ids, factories, stores, i, o.error.value))
    decreases |ids|
  {
    if ids != [] {
      var n := |ids| - 1;
      var prefix := ids[..n];
      var id := ids[n];
      assert ids == prefix + [id];
      ReloadSpec(prefix, factories, stores);
      var prev := ReloadOver(prefix, factories, stores);
      assert id !in prefix by {
        forall i | 0 <= i < n ensures prefix[i] != id {
          assert prefix[i] == ids[i];
        }
      }
      if prev.error.None? && Active(stores, id) && ResolveFor(factories, id, stores).Success? {
        PutSpec(prev.active, id, ResolveFor(factories, id, stores).value);
      }
      var o := ReloadOver(ids, factories, stores);
      if o.error.Some? {
        if prev.error.Some? {
          var i :| FirstFailure(prefix, factories, stores, i, prev.error.value);
          assert ids[i] == prefix[i];
          forall j | 0 <= j < i && Active(stores, ids[j]) ensures ResolveFor(factories, ids[j], stores).Success? {
            assert ids[j] == prefix[j];
          }
          assert FirstFailure(ids, factories, stores, i, o.error.value);
        } else {
          forall j | 0 <= j < n && Active(stores, ids[j]) ensures ResolveFor(factories, ids[j], stores).Success? {
            assert ids[j] in prefix;
          }
          assert FirstFailure(ids, factories, stores, n, o.error.value);
        }
      }
    }
  }

  /** A disabled plugin is skipped. */
  lemma ReloadSkips(ids: seq<string>, i: nat, factories: map<string, PluginFactory>, stores: map<string, Compartment>)
    requires Reloadable(ids, factories) && i < |ids| && !Active(stores, ids[i])
    ensures ReloadOver(ids[..i + 1], factories, stores) == ReloadOver(ids[..i], factories, stores)
  {
    assert ids[..i + 1][..i] == ids[..i] && ids[..i + 1][i] == ids[i];
  }

  /** An enabled plugin whose settings resolve is added under its id. */
  lemma ReloadAdds(ids: seq<string>, i: nat, factories: map<string, PluginFactory>, stores: map<string, Compartment>, active: OrderedMap<PluginInstance>, instance: PluginInstance)
    requires Reloadable(ids, factories) && i < |ids| && Active(stores, ids[i])
    requires WellFormed(active) && ReloadOver(ids[..i], factories, stores) == ReloadOutcome(SettingsOf(active), None)
    requires ResolveFor(factories, ids[i], stores) == Success(instance.settings)
    ensures WellFormed(Put(active, ids[i], instance))
    ensures ReloadOver(ids[..i + 1], factories, stores) == ReloadOutcome(SettingsOf(Put(active, ids[i], instance)), None)
  {
    assert ids[..i + 1][..i] == ids[..i] && ids[..i + 1][i] == ids[i];
    PutSpec(active, ids[i], instance);
    SettingsOfPut(active, ids[i], instance);
  }

  /** An enabled plugin whose settings do not resolve ends the reload with its error. */
  lemma ReloadStops(ids: seq<string>, i: nat, factories: map<string, PluginFactory>, stores: map<string, Compartment>, active: OrderedMap<Record>, e: SettingError)
    requires Reloadable(ids, factories) && i < |ids| && Active(stores, ids[i])
    requires ReloadOver(ids[..i], factories, stores) == ReloadOutcome(active, None)
    requires ResolveFor(factories, ids[i], stores) == Failure(e)
    ensures ReloadOver(ids, factories, stores) == ReloadOutcome(active, Some(e))
  {
    assert ids[..i + 1][..i] == ids[..i] && ids[..i + 1][i] == ids[i];
    ReloadErrorSticks(ids, i + 1, factories, stores);
  }

  /** A failed reload stays failed however many further plugins are registered after the failing one. */
  lemma {:induction false} ReloadErrorSticks(ids: seq<string>, k: nat, factories: map<string, PluginFactory>, stores: map<string, Compartment>)
    requires Reloadable(ids, factories) && k <= |ids|
    requires ReloadOver(ids[..k], factories, stores).error.Some?
    ensures ReloadOver(ids, factories, stores) == ReloadOver(ids[..k], factories, stores)
    decreases |ids| - k
  {
    if k < |ids| {
      assert ids[..k + 1][..k] == ids[..k];
      ReloadErrorSticks(ids, k + 1, factories, stores);
    } else {
      assert ids[..k] == ids;
    }
  }

  /** The factory each registered manager holds, keyed as the registry keys them. */
  ghost function FactoriesOf(registered: OrderedMap<PluginStoreManager>): OrderedMap<PluginFactory> {
    OrderedMap(registered.order, map id | id in registered.entries :: registered.entries[id].plugin)
  }

  lemma FactoriesOfPut(registered: OrderedMap<PluginStoreManager>, id: string, m: PluginStoreManager)
    ensures FactoriesOf(Put(registered, id, m)) == Put(FactoriesOf(registered), id, m.plugin)
  {
  }

  /** The settings each active instance was built with, keyed as the active map keys them. */
  ghost function SettingsOf(active: OrderedMap<PluginInstance>): OrderedMap<Record> {
    OrderedMap(active.order, map id | id in active.entries :: active.entries[id].settings)
  }

  lemma SettingsOfPut(active: OrderedMap<PluginInstance>, id: string, p: PluginInstance)
    ensures SettingsOf(Put(active, id, p)) == Put(SettingsOf(active), id, p.settings)
  {
  }

  /** Every instance sits under its plugin's id, which is registered, and notifies through that plugin's creator. */
  ghost predicate InstancesFit(active: OrderedMap<PluginInstance>, registered: OrderedMap<PluginStoreManager>) {
    forall id :: id in active.entries ==>
      && id in registered.entries && active.entries[id].pluginId == id
      && active.entries[id].notificationCreator == registered.entries[id].notificationCreator
  }

  lemma InstancesFitPut(active: OrderedMap<PluginInstance>, registered: OrderedMap<PluginStoreManager>, id: string, p: PluginInstance)
    requires InstancesFit(active, registered)
    requires id in registered.entries && p.pluginId == id && p.notificationCreator == registered.entries[id].notificationCreator
    ensures InstancesFit(Put(active, id, p), registered)
  {
  }

  /** A store manager built for `id` over the given database and notification store. */
  ghost predicate ManagerFits(m: PluginStoreManager, id: string, database: PluginDatabase, storedNotifications: StoredNotificationsManager) {
    && m.plugin.id == id && m.Valid()
    && m.database == database && m.storeKey == StoreName(id)
    && m.notificationCreator.database == database && m.notificationCreator.databaseStoreKey == StoreName(id)
    && m.notificationCreator.pluginId == id && m.notificationCreator.storedNotifications == storedNotifications
  }

  /** `PluginsManager`: the registry of store managers and the map of active instances. */
  class PluginsManager {
    const database: PluginDatabase
    const storedNotifications: StoredNotificationsManager
    var registeredPlugins: OrderedMap<PluginStoreManager>
    var enabledPlugins: OrderedMap<PluginInstance>

    /** Every registered manager was built for its own id, over this database; every active instance belongs to a registered plugin. */
    ghost predicate Valid()
      reads this
    {
      && WellFormed(registeredPlugins)
      && WellFormed(enabledPlugins)
      && (forall id :: id in registeredPlugins.entries ==> ManagerFits(registeredPlugins.entries[id], id, database, storedNotifications))
      && (forall id :: id in enabledPlugins.entries ==> id in registeredPlugins.entries)
    }

    ghost function Factories(): OrderedMap<PluginFactory>
      reads this
    {
      FactoriesOf(registeredPlugins)
    }

    /** What a reload from the current store would produce. */
    ghost function Reloaded(): ReloadOutcome
      requires Valid()
      reads this, database
    {
      ReloadOver(registeredPlugins.order, Factories().entries, database.stores)
    }

    /**
     * The constructor: one store manager and one notification creator per factory, registered
     * by id as `Registry` orders them; no plugin is active yet.
     */
    constructor(database: PluginDatabase, plugins: seq<PluginFactory>, storedNotifications: StoredNotificationsManager)
      requires forall i :: 0 <= i < |plugins| ==> WellFormed(plugins[i].definitions)
      ensures Valid() && Factories() == Registry(plugins) && enabledPlugins == Empty()
      ensures this.database == database && this.storedNotifications == storedNotifications
    {
      this.database := database;
      this.storedNotifications := storedNotifications;
      var registered: OrderedMap<PluginStoreManager> := Empty();
      var i := 0;
      while i < |plugins|
        invariant 0 <= i <= |plugins|
        invariant WellFormed(registered)
        invariant FactoriesOf(registered) == Registry(plugins[..i])
        invariant forall id :: id in registered.entries ==> ManagerFits(registered.entries[id], id, database, storedNotifications)
      {
        var p := plugins[i];
        var pluginStoreKey := StoreName(p.id);
        var pluginNotificationCreator := new PluginNotificationCreator(storedNotifications, p, database, pluginStoreKey);
        var manager := new PluginStoreManager(p, database, pluginStoreKey, pluginNotificationCreator);
        assert ManagerFits(manager, p.id, database, storedNotifications);
        PutSpec(registered, p.id, manager);
        FactoriesOfPut(registered, p.id, manager);
        RegistryStep(plugins, i);
        registered := Put(registered, p.id, manager);
        i := i + 1;
      }
      assert plugins[..i] == plugins;
      registeredPlugins := registered;
      enabledPlugins := Empty();
    }

    /** The manager's view of one registered plugin agrees with the pure reload step. */
    lemma ManagerAgrees(id: string)
      requires Valid() && id in registeredPlugins.entries
      ensures Factories().entries[id] == registeredPlugins.entries[id].plugin
      ensures registeredPlugins.entries[id].IsEnabled() == Active(database.stores, id)
      ensures ResolveFor(Factories().entries, id, database.stores)
        == Resolve(registeredPlugins.entries[id].AllDefinitions(), registeredPlugins.entries[id].Stored().settings)
    {
    }

    /**
     * `reloadAllSettings`: the active map is cleared and refilled with new instances, as
     * `ReloadOver` describes, from the registry and the store; on the first failure the error
     * is raised and the instances created so far stay.
     */
    method ReloadAllSettings() returns (r: Outcome<PluginError>)
      requires Valid()
      modifies this
      ensures Valid() && registeredPlugins == old(registeredPlugins)
      ensures SettingsOf(enabledPlugins) == Reloaded().active
      ensures r == if Reloaded().error.Some? then Fail(InvalidSettings(Reloaded().error.value)) else Pass
      ensures InstancesFit(enabledPlugins, registeredPlugins)
    {
      enabledPlugins := Empty();
      var active, error := InstantiateEnabled();
      enabledPlugins := active;
      if error.Some? {
        return Fail(InvalidSettings(error.value));
      }
      return Pass;
    }

    /**
     * The loop of `reloadAllSettings`, building the entries the active map receives: registered
     * plugins in registry order, a new instance for each enabled one, until the first failure.
     */
    method InstantiateEnabled() returns (active: OrderedMap<PluginInstance>, error: Option<SettingError>)
      requires Valid()
      ensures WellFormed(active) && ReloadOutcome(SettingsOf(active), error) == Reloaded()
      ensures InstancesFit(active, registeredPlugins)
    {
      active := Empty();
      var ids := registeredPlugins.order;
      ghost var factories := Factories().entries;
      ghost var stores := database.stores;
      assert Reloadable(ids, factories);
      var i := 0;
      while i < |ids|
        invariant 0 <= i <= |ids| && WellFormed(active) && Reloadable(ids, factories)
        invariant ReloadOver(ids[..i], factories, stores) == ReloadOutcome(SettingsOf(active), None)
        invariant InstancesFit(active, registeredPlugins)
      {
        var id := ids[i];
        var plugin := registeredPlugins.entries[id];
        ManagerAgrees(id);
        if !plugin.IsEnabled() {
          ReloadSkips(ids, i, factories, stores);
          i := i + 1;
          continue;
        }
        var instance := plugin.NewPluginInstance();
        if instance.Failure? {
          ReloadStops(ids, i, factories, stores, SettingsOf(active), instance.error);
          return active, Some(instance.error);
        }
        ReloadAdds(ids, i, factories, stores, active, instance.value);
        InstancesFitPut(active, registeredPlugins, id, instance.value);
        active := Put(active, plugin.plugin.id, instance.value);
        i := i + 1;
      }
      assert ids[..i] == ids;
      return active, None;
    }

    /** `getManagedPlugin`: the store manager registered under the id, or the not-found error. */
    method GetManagedPlugin(pluginId: string) returns (r: Result<PluginStoreManager, PluginError>)
      ensures pluginId in registeredPlugins.entries ==> r == Success(registeredPlugins.entries[pluginId])
      ensures pluginId !in registeredPlugins.entries ==> r == Failure(PluginNotFound(pluginId))
    {
      if pluginId !in registeredPlugins.entries {
        return Failure(PluginNotFound(pluginId));
      }
      return Success(registeredPlugins.entries[pluginId]);
    }

    /** `getManagedPlugins`: the store managers in registry order. */
    function GetManagedPlugins(): (ms: seq<PluginStoreManager>)
      requires Valid()
      reads this
      ensures |ms| == |registeredPlugins.order|
      ensures forall i :: 0 <= i < |ms| ==> ms[i] == registeredPlugins.entries[registeredPlugins.order[i]]
      ensures forall i :: 0 <= i < |ms| ==> ms[i].plugin.id == registeredPlugins.order[i]
    {
      ValuesInOrder(registeredPlugins)
    }

    /** `getEnabledPlugins`: the active instances in the order they were added. */
    function GetEnabledPlugins(): (ps: seq<PluginInstance>)
      requires Valid()
      reads this
      ensures |ps| == |enabledPlugins.order|
      ensures forall i :: 0 <= i < |ps| ==> ps[i] == enabledPlugins.entries[enabledPlugins.order[i]]
    {
      ValuesInOrder(enabledPlugins)
    }
  }

  /**
   * `initializePluginsManager`: every plugin's store is created if missing (the contents of
   * existing stores are kept), the manager is built and reloaded once. The duplicate-id guard
   * compares the id set's size with itself and never throws, so a list with a repeated id is
   * accepted and the registry keeps the last factory under that id (`RegistryLastWins`); the
   * only failure left is the reload's.
   */
  method InitializePluginsManager(notificationsManager: StoredNotificationsManager, plugins: seq<PluginFactory>, database: PluginDatabase)
    returns (r: Result<PluginsManager, PluginError>)
    requires forall i :: 0 <= i < |plugins| ==> WellFormed(plugins[i].definitions)
    modifies database
    ensures forall i :: 0 <= i < |plugins| ==> StoreName(plugins[i].id) in database.stores
    ensures forall name :: name in old(database.stores) ==> name in database.stores && database.stores[name] == old(database.stores)[name]
    ensures forall name :: name in database.stores && name !in old(database.stores) ==> database.stores[name] == EmptyCompartment
    ensures r.Failure? ==> r.error.InvalidSettings?
    ensures Reloadable(Registry(plugins).order, Registry(plugins).entries)
    ensures var outcome := ReloadOver(Registry(plugins).order, Registry(plugins).entries, database.stores);
      && (r.Success? <==> outcome.error.None?)
      && (r.Failure? ==> r.error == InvalidSettings(outcome.error.value))
    ensures r.Success? ==>
      && fresh(r.value) && r.value.Valid() && r.value.database == database
      && r.value.Factories() == Registry(plugins)
      && SettingsOf(r.value.enabledPlugins) == r.value.Reloaded().active && r.value.Reloaded().error.None?
  {
    // `if (pluginIds.size != pluginIds.size) throw …`: the condition is always false.
    assert !ConflictGuardAsWritten(plugins);
    var i := 0;
    while i < |plugins|
      invariant 0 <= i <= |plugins|
      invariant forall j :: 0 <= j < i ==> StoreName(plugins[j].id) in database.stores
      invariant forall name :: name in old(database.stores) ==> name in database.stores && database.stores[name] == old(database.stores)[name]
      invariant forall name :: name in database.stores && name !in old(database.stores) ==> database.stores[name] == EmptyCompartment
    {
      CreatePluginStoreByPlugin(database, plugins[i]);
      i := i + 1;
    }
    var manager := new PluginsManager(database, plugins, notificationsManager);
    var reloaded := manager.ReloadAllSettings();
    if reloaded.Fail? {
      return Failure(reloaded.error);
    }
    return Success(manager);
  }
}
