/**
 * The control plane the options page talks to (source/background/mainWorkerApi.ts): one handler
 * per message action, each a read of, or a write to, the plugin store followed by a reload of
 * the active plugins, and the listener that routes a message to its handler.
 *
 * A handler that throws is modelled as a `Rejected` reply carrying the error.
 */
module WorkerApi {
  import opened Wrappers
  import opened Values
  import opened OrderedMaps
  import opened Settings
  import opened Notifications
  import opened Plugins

  /** One entry of the `getPlugins` reply. */
  datatype PluginView = PluginView(id: string, isEnabled: bool, settings: Record, definitions: Definitions)

  /** The messages the listener accepts; `Unrecognized` stands for any other `action`. */
  datatype Message =
    | GetPlugins
    | TogglePlugin(pluginId: string, enabled: bool)
    | UpdatePluginSettings(pluginId: string, settings: Record)
    | GetNotifications(limit: Option<int>, offset: Option<int>, notificationsPluginId: Option<string>)
    | ResetPlugin(pluginId: string)
    | Unrecognized(action: string)

  /**
   * What the listener's promise settles to: the `getPlugins` list, the empty object the three
   * commands return, the notifications page or the fetch's rejection, `undefined` for an
   * unknown action, or a rejection.
   */
  datatype Reply =
    | PluginsReply(plugins: seq<PluginView>)
    | Done
    | NotificationsReply(notifications: seq<Notification>)
    | NotificationsRejected(fetchError: FetchError)
    | NoReply
    | Rejected(error: PluginError)

  /** The registry as the handlers see it: every registered id listed once, each with an object-literal schema. */
  ghost predicate Registered(ids: seq<string>, factories: map<string, PluginFactory>) {
    && (forall i, j :: 0 <= i < j < |ids| ==> ids[i] != ids[j])
    && (forall id :: id in ids <==> id in factories)
    && (forall id :: id in factories ==> WellFormed(factories[id].definitions))
  }

  lemma RegisteredManager(pm: PluginsManager)
    requires pm.Valid()
    ensures Registered(pm.registeredPlugins.order, pm.Factories().entries)
  {
    forall id | id in pm.Factories().entries ensures WellFormed(pm.Factories().entries[id].definitions) {
      assert ManagerFits(pm.registeredPlugins.entries[id], id, pm.database, pm.storedNotifications);
    }
  }

  // ---------------------------------------------------------------------------------------
  // getPlugins

  /** The results `results` holds for the first `n` of `ids`, in order, or the first failure among them. */
  ghost function Gather<T, E>(ids: seq<string>, n: nat, results: map<string, Result<T, E>>): Result<seq<T>, E>
    requires n <= |ids| && forall id :: id in ids ==> id in results
  {
    if n == 0 then Success([])
    else
      match Gather(ids, n - 1, results)
      case Failure(e) => Failure(e)
      case Success(values) =>
        match results[ids[n - 1]]
        case Failure(e) => Failure(e)
        case Success(v) => Success(values + [v])
  }

  /** Once a failure is gathered, the ids after it change nothing. */
  lemma {:induction false} GatherSticks<T, E>(ids: seq<string>, results: map<string, Result<T, E>>, k: nat, n: nat)
    requires forall id :: id in ids ==> id in results
    requires k <= n <= |ids| && Gather(ids, k, results).Failure?
    ensures Gather(ids, n, results) == Gather(ids, k, results)
    decreases n
  {
    if k < n {
      GatherSticks(ids, results, k, n - 1);
    }
  }

  /** A gathered list has one value per id, the one `results` holds for it. */
  lemma {:induction false} GatherAt<T, E>(ids: seq<string>, results: map<string, Result<T, E>>, n: nat)
    requires forall id :: id in ids ==> id in results
    requires n <= |ids| && Gather(ids, n, results).Success?
    ensures |Gather(ids, n, results).value| == n
    ensures forall i :: 0 <= i < n ==> results[ids[i]] == Success(Gather(ids, n, results).value[i])
    decreases n
  {
    if n > 0 {
      GatherAt(ids, results, n - 1);
    }
  }

  /** Gathering fails exactly when some id fails, and then with the error of the first that does. */
  lemma {:induction false} GatherFirstFailure<T, E>(ids: seq<string>, results: map<string, Result<T, E>>, n: nat)
    requires forall id :: id in ids ==> id in results
    requires n <= |ids|
    ensures Gather(ids, n, results).Success? <==> forall i :: 0 <= i < n ==> results[ids[i]].Success?
    ensures Gather(ids, n, results).Failure? ==> exists i :: (0 <= i < n && results[ids[i]] == Failure(Gather(ids, n, results).error)
      && forall j :: 0 <= j < i ==> results[ids[j]].Success?)
    decreases n
  {
    if n > 0 {
      GatherFirstFailure(ids, results, n - 1);
      if Gather(ids, n - 1, results).Failure? {
        var i :| 0 <= i < n - 1 && results[ids[i]] == Failure(Gather(ids, n - 1, results).error)
          && forall j :: 0 <= j < i ==> results[ids[j]].Success?;
        assert results[ids[i]] == Failure(Gather(ids, n, results).error);
      } else if results[ids[n - 1]].Failure? {
        assert results[ids[n - 1]] == Failure(Gather(ids, n, results).error);
      }
    }
  }

  /** The entry `getPlugins` shows for one registered plugin: its id, enabled flag, resolved settings and schema. */
  function ViewFor(factories: map<string, PluginFactory>, id: string, stores: map<string, Compartment>): Result<PluginView, SettingError>
    requires id in factories && WellFormed(factories[id].definitions)
  {
    match ResolveFor(factories, id, stores)
    case Failure(e) => Failure(e)
    case Success(settings) => Success(PluginView(id, Active(stores, id), settings, SchemaOf(factories, id)))
  }

  /** The entry of every plugin with an object-literal schema, by id. */
  ghost function ViewsById(factories: map<string, PluginFactory>, stores: map<string, Compartment>): map<string, Result<PluginView, SettingError>> {
    map id | id in factories && WellFormed(factories[id].definitions) :: ViewFor(factories, id, stores)
  }

  /**
   * The `getPlugins` list over the registered ids in order: each plugin's entry; the first
   * plugin whose settings do not resolve rejects the whole reply, whether that plugin is
   * enabled or not.
   */
  ghost function ViewsOver(ids: seq<string>, factories: map<string, PluginFactory>, stores: map<string, Compartment>): Result<seq<PluginView>, SettingError>
    requires Reloadable(ids, factories)
  {
    Gather(ids, |ids|, ViewsById(factories, stores))
  }

  /** `ids[i]` is the first registered plugin whose settings fail to resolve, with `e`. */
  ghost predicate FirstUnresolved(ids: seq<string>, factories: map<string, PluginFactory>, stores: map<string, Compartment>, i: int, e: SettingError)
    requires Reloadable(ids, factories)
  {
    && 0 <= i < |ids| && ResolveFor(factories, ids[i], stores) == Failure(e)
    && forall j :: 0 <= j < i ==> ResolveFor(factories, ids[j], stores).Success?
  }

  /** The entry `getPlugins` shows for the plugin registered under `id`. */
  ghost predicate Shows(view: PluginView, id: string, factories: map<string, PluginFactory>, stores: map<string, Compartment>)
    requires id in factories && WellFormed(factories[id].definitions)
  {
    && view.id == id && view.isEnabled == Active(stores, id)
    && ResolveFor(factories, id, stores) == Success(view.settings)
    && view.definitions == SchemaOf(factories, id)
  }

  lemma ViewsByIdAt(factories: map<string, PluginFactory>, stores: map<string, Compartment>, id: string)
    requires id in factories && WellFormed(factories[id].definitions)
    ensures id in ViewsById(factories, stores) && ViewsById(factories, stores)[id] == ViewFor(factories, id, stores)
    ensures ViewFor(factories, id, stores).Success? <==> ResolveFor(factories, id, stores).Success?
    ensures ViewFor(factories, id, stores).Failure? ==> ViewFor(factories, id, stores).error == ResolveFor(factories, id, stores).error
    ensures ViewFor(factories, id, stores).Success? ==> Shows(ViewFor(factories, id, stores).value, id, factories, stores)
  {
  }

  lemma ViewsByIdTotal(ids: seq<string>, factories: map<string, PluginFactory>, stores: map<string, Compartment>)
    requires Reloadable(ids, factories)
    ensures forall id :: id in ids ==> id in ViewsById(factories, stores)
  {
  }

  /** `getPlugins` answers exactly when every registered plugin's settings resolve. */
  lemma ViewsSpec(ids: seq<string>, factories: map<string, PluginFactory>, stores: map<string, Compartment>)
    requires Reloadable(ids, factories)
    ensures ViewsOver(ids, factories, stores).Success? <==>
      forall i :: 0 <= i < |ids| ==> ResolveFor(factories, ids[i], stores).Success?
  {
    var results := ViewsById(factories, stores);
    ViewsByIdTotal(ids, factories, stores);
    GatherFirstFailure(ids, results, |ids|);
    forall i | 0 <= i < |ids| ensures results[ids[i]].Success? <==> ResolveFor(factories, ids[i], stores).Success? {
      ViewsByIdAt(factories, stores, ids[i]);
    }
  }

  /**
   * When `getPlugins` answers, it lists one entry per registered plugin in registry order: its
   * id, enabled flag, resolved settings and schema.
   */
  lemma ViewsEntries(ids: seq<string>, factories: map<string, PluginFactory>, stores: map<string, Compartment>)
    requires Reloadable(ids, factories)
    ensures ViewsOver(ids, factories, stores).Success? ==>
      var views := ViewsOver(ids, factories, stores).value;
      |views| == |ids| && forall i :: 0 <= i < |ids| ==> Shows(views[i], ids[i], factories, stores)
  {
    if ViewsOver(ids, factories, stores).Success? {
      var results := ViewsById(factories, stores);
      ViewsByIdTotal(ids, factories, stores);
      GatherAt(ids, results, |ids|);
      var views := Gather(ids, |ids|, results).value;
      forall i | 0 <= i < |ids| ensures Shows(views[i], ids[i], factories, stores) {
        ViewsByIdAt(factories, stores, ids[i]);
      }
    }
  }

  /** When `getPlugins` rejects, the error is that of the first registered plugin whose settings do not resolve. */
  lemma ViewsFirstFailure(ids: seq<string>, factories: map<string, PluginFactory>, stores: map<string, Compartment>)
    requires Reloadable(ids, factories)
    ensures ViewsOver(ids, factories, stores).Failure? ==>
      exists i :: FirstUnresolved(ids, factories, stores, i, ViewsOver(ids, factories, stores).error)
  {
    if ViewsOver(ids, factories, stores).Failure? {
      var results := ViewsById(factories, stores);
      ViewsByIdTotal(ids, factories, stores);
      GatherFirstFailure(ids, results, |ids|);
      var e := Gather(ids, |ids|, results).error;
      var i :| 0 <= i < |ids| && results[ids[i]] == Failure(e) && forall j :: 0 <= j < i ==> results[ids[j]].Success?;
      ViewsByIdAt(factories, stores, ids[i]);
      forall j | 0 <= j < i ensures ResolveFor(factories, ids[j], stores).Success? {
        ViewsByIdAt(factories, stores, ids[j]);
      }
      assert FirstUnresolved(ids, factories, stores, i, e);
    }
  }

  /**
   * When `getPlugins` answers, a reload from the same store succeeds too, and a plugin is
   * active after it exactly when its entry says it is enabled, with the settings its entry shows.
   */
  lemma ViewsAgreeWithReload(ids: seq<string>, factories: map<string, PluginFactory>, stores: map<string, Compartment>)
    requires Registered(ids, factories)
    requires ViewsOver(ids, factories, stores).Success?
    ensures ReloadOver(ids, factories, stores).error.None?
    ensures var views := ViewsOver(ids, factories, stores).value;
      var active := ReloadOver(ids, factories, stores).active;
      |views| == |ids| && forall i :: 0 <= i < |ids| ==>
        && (ids[i] in active.entries <==> views[i].isEnabled)
        && (views[i].isEnabled ==> active.entries[ids[i]] == views[i].settings)
  {
    ViewsEntries(ids, factories, stores);
    ReloadWhenViewed(ids, factories, stores);
    var views := ViewsOver(ids, factories, stores).value;
    var o := ReloadOver(ids, factories, stores);
    forall i | 0 <= i < |ids|
      ensures ids[i] in o.active.entries <==> views[i].isEnabled
      ensures views[i].isEnabled ==> o.active.entries[ids[i]] == views[i].settings
    {
      EntryAgrees(views[i], ids[i], factories, stores, o.active);
    }
  }

  lemma EntryAgrees(view: PluginView, id: string, factories: map<string, PluginFactory>, stores: map<string, Compartment>,
                    active: OrderedMap<Record>)
    requires id in factories && WellFormed(factories[id].definitions)
    requires Shows(view, id, factories, stores)
    requires id in active.entries <==> Active(stores, id)
    requires id in active.entries ==> ResolveFor(factories, id, stores) == Success(active.entries[id])
    ensures id in active.entries <==> view.isEnabled
    ensures view.isEnabled ==> active.entries[id] == view.settings
  {
  }

  /** When `getPlugins` answers, a reload stops at no plugin and holds the enabled ones with their resolved settings. */
  lemma ReloadWhenViewed(ids: seq<string>, factories: map<string, PluginFactory>, stores: map<string, Compartment>)
    requires Registered(ids, factories)
    requires ViewsOver(ids, factories, stores).Success?
    ensures var o := ReloadOver(ids, factories, stores);
      && o.error.None?
      && (forall id :: id in o.active.entries <==> id in ids && Active(stores, id))
      && (forall id :: id in o.active.entries ==> ResolveFor(factories, id, stores) == Success(o.active.entries[id]))
  {
    ViewsSpec(ids, factories, stores);
    ReloadSpec(ids, factories, stores);
    forall id | id in ids && Active(stores, id) ensures ResolveFor(factories, id, stores).Success? {
      var i :| 0 <= i < |ids| && ids[i] == id;
    }
  }

  /** `m` is the store manager registered under `id`, reading the store `stores`. */
  ghost predicate ReadsAs(m: PluginStoreManager, id: string, factories: map<string, PluginFactory>, stores: map<string, Compartment>)
    reads m.database
  {
    && id in factories && WellFormed(factories[id].definitions)
    && m.plugin == factories[id] && m.plugin.id == id
    && m.storeKey == StoreName(id) && m.database.stores == stores
  }

  /** Every manager `getManagedPlugins` lists reads the store as the one registered under its id. */
  lemma ManagersReadAs(pm: PluginsManager)
    requires pm.Valid()
    ensures Reloadable(pm.registeredPlugins.order, pm.Factories().entries)
    ensures forall i :: 0 <= i < |pm.GetManagedPlugins()| ==>
      ReadsAs(pm.GetManagedPlugins()[i], pm.registeredPlugins.order[i], pm.Factories().entries, pm.database.stores)
  {
    RegisteredManager(pm);
    var managers := pm.GetManagedPlugins();
    forall i | 0 <= i < |managers|
      ensures ReadsAs(managers[i], pm.registeredPlugins.order[i], pm.Factories().entries, pm.database.stores)
    {
      var id := pm.registeredPlugins.order[i];
      assert ManagerFits(pm.registeredPlugins.entries[id], id, pm.database, pm.storedNotifications);
    }
  }

  /** One entry of the reply, read through the plugin's store manager: its flag, its resolved settings and its schema. */
  method ReadView(m: PluginStoreManager, ghost factories: map<string, PluginFactory>, ghost stores: map<string, Compartment>)
    returns (r: Result<PluginView, SettingError>)
    requires ReadsAs(m, m.plugin.id, factories, stores)
    ensures r == ViewFor(factories, m.plugin.id, stores)
  {
    var isEnabled := m.IsEnabled();
    var settings := m.GetSettingsWithDefaults();
    if settings.Failure? {
      return Failure(settings.error);
    }
    return Success(PluginView(m.plugin.id, isEnabled, settings.value, m.AllDefinitions()));
  }

  /** The loop of `handleGetPlugins`: one entry per manager, in order, until a plugin's settings fail to resolve. */
  method ReadViews(managers: seq<PluginStoreManager>, ghost ids: seq<string>, ghost factories: map<string, PluginFactory>,
                   ghost stores: map<string, Compartment>)
    returns (r: Result<seq<PluginView>, SettingError>)
    requires |managers| == |ids| && Reloadable(ids, factories)
    requires forall i :: 0 <= i < |managers| ==> ReadsAs(managers[i], ids[i], factories, stores)
    ensures r == ViewsOver(ids, factories, stores)
  {
    ghost var results := ViewsById(factories, stores);
    ViewsByIdTotal(ids, factories, stores);
    var views: seq<PluginView> := [];
    var i := 0;
    while i < |managers|
      invariant 0 <= i <= |managers|
      invariant Gather(ids, i, results) == Success(views)
    {
      var view := ReadView(managers[i], factories, stores);
      ViewsByIdAt(factories, stores, ids[i]);
      if view.Failure? {
        GatherSticks(ids, results, i + 1, |ids|);
        return Failure(view.error);
      }
      views := views + [view.value];
      i := i + 1;
    }
    return Success(views);
  }

  /**
   * `handleGetPlugins`: reads every registered plugin's flag and resolved settings; nothing is
   * written.
   */
  method HandleGetPlugins(pm: PluginsManager) returns (r: Result<seq<PluginView>, SettingError>)
    requires pm.Valid()
    ensures r == ViewsOver(pm.registeredPlugins.order, pm.Factories().entries, pm.database.stores)
  {
    var managers := pm.GetManagedPlugins();
    ManagersReadAs(pm);
    r := ReadViews(managers, pm.registeredPlugins.order, pm.Factories().entries, pm.database.stores);
  }

  // ---------------------------------------------------------------------------------------
  // The three commands: togglePlugin, updatePluginSettings, resetPlugin

  predicate IsCommand(message: Message) {
    message.TogglePlugin? || message.UpdatePluginSettings? || message.ResetPlugin?
  }

  /**
   * The lenient check a command runs before it writes: none for a toggle, the submitted record
   * for an update, the record of defaults for a reset.
   */
  function CommandCheck(message: Message, factories: map<string, PluginFactory>): Outcome<SettingError>
    requires IsCommand(message) && message.pluginId in factories
    requires WellFormed(factories[message.pluginId].definitions)
  {
    var defs := SchemaOf(factories, message.pluginId);
    match message
    case TogglePlugin(_, _) => Pass
    case UpdatePluginSettings(_, settings) => Validate(defs, settings, true)
    case ResetPlugin(_) => Validate(defs, Defaults(defs), true)
  }

  /** Whether the handler writes to the store and reloads: a command for a registered plugin that passes its check. */
  predicate Accepted(message: Message, factories: map<string, PluginFactory>)
    requires forall id :: id in factories ==> WellFormed(factories[id].definitions)
  {
    IsCommand(message) && message.pluginId in factories && CommandCheck(message, factories).Pass?
  }

  /**
   * The store after a message: an accepted toggle sets the plugin's flag, an accepted update
   * stores the submitted record whole, an accepted reset stores the record of defaults; every
   * other message leaves the store as it was.
   */
  function StoresAfter(message: Message, factories: map<string, PluginFactory>, stores: map<string, Compartment>): map<string, Compartment>
    requires forall id :: id in factories ==> WellFormed(factories[id].definitions)
  {
    if !Accepted(message, factories) then stores
    else
      var name := StoreName(message.pluginId);
      var c := StoreOf(stores, name);
      var defs := SchemaOf(factories, message.pluginId);
      match message
      case TogglePlugin(_, enabled) => stores[name := c.(enabledFlag := Some(enabled))]
      case UpdatePluginSettings(_, settings) => stores[name := c.(settings := Some(settings))]
      case ResetPlugin(_) => stores[name := c.(settings := Some(Defaults(defs)))]
  }

  /**
   * What a command settles to: an unknown id is rejected before anything happens, a record
   * that fails its check is rejected before the write, and otherwise the reload that follows
   * the write decides.
   */
  function CommandOutcome(message: Message, ids: seq<string>, factories: map<string, PluginFactory>, stores: map<string, Compartment>): Outcome<PluginError>
    requires IsCommand(message) && Registered(ids, factories)
  {
    if message.pluginId !in factories then Fail(PluginNotFound(message.pluginId))
    else if CommandCheck(message, factories).Fail? then Fail(InvalidSettings(CommandCheck(message, factories).error))
    else
      var reloaded := ReloadOver(ids, factories, StoresAfter(message, factories, stores));
      if reloaded.error.Some? then Fail(InvalidSettings(reloaded.error.value)) else Pass
  }

  /**
   * What each command handler guarantees, given the store, the registry and the active
   * plugins before it ran: the registry does not change, the store becomes `StoresAfter`, the
   * reply is `CommandOutcome`, and the active plugins are those a reload from the new store
   * gives when the command was accepted, and stay as they were otherwise.
   */
  ghost predicate CommandDone(pm: PluginsManager, message: Message, stores: map<string, Compartment>,
    registered: OrderedMap<PluginStoreManager>, enabled: OrderedMap<PluginInstance>, r: Outcome<PluginError>)
    requires IsCommand(message)
    reads pm, pm.database
  {
    && pm.Valid() && pm.registeredPlugins == registered
    && Registered(pm.registeredPlugins.order, pm.Factories().entries)
    && pm.database.stores == StoresAfter(message, pm.Factories().entries, stores)
    && r == CommandOutcome(message, pm.registeredPlugins.order, pm.Factories().entries, stores)
    && (Accepted(message, pm.Factories().entries) ==>
          SettingsOf(pm.enabledPlugins) == pm.Reloaded().active && InstancesFit(pm.enabledPlugins, pm.registeredPlugins))
    && (!Accepted(message, pm.Factories().entries) ==> pm.enabledPlugins == enabled)
  }

  /** `handleTogglePlugin`: look the plugin up, store its flag, reload. */
  method HandleTogglePlugin(pm: PluginsManager, pluginId: string, enabled: bool) returns (r: Outcome<PluginError>)
    requires pm.Valid()
    modifies pm, pm.database
    ensures CommandDone(pm, TogglePlugin(pluginId, enabled), old(pm.database.stores), old(pm.registeredPlugins), old(pm.enabledPlugins), r)
  {
    RegisteredManager(pm);
    ghost var factories := pm.Factories().entries;
    ghost var stores := pm.database.stores;
    var found := pm.GetManagedPlugin(pluginId);
    if found.Failure? {
      assert pluginId !in factories;
      return Fail(found.error);
    }
    var plugin := found.value;
    pm.ManagerAgrees(pluginId);
    plugin.SetEnabled(enabled);
    assert Accepted(TogglePlugin(pluginId, enabled), factories);
    assert pm.database.stores == StoresAfter(TogglePlugin(pluginId, enabled), factories, stores);
    r := pm.ReloadAllSettings();
  }

  /** `handleUpdatePluginSettings`: look the plugin up, store the submitted record if it passes, reload. */
  method HandleUpdatePluginSettings(pm: PluginsManager, pluginId: string, settings: Record) returns (r: Outcome<PluginError>)
    requires pm.Valid()
    modifies pm, pm.database
    ensures CommandDone(pm, UpdatePluginSettings(pluginId, settings), old(pm.database.stores), old(pm.registeredPlugins), old(pm.enabledPlugins), r)
  {
    RegisteredManager(pm);
    ghost var factories := pm.Factories().entries;
    ghost var stores := pm.database.stores;
    var found := pm.GetManagedPlugin(pluginId);
    if found.Failure? {
      assert pluginId !in factories;
      return Fail(found.error);
    }
    var plugin := found.value;
    pm.ManagerAgrees(pluginId);
    var written := plugin.SetSettings(settings);
    assert written == CommandCheck(UpdatePluginSettings(pluginId, settings), factories);
    assert pm.database.stores == StoresAfter(UpdatePluginSettings(pluginId, settings), factories, stores);
    if written.Fail? {
      return Fail(InvalidSettings(written.error));
    }
    r := pm.ReloadAllSettings();
  }

  /** `handleResetPlugin`: look the plugin up, store its record of defaults if it passes, reload. */
  method HandleResetPlugin(pm: PluginsManager, pluginId: string) returns (r: Outcome<PluginError>)
    requires pm.Valid()
    modifies pm, pm.database
    ensures CommandDone(pm, ResetPlugin(pluginId), old(pm.database.stores), old(pm.registeredPlugins), old(pm.enabledPlugins), r)
  {
    RegisteredManager(pm);
    ghost var factories := pm.Factories().entries;
    ghost var stores := pm.database.stores;
    var found := pm.GetManagedPlugin(pluginId);
    if found.Failure? {
      assert pluginId !in factories;
      return Fail(found.error);
    }
    var plugin := found.value;
    pm.ManagerAgrees(pluginId);
    var defaults := plugin.BuildDefaultSettings();
    assert defaults == Defaults(SchemaOf(factories, pluginId));
    var written := plugin.SetSettings(defaults);
    assert written == CommandCheck(ResetPlugin(pluginId), factories);
    assert pm.database.stores == StoresAfter(ResetPlugin(pluginId), factories, stores);
    if written.Fail? {
      return Fail(InvalidSettings(written.error));
    }
    r := pm.ReloadAllSettings();
  }

  /**
   * After a toggle the plugin's flag alone decides whether it is active: switched off it has
   * no instance, switched on it has one unless the reload failed; no other plugin's flag moves.
   */
  lemma ToggleDecidesActive(ids: seq<string>, factories: map<string, PluginFactory>, stores: map<string, Compartment>, id: string, enabled: bool)
    requires Registered(ids, factories) && id in factories
    ensures var after := StoresAfter(TogglePlugin(id, enabled), factories, stores);
      var reloaded := ReloadOver(ids, factories, after);
      && (!enabled ==> id !in reloaded.active.entries)
      && (enabled && reloaded.error.None? ==> id in reloaded.active.entries)
      && (forall other :: other != id ==> Active(after, other) == Active(stores, other))
  {
    var after := StoresAfter(TogglePlugin(id, enabled), factories, stores);
    ReloadSpec(ids, factories, after);
    forall other | other != id ensures Active(after, other) == Active(stores, other) {
      StoreNameInjective(other, id);
    }
  }

  /**
   * An accepted update replaces the stored overrides rather than merging them: the plugin then
   * resolves from the submitted record alone, and no other plugin's store changes.
   */
  lemma UpdateReplacesOverrides(factories: map<string, PluginFactory>, stores: map<string, Compartment>, id: string, settings: Record)
    requires forall k :: k in factories ==> WellFormed(factories[k].definitions)
    requires Accepted(UpdatePluginSettings(id, settings), factories)
    ensures var after := StoresAfter(UpdatePluginSettings(id, settings), factories, stores);
      && ResolveFor(factories, id, after) == Resolve(SchemaOf(factories, id), Some(settings))
      && StoreOf(after, StoreName(id)).enabledFlag == StoreOf(stores, StoreName(id)).enabledFlag
      && forall other :: other != id ==> StoreOf(after, StoreName(other)) == StoreOf(stores, StoreName(other))
  {
    forall other | other != id ensures StoreName(other) != StoreName(id) {
      StoreNameInjective(other, id);
    }
  }

  /**
   * A reset is accepted and afterwards resolves to exactly the plugin's defaults whenever every
   * default passes strict validation; when some default does not (one left `undefined`, say),
   * the plugin's settings no longer resolve after the reset.
   */
  lemma ResetRestoresDefaults(factories: map<string, PluginFactory>, stores: map<string, Compartment>, id: string)
    requires forall k :: k in factories ==> WellFormed(factories[k].definitions)
    requires id in factories
    ensures var defs := SchemaOf(factories, id);
      var after := StoresAfter(ResetPlugin(id), factories, stores);
      && (Validate(defs, Defaults(defs), false).Pass? ==>
            Accepted(ResetPlugin(id), factories) && ResolveFor(factories, id, after) == Success(Defaults(defs)))
      && (Accepted(ResetPlugin(id), factories) && Validate(defs, Defaults(defs), false).Fail? ==>
            ResolveFor(factories, id, after).Failure?)
  {
    var defs := SchemaOf(factories, id);
    StrictIsLenientWithoutMissing(defs.order, defs.entries, Defaults(defs));
    ResolveStoredDefaults(defs);
  }

  // ---------------------------------------------------------------------------------------
  // getNotifications and the listener

  /**
   * `handleGetNotifications`: the three fields are passed on as they are; a missing limit or
   * offset takes the fetch's own default, and a rejected fetch rejects the handler.
   */
  method HandleGetNotifications(nm: StoredNotificationsManager, limit: Option<int>, offset: Option<int>, pluginId: Option<string>)
    returns (notifications: Result<seq<Notification>, FetchError>)
    requires nm.Valid()
    ensures notifications == Fetch(IndexView(nm.records, pluginId),
      if limit.Some? then limit.value else DefaultLimit, if offset.Some? then offset.value else DefaultOffset)
  {
    notifications := nm.FetchNotifications(
      if limit.Some? then limit.value else DefaultLimit, if offset.Some? then offset.value else DefaultOffset, pluginId);
  }

  /**
   * The reply the listener settles to for a message, from the registry, the store before the
   * message and the notification records.
   */
  ghost function ReplyFor(message: Message, ids: seq<string>, factories: map<string, PluginFactory>, stores: map<string, Compartment>, records: seq<Notification>): Reply
    requires Registered(ids, factories)
  {
    match message
    case GetPlugins =>
      (match ViewsOver(ids, factories, stores)
       case Success(views) => PluginsReply(views)
       case Failure(e) => Rejected(InvalidSettings(e)))
    case GetNotifications(limit, offset, pluginId) =>
      (match Fetch(IndexView(records, pluginId),
         if limit.Some? then limit.value else DefaultLimit, if offset.Some? then offset.value else DefaultOffset)
       case Success(page) => NotificationsReply(page)
       case Failure(e) => NotificationsRejected(e))
    case Unrecognized(_) => NoReply
    case _ =>
      (match CommandOutcome(message, ids, factories, stores)
       case Pass => Done
       case Fail(e) => Rejected(e))
  }

  /**
   * `mainWorkerApiMessageListener`: each action goes to its own handler. Reads leave the store
   * and the active plugins alone; an accepted command changes the store as `StoresAfter` says
   * and rebuilds the active plugins from it.
   */
  method MessageListener(pm: PluginsManager, nm: StoredNotificationsManager, message: Message) returns (reply: Reply)
    requires pm.Valid() && nm.Valid()
    modifies pm, pm.database
    ensures pm.Valid() && pm.registeredPlugins == old(pm.registeredPlugins)
    ensures Registered(pm.registeredPlugins.order, pm.Factories().entries)
    ensures pm.database.stores == StoresAfter(message, pm.Factories().entries, old(pm.database.stores))
    ensures reply == ReplyFor(message, pm.registeredPlugins.order, pm.Factories().entries, old(pm.database.stores), nm.records)
    ensures Accepted(message, pm.Factories().entries) ==> SettingsOf(pm.enabledPlugins) == pm.Reloaded().active
    ensures !Accepted(message, pm.Factories().entries) ==> pm.enabledPlugins == old(pm.enabledPlugins)
  {
    RegisteredManager(pm);
    match message {
      case GetPlugins =>
        var views := HandleGetPlugins(pm);
        reply := if views.Success? then PluginsReply(views.value) else Rejected(InvalidSettings(views.error));
      case TogglePlugin(pluginId, enabled) =>
        var r := HandleTogglePlugin(pm, pluginId, enabled);
        reply := if r.Pass? then Done else Rejected(r.error);
      case UpdatePluginSettings(pluginId, settings) =>
        var r := HandleUpdatePluginSettings(pm, pluginId, settings);
        reply := if r.Pass? then Done else Rejected(r.error);
      case GetNotifications(limit, offset, pluginId) =>
        var notifications := HandleGetNotifications(nm, limit, offset, pluginId);
        reply := if notifications.Success? then NotificationsReply(notifications.value) else NotificationsRejected(notifications.error);
      case ResetPlugin(pluginId) =>
        var r := HandleResetPlugin(pm, pluginId);
        reply := if r.Pass? then Done else Rejected(r.error);
      case Unrecognized(_) =>
        reply := NoReply;
    }
  }
}
