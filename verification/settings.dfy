/**
 * The settings schema of a plugin and the checks `PluginStoreManager` runs on it
 * (source/background/pluginsManager.ts): the four kinds of setting definition, the two
 * suggested settings every plugin inherits, the record of defaults, the lenient and the
 * strict validation, and the resolution of stored overrides against the defaults.
 */
module Settings {
  import opened Wrappers
  import opened Values
  import opened OrderedMaps

  /** One setting definition; `defaultValue` is whatever the plugin wrote, `undefined` included. */
  datatype SettingDef =
    | BooleanDef(defaultValue: Value)
    | NumberDef(defaultValue: Value, min: Option<int>, max: Option<int>)
    | StringDef(defaultValue: Value, pattern: Option<string -> bool>)
    | EnumDef(defaultValue: Value, values: seq<string>)

  /**
   * A `Record<string, PluginSettingDefinition>`: its keys in the order `Object.entries` visits
   * them (which decides which error validation reports first) and the definition of each.
   */
  type Definitions = OrderedMap<SettingDef>

  function KeysOf(defs: Definitions): set<string> {
    defs.entries.Keys
  }

  const RateLimitKey: string := "suggestedNotificationRateLimit"
  const PriorityKey: string := "suggestedNotificationPriority"

  /** The two settings every plugin inherits: a rate-limit window in minutes and a priority. */
  const SuggestedRateLimit: SettingDef := NumberDef(Num(Integral(60)), Some(0), None)
  const SuggestedPriority: SettingDef := EnumDef(Str("regular"), ["silent", "regular", "urgent"])
  const SuggestedDefinitions: Definitions :=
    OrderedMap([RateLimitKey, PriorityKey], map[RateLimitKey := SuggestedRateLimit, PriorityKey := SuggestedPriority])

  /** `IPluginFactory.getSettingsDefinitionsWithSuggestions`: the plugin's own definitions spread over the suggested ones. */
  function WithSuggestions(pluginDefs: Definitions): Definitions
    requires Listed(pluginDefs)
  {
    Spread(SuggestedDefinitions, pluginDefs)
  }

  lemma SuggestedWellFormed()
    ensures RateLimitKey != PriorityKey
    ensures WellFormed(SuggestedDefinitions) && SuggestedDefinitions.entries.Keys == {RateLimitKey, PriorityKey}
  {
    assert RateLimitKey[21] == 'R' && PriorityKey[21] == 'P';
  }

  /**
   * Every plugin's definitions hold both suggested keys, first and in that order; a plugin's own
   * definition under one of them wins, and the plugin's other definitions are kept as they are.
   */
  lemma {:induction false} SuggestionsPresent(pluginDefs: Definitions)
    requires WellFormed(pluginDefs)
    ensures WellFormed(WithSuggestions(pluginDefs))
    ensures KeysOf(WithSuggestions(pluginDefs)) == {RateLimitKey, PriorityKey} + KeysOf(pluginDefs)
    ensures WithSuggestions(pluginDefs).order[..2] == [RateLimitKey, PriorityKey]
    ensures WithSuggestions(pluginDefs).entries[RateLimitKey] ==
      if RateLimitKey in pluginDefs.entries then pluginDefs.entries[RateLimitKey] else SuggestedRateLimit
    ensures WithSuggestions(pluginDefs).entries[PriorityKey] ==
      if PriorityKey in pluginDefs.entries then pluginDefs.entries[PriorityKey] else SuggestedPriority
    ensures forall k :: k in pluginDefs.entries ==> WithSuggestions(pluginDefs).entries[k] == pluginDefs.entries[k]
  {
    SuggestedWellFormed();
    var r := WithSuggestions(pluginDefs);
    SpreadShape(SuggestedDefinitions, pluginDefs);
    SpreadKeys(SuggestedDefinitions, pluginDefs);
    SpreadEntries(SuggestedDefinitions, pluginDefs);
    assert KeySet(pluginDefs.order) == pluginDefs.entries.Keys;
    assert r.order[..2] == [RateLimitKey, PriorityKey];
    assert RateLimitKey !in pluginDefs.entries ==> r.entries[RateLimitKey] == SuggestedRateLimit;
    assert PriorityKey !in pluginDefs.entries ==> r.entries[PriorityKey] == SuggestedPriority;
  }

  /** A plugin's definitions with the suggested ones under them, for a plugin whose definitions are an object literal. */
  function Schema(pluginDefs: Definitions): (defs: Definitions)
    requires WellFormed(pluginDefs)
    ensures WellFormed(defs) && defs == WithSuggestions(pluginDefs)
  {
    SuggestionsPresent(pluginDefs);
    WithSuggestions(pluginDefs)
  }

  /** The loop of `buildDefaultSettings` over the first keys of the definitions: each key mapped to its `default`. */
  function DefaultsOver(keys: seq<string>, entries: map<string, SettingDef>): Record
    requires forall k :: k in keys ==> k in entries
  {
    if keys == [] then map[]
    else
      var key := keys[|keys| - 1];
      DefaultsOver(keys[..|keys| - 1], entries)[key := entries[key].defaultValue]
  }

  /** `buildDefaultSettings`. */
  function Defaults(defs: Definitions): Record
    requires Listed(defs)
  {
    DefaultsOver(defs.order, defs.entries)
  }

  /** The record of defaults maps exactly the definition keys, each to its own `default`. */
  lemma {:induction false} DefaultsOverSpec(keys: seq<string>, entries: map<string, SettingDef>)
    requires forall k :: k in keys ==> k in entries
    ensures DefaultsOver(keys, entries).Keys == set k | k in keys
    ensures forall k :: k in keys ==> DefaultsOver(keys, entries)[k] == entries[k].defaultValue
  {
    if keys != [] {
      var n := |keys| - 1;
      DefaultsOverSpec(keys[..n], entries);
      assert keys == keys[..n] + [keys[n]];
    }
  }

  lemma DefaultsSpec(defs: Definitions)
    requires WellFormed(defs)
    ensures Defaults(defs).Keys == KeysOf(defs)
    ensures forall k :: k in defs.entries ==> Defaults(defs)[k] == defs.entries[k].defaultValue
  {
    DefaultsOverSpec(defs.order, defs.entries);
  }

  datatype ErrorKind =
    | Missing | NotBoolean | NotNumber | NotFinite | NotSafeInteger | BelowMin | AboveMax
    | NotString | PatternMismatch | NotEnumString | NotEnumMember

  /** The error `validateSettingsDefinitions` throws: the offending key and what was wrong. */
  datatype SettingError = SettingError(key: string, kind: ErrorKind)

  /**
   * The check of one value against its definition; `None` when it passes. `undefined` is
   * skipped in lenient mode and rejected in strict mode; otherwise a boolean must be a boolean,
   * a number a safe integer within its inclusive bounds, a string must pass its pattern and an
   * enum value must be a string among `values`.
   */
  function CheckValue(def: SettingDef, v: Value, acceptMissing: bool): (r: Option<ErrorKind>)
    ensures v == Undefined ==> (r.None? <==> acceptMissing)
    ensures v != Undefined ==> (r.None? <==>
      match def
      case BooleanDef(_) => v.Bool?
      case NumberDef(_, min, max) =>
        v.Num? && IsSafeInteger(v.n) && (min.Some? ==> min.value <= v.n.i) && (max.Some? ==> v.n.i <= max.value)
      case StringDef(_, pattern) => v.Str? && (pattern.Some? ==> pattern.value(v.s))
      case EnumDef(_, values) => v.Str? && v.s in values)
    ensures def.NumberDef? && v.Num? && (v.n.Infinite? || v.n.NaN?) ==> r == Some(NotFinite)
    ensures def.NumberDef? && v.Num? && v.n.Fractional? ==> r == Some(NotSafeInteger)
  {
    if v == Undefined then
      if acceptMissing then None else Some(Missing)
    else
      match def
      case BooleanDef(_) =>
        if !v.Bool? then Some(NotBoolean) else None
      case NumberDef(_, min, max) =>
        if !v.Num? then Some(NotNumber)
        else if v.n.Infinite? || v.n.NaN? then Some(NotFinite)
        else if !IsSafeInteger(v.n) then Some(NotSafeInteger)
        else if min.Some? && v.n.i < min.value then Some(BelowMin)
        else if max.Some? && v.n.i > max.value then Some(AboveMax)
        else None
      case StringDef(_, pattern) =>
        if !v.Str? then Some(NotString)
        else if pattern.Some? && !pattern.value(v.s) then Some(PatternMismatch)
        else None
      case EnumDef(_, values) =>
        if !v.Str? then Some(NotEnumString)
        else if v.s !in values then Some(NotEnumMember)
        else None
  }

  /** Whether the value stored under `key` passes that key's definition. */
  ghost predicate KeyAccepted(entries: map<string, SettingDef>, settings: Record, key: string, acceptMissing: bool)
    requires key in entries
  {
    CheckValue(entries[key], Get(settings, key), acceptMissing).None?
  }

  /** The loop of `validateSettingsDefinitions` over the given keys: the first failure is thrown. */
  function ValidateKeys(keys: seq<string>, entries: map<string, SettingDef>, settings: Record, acceptMissing: bool): Outcome<SettingError>
    requires forall k :: k in keys ==> k in entries
  {
    if keys == [] then Pass
    else
      match CheckValue(entries[keys[0]], Get(settings, keys[0]), acceptMissing)
      case Some(kind) => Fail(SettingError(keys[0], kind))
      case None => ValidateKeys(keys[1..], entries, settings, acceptMissing)
  }

  /** `validateSettingsDefinitions`: the definitions are visited in order; the first failure is thrown. */
  function Validate(defs: Definitions, settings: Record, acceptMissing: bool): Outcome<SettingError>
    requires Listed(defs)
  {
    ValidateKeys(defs.order, defs.entries, settings, acceptMissing)
  }

  /**
   * Validation passes exactly when every defined key's value passes its own definition; when it
   * fails, the error names the first key (in order) whose value does not pass.
   */
  lemma {:induction false} ValidateKeysSpec(keys: seq<string>, entries: map<string, SettingDef>, settings: Record, acceptMissing: bool)
    requires forall k :: k in keys ==> k in entries
    ensures ValidateKeys(keys, entries, settings, acceptMissing).Pass? <==>
      forall i :: 0 <= i < |keys| ==> KeyAccepted(entries, settings, keys[i], acceptMissing)
    ensures ValidateKeys(keys, entries, settings, acceptMissing).Fail? ==>
      exists i :: 0 <= i < |keys| && ValidateKeys(keys, entries, settings, acceptMissing).error.key == keys[i]
        && !KeyAccepted(entries, settings, keys[i], acceptMissing)
        && (forall j :: 0 <= j < i ==> KeyAccepted(entries, settings, keys[j], acceptMissing))
  {
    if keys != [] {
      var tail := keys[1..];
      ValidateKeysSpec(tail, entries, settings, acceptMissing);
      if KeyAccepted(entries, settings, keys[0], acceptMissing) {
        if ValidateKeys(tail, entries, settings, acceptMissing).Fail? {
          var i :| 0 <= i < |tail| && ValidateKeys(tail, entries, settings, acceptMissing).error.key == tail[i]
            && !KeyAccepted(entries, settings, tail[i], acceptMissing)
            && (forall j :: 0 <= j < i ==> KeyAccepted(entries, settings, tail[j], acceptMissing));
          assert keys[i + 1] == tail[i];
          forall j | 0 <= j < i + 1 ensures KeyAccepted(entries, settings, keys[j], acceptMissing) {
            if j > 0 { assert keys[j] == tail[j - 1]; }
          }
        } else {
          forall i | 0 <= i < |keys| ensures KeyAccepted(entries, settings, keys[i], acceptMissing) {
            if i > 0 { assert keys[i] == tail[i - 1]; }
          }
        }
      }
    }
  }

  /** A thrown error names a defined key and the very check that key's value failed. */
  lemma {:induction false} ValidateKeysError(keys: seq<string>, entries: map<string, SettingDef>, settings: Record, acceptMissing: bool)
    requires forall k :: k in keys ==> k in entries
    ensures ValidateKeys(keys, entries, settings, acceptMissing).Fail? ==>
      var e := ValidateKeys(keys, entries, settings, acceptMissing).error;
      e.key in keys && CheckValue(entries[e.key], Get(settings, e.key), acceptMissing) == Some(e.kind)
  {
    if keys != [] && CheckValue(entries[keys[0]], Get(settings, keys[0]), acceptMissing).None? {
      ValidateKeysError(keys[1..], entries, settings, acceptMissing);
    }
  }

  lemma ValidateSpec(defs: Definitions, settings: Record, acceptMissing: bool)
    requires WellFormed(defs)
    ensures Validate(defs, settings, acceptMissing).Pass? <==>
      forall k :: k in defs.entries ==> KeyAccepted(defs.entries, settings, k, acceptMissing)
  {
    ValidateKeysSpec(defs.order, defs.entries, settings, acceptMissing);
    if !Validate(defs, settings, acceptMissing).Pass? {
      var i :| 0 <= i < |defs.order| && !KeyAccepted(defs.entries, settings, defs.order[i], acceptMissing);
      assert defs.order[i] in defs.entries;
    }
  }

  /** Keys no definition mentions are never looked at: adding one does not change the verdict. */
  lemma {:induction false} ExtraKeysIgnored(keys: seq<string>, entries: map<string, SettingDef>, settings: Record, key: string, v: Value, acceptMissing: bool)
    requires forall k :: k in keys ==> k in entries
    requires key !in keys
    ensures ValidateKeys(keys, entries, settings[key := v], acceptMissing) == ValidateKeys(keys, entries, settings, acceptMissing)
  {
    if keys != [] {
      assert Get(settings[key := v], keys[0]) == Get(settings, keys[0]);
      ExtraKeysIgnored(keys[1..], entries, settings, key, v, acceptMissing);
    }
  }

  /** Strict mode only adds the rejection of `undefined`: it passes exactly when lenient mode passes and no defined key is undefined. */
  lemma {:induction false} StrictIsLenientWithoutMissing(keys: seq<string>, entries: map<string, SettingDef>, settings: Record)
    requires forall k :: k in keys ==> k in entries
    ensures ValidateKeys(keys, entries, settings, false).Pass? <==>
      ValidateKeys(keys, entries, settings, true).Pass? && forall k :: k in keys ==> Get(settings, k) != Undefined
  {
    if keys != [] {
      var tail := keys[1..];
      StrictIsLenientWithoutMissing(tail, entries, settings);
      assert forall k :: k in keys <==> k == keys[0] || k in tail;
    }
  }

  /**
   * `getSettingsWithDefaults` without the store read: with nothing stored the defaults are
   * returned unchecked; otherwise the stored record is spread over the defaults and the merge
   * must pass strict validation.
   */
  function Resolve(defs: Definitions, stored: Option<Record>): (r: Result<Record, SettingError>)
    requires Listed(defs)
    ensures stored.None? ==> r == Success(Defaults(defs))
    ensures stored.Some? && r.Success? ==> Validate(defs, r.value, false).Pass?
  {
    match stored
    case None => Success(Defaults(defs))
    case Some(s) =>
      var merged := Defaults(defs) + s;
      match Validate(defs, merged, false)
      case Pass => Success(merged)
      case Fail(e) => Failure(e)
  }

  /**
   * With overrides stored, every defined key resolves to its override when one is stored and to
   * its default otherwise, every other stored key is kept, and the resolution fails exactly when
   * strict validation of that merge fails.
   */
  lemma ResolveMerges(defs: Definitions, s: Record)
    requires WellFormed(defs)
    ensures Resolve(defs, Some(s)).Success? <==> Validate(defs, Defaults(defs) + s, false).Pass?
    ensures Resolve(defs, Some(s)).Success? ==>
      var r := Resolve(defs, Some(s)).value;
      && r.Keys == KeysOf(defs) + s.Keys
      && (forall k :: k in s ==> r[k] == s[k])
      && (forall k :: k in defs.entries && k !in s ==> r[k] == defs.entries[k].defaultValue)
  {
    DefaultsSpec(defs);
  }

  /**
   * Resolution is idempotent: storing a record that resolution produced and resolving again
   * gives that record back.
   */
  lemma ResolveIdempotent(defs: Definitions, stored: Option<Record>)
    requires WellFormed(defs)
    requires Resolve(defs, stored).Success?
    requires stored.None? ==> Validate(defs, Defaults(defs), false).Pass?
    ensures Resolve(defs, Some(Resolve(defs, stored).value)) == Resolve(defs, stored)
  {
    DefaultsSpec(defs);
    var r := Resolve(defs, stored).value;
    if stored.Some? {
      ResolveMerges(defs, stored.value);
    }
    assert Defaults(defs) + r == r;
  }

  /**
   * Storing the full record of defaults and resolving gives the defaults back exactly when
   * every default passes strict validation (which rejects a default left `undefined`).
   */
  lemma ResolveStoredDefaults(defs: Definitions)
    requires WellFormed(defs)
    ensures Resolve(defs, Some(Defaults(defs))).Success? <==> Validate(defs, Defaults(defs), false).Pass?
    ensures Resolve(defs, Some(Defaults(defs))).Success? ==> Resolve(defs, Some(Defaults(defs))).value == Defaults(defs)
  {
    assert Defaults(defs) + Defaults(defs) == Defaults(defs);
  }
  /** Strict validation accepts the record of defaults exactly when every default passes its own definition. */
  lemma DefaultsValid(defs: Definitions)
    requires WellFormed(defs)
    ensures Validate(defs, Defaults(defs), false).Pass? <==>
      forall k :: k in defs.entries ==> CheckValue(defs.entries[k], defs.entries[k].defaultValue, false).None?
  {
    DefaultsSpec(defs);
    ValidateSpec(defs, Defaults(defs), false);
    assert forall k :: k in defs.entries ==> Get(Defaults(defs), k) == defs.entries[k].defaultValue;
  }

  /** The definition a schema holds under each key: the plugin's own, else the suggested one. */
  lemma SchemaEntry(pluginDefs: Definitions, k: string)
    requires WellFormed(pluginDefs)
    ensures WellFormed(Schema(pluginDefs))
    ensures k in Schema(pluginDefs).entries <==> k == RateLimitKey || k == PriorityKey || k in pluginDefs.entries
    ensures k in Schema(pluginDefs).entries ==>
      Schema(pluginDefs).entries[k] == (if k in pluginDefs.entries then pluginDefs.entries[k]
       else if k == RateLimitKey then SuggestedRateLimit else SuggestedPriority)
  {
    SuggestionsPresent(pluginDefs);
    assert KeysOf(Schema(pluginDefs)) == {RateLimitKey, PriorityKey} + KeysOf(pluginDefs);
  }

  /**
   * The defaults of a plugin's schema pass strict validation exactly when the plugin's own
   * defaults do: the two suggested defaults always pass.
   */
  lemma SchemaDefaultsValid(pluginDefs: Definitions)
    requires WellFormed(pluginDefs)
    ensures Validate(Schema(pluginDefs), Defaults(Schema(pluginDefs)), false).Pass? <==>
      forall k :: k in pluginDefs.entries ==> CheckValue(pluginDefs.entries[k], pluginDefs.entries[k].defaultValue, false).None?
  {
    var defs := Schema(pluginDefs);
    DefaultsValid(defs);
    forall k | k in pluginDefs.entries ensures k in defs.entries && defs.entries[k] == pluginDefs.entries[k] {
      SchemaEntry(pluginDefs, k);
    }
    if forall k :: k in pluginDefs.entries ==> CheckValue(pluginDefs.entries[k], pluginDefs.entries[k].defaultValue, false).None? {
      forall k | k in defs.entries ensures CheckValue(defs.entries[k], defs.entries[k].defaultValue, false).None? {
        SchemaEntry(pluginDefs, k);
      }
    }
  }

  /**
   * Whatever the store holds, a record that resolves holds under every key whose default is
   * valid a value that passes that key's definition strictly.
   */
  lemma ResolvedValuePasses(defs: Definitions, stored: Option<Record>, key: string)
    requires WellFormed(defs) && key in defs.entries
    requires CheckValue(defs.entries[key], defs.entries[key].defaultValue, false).None?
    requires Resolve(defs, stored).Success?
    ensures CheckValue(defs.entries[key], Get(Resolve(defs, stored).value, key), false).None?
  {
    DefaultsSpec(defs);
    if stored.Some? {
      ValidateSpec(defs, Resolve(defs, stored).value, false);
      assert KeyAccepted(defs.entries, Resolve(defs, stored).value, key, false);
    }
  }

  /**
   * An empty stored record resolves as the defaults do: it fails exactly when they fail strict
   * validation, and then at a key whose own default is refused, for the reason it is refused.
   */
  lemma ResolveEmptyStored(defs: Definitions)
    requires WellFormed(defs)
    ensures Resolve(defs, Some(map[])).Failure? <==> Validate(defs, Defaults(defs), false).Fail?
    ensures Resolve(defs, Some(map[])).Failure? ==>
      var e := Resolve(defs, Some(map[])).error;
      e.key in defs.entries && CheckValue(defs.entries[e.key], defs.entries[e.key].defaultValue, false) == Some(e.kind)
  {
    assert Defaults(defs) + map[] == Defaults(defs);
    ValidateKeysError(defs.order, defs.entries, Defaults(defs), false);
    DefaultsSpec(defs);
  }

  /**
   * A plugin's own setting with a valid default, read from any record its schema resolves to:
   * the value passes the definition, and with nothing stored it is the default.
   */
  lemma ResolvedOwnValue(pluginDefs: Definitions, stored: Option<Record>, key: string)
    requires WellFormed(pluginDefs) && key in pluginDefs.entries
    requires CheckValue(pluginDefs.entries[key], pluginDefs.entries[key].defaultValue, false).None?
    requires Resolve(Schema(pluginDefs), stored).Success?
    ensures CheckValue(pluginDefs.entries[key], Get(Resolve(Schema(pluginDefs), stored).value, key), false).None?
    ensures stored.None? ==> Get(Resolve(Schema(pluginDefs), stored).value, key) == pluginDefs.entries[key].defaultValue
  {
    var defs := Schema(pluginDefs);
    SchemaEntry(pluginDefs, key);
    ResolvedValuePasses(defs, stored, key);
    DefaultsSpec(defs);
  }

  /**
   * Whatever the store holds, a record that resolves holds under a number setting with a valid
   * default a safe integer within that setting's bounds.
   */
  lemma ResolvedNumberInBounds(defs: Definitions, stored: Option<Record>, key: string)
    requires WellFormed(defs) && key in defs.entries && defs.entries[key].NumberDef?
    requires CheckValue(defs.entries[key], defs.entries[key].defaultValue, false).None?
    requires Resolve(defs, stored).Success?
    ensures var v := Get(Resolve(defs, stored).value, key);
      var d := defs.entries[key];
      && v.Num? && IsSafeInteger(v.n)
      && (d.min.Some? ==> d.min.value <= v.n.i) && (d.max.Some? ==> v.n.i <= d.max.value)
  {
    DefaultsSpec(defs);
    if stored.Some? {
      ValidateSpec(defs, Resolve(defs, stored).value, false);
      assert KeyAccepted(defs.entries, Resolve(defs, stored).value, key, false);
    }
  }
  /**
   * With defaults that pass strict validation, every record `setSettings` accepts (and that
   * holds no `undefined`) resolves: the merge then passes strict validation.
   */
  lemma AcceptedRecordsResolve(defs: Definitions, s: Record)
    requires WellFormed(defs) && Validate(defs, Defaults(defs), false).Pass?
    requires Validate(defs, s, true).Pass? && forall k :: k in s ==> s[k] != Undefined
    ensures Resolve(defs, Some(s)).Success? && Resolve(defs, Some(s)).value == Defaults(defs) + s
  {
    var merged := Defaults(defs) + s;
    DefaultsSpec(defs);
    ValidateSpec(defs, Defaults(defs), false);
    ValidateSpec(defs, s, true);
    ValidateSpec(defs, merged, false);
    forall k | k in defs.entries ensures KeyAccepted(defs.entries, merged, k, false) {
      assert KeyAccepted(defs.entries, Defaults(defs), k, false);
      assert KeyAccepted(defs.entries, s, k, true);
    }
  }
}
