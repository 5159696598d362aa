/**
 * The dot-files detector (source/background/plugins/dotfilesleak/index.ts): the first time a
 * response arrives from an http(s) origin, every enabled dot file is fetched from that origin;
 * a 200 response whose text contains one of the file's markers is reported, rate-limited per
 * host and file.
 */
module DotFilesLeak {
  import opened Wrappers
  import opened Values
  import opened OrderedMaps
  import opened Settings
  import opened Notifications
  import opened Plugins
  import opened Reporting
  import opened LruCaches

  const PluginId: string := "DotFilesLeak"
  const LruCacheSizeKey: string := "lruCacheSize"
  const ConcurrencyKey: string := "concurrency"
  const TimeoutKey: string := "timeout"

  /** A file to probe: its name in the settings, its path, the markers of a real one, and whether it is on by default. */
  datatype DotFile = DotFile(key: string, filename: string, content: seq<string>, enabledByDefault: Option<bool>)

  /** `DOT_FILES`. */
  const DotFiles: seq<DotFile> := [
    DotFile("gitVcs", ".git/HEAD", ["ref: "], Some(true)),
    DotFile("envFile", ".env", ["="], None),
    DotFile("svnVcs", ".svn/wc.db", ["SQLite"], None),
    DotFile("ghVcs", ".hg/store/00manifest.i",
      ["\U{0}\U{0}\U{0}\U{1}", "\U{0}\U{1}\U{0}\U{1}", "\U{0}\U{2}\U{0}\U{1}", "\U{0}\U{3}\U{0}\U{1}"], None)]

  /** `String.prototype.toUpperCase` on the ASCII letters. */
  function UpperChar(c: char): (d: char)
    ensures 'a' <= c <= 'z' ==> d as int == c as int - 32
    ensures !('a' <= c <= 'z') ==> d == c
  {
    if 'a' <= c <= 'z' then (c as int - 32) as char else c
  }

  /** `calculateDotFileSettingsKey`: `check` followed by the key with its first letter in upper case. */
  function SettingsKey(d: DotFile): (k: string)
    ensures |k| == 5 + |d.key| && k[..5] == "check"
    ensures d.key != [] ==> k[5] == UpperChar(d.key[0]) && k[6..] == d.key[1..]
  {
    if d.key == [] then "check" else "check" + [UpperChar(d.key[0])] + d.key[1..]
  }

  /** The toggle of each dot file, in `DOT_FILES` order. */
  const ToggleKeys: seq<string> := ["checkGitVcs", "checkEnvFile", "checkSvnVcs", "checkGhVcs"]

  /** `calculateDotFileSettingsKey` gives each dot file its toggle. */
  lemma SettingsKeys()
    ensures |DotFiles| == |ToggleKeys| == 4
    ensures forall i :: 0 <= i < |DotFiles| ==> SettingsKey(DotFiles[i]) == ToggleKeys[i]
  {
    forall i | 0 <= i < |DotFiles| ensures SettingsKey(DotFiles[i]) == ToggleKeys[i] {
      SettingsKeyAt(i);
    }
  }

  lemma SettingsKeyAt(i: nat)
    requires i < |DotFiles|
    ensures SettingsKey(DotFiles[i]) == ToggleKeys[i]
  {
    var d := DotFiles[i];
    var k := ToggleKeys[i];
    assert d.key[0] as int == k[5] as int + 32 && d.key[1..] == k[6..] && k[..5] == "check" && |k| == 5 + |d.key|;
    assert k == k[..5] + [k[5]] + k[6..];
  }

  /** The definitions before the toggles are added: the cache size, the probe concurrency and the probe timeout. */
  const SizeDefinitions: Definitions := OrderedMap([LruCacheSizeKey, ConcurrencyKey, TimeoutKey], map[
    LruCacheSizeKey := NumberDef(Num(Integral(1024 * 8)), Some(1024), None),
    ConcurrencyKey := NumberDef(Num(Integral(16)), Some(8), Some(128)),
    TimeoutKey := NumberDef(Num(Integral(1024)), Some(512), Some(1024 * 4))])

  /** The `forEach` that adds one boolean definition per dot file, with `defaultOf` giving its default. */
  function WithToggles(files: seq<DotFile>, defaultOf: DotFile -> Value): Definitions
    decreases |files|
  {
    if files == [] then SizeDefinitions
    else
      var d := files[|files| - 1];
      Put(WithToggles(files[..|files| - 1], defaultOf), SettingsKey(d), BooleanDef(defaultOf(d)))
  }

  /** The result of that `forEach` over `DOT_FILES`, written out. */
  function ToggleTable(defaultOf: DotFile -> Value): Definitions {
    OrderedMap(SizeDefinitions.order + ToggleKeys, SizeDefinitions.entries
      [ToggleKeys[0] := BooleanDef(defaultOf(DotFiles[0]))]
      [ToggleKeys[1] := BooleanDef(defaultOf(DotFiles[1]))]
      [ToggleKeys[2] := BooleanDef(defaultOf(DotFiles[2]))]
      [ToggleKeys[3] := BooleanDef(defaultOf(DotFiles[3]))])
  }

  /** Adding a definition under a new key appends the key and maps it. */
  lemma PutNew(m: Definitions, key: string, def: SettingDef)
    requires key !in m.entries
    ensures Put(m, key, def) == OrderedMap(m.order + [key], m.entries[key := def])
  {
  }

  /** The loop over `DOT_FILES` builds exactly that table: every toggle key is new when it is added. */
  lemma TogglesLoop(defaultOf: DotFile -> Value)
    ensures WithToggles(DotFiles, defaultOf) == ToggleTable(defaultOf)
  {
    SettingsKeys();
    var f := DotFiles;
    var m0 := SizeDefinitions;
    assert f[..0] == [] && f[..1][..0] == [] && f[..2][..1] == f[..1] && f[..3][..2] == f[..2] && f[..4][..3] == f[..3];
    assert WithToggles(f[..0], defaultOf) == m0;
    PutNew(m0, ToggleKeys[0], BooleanDef(defaultOf(f[0])));
    var m1 := WithToggles(f[..1], defaultOf);
    assert m1 == OrderedMap(m0.order + [ToggleKeys[0]], m0.entries[ToggleKeys[0] := BooleanDef(defaultOf(f[0]))]);
    PutNew(m1, ToggleKeys[1], BooleanDef(defaultOf(f[1])));
    var m2 := WithToggles(f[..2], defaultOf);
    assert m2 == OrderedMap(m1.order + [ToggleKeys[1]], m1.entries[ToggleKeys[1] := BooleanDef(defaultOf(f[1]))]);
    PutNew(m2, ToggleKeys[2], BooleanDef(defaultOf(f[2])));
    var m3 := WithToggles(f[..3], defaultOf);
    assert m3 == OrderedMap(m2.order + [ToggleKeys[2]], m2.entries[ToggleKeys[2] := BooleanDef(defaultOf(f[2]))]);
    PutNew(m3, ToggleKeys[3], BooleanDef(defaultOf(f[3])));
    assert f[..4] == f;
    assert m3.order + [ToggleKeys[3]] == SizeDefinitions.order + ToggleKeys;
  }

  /** What `default: d.enabledByDefault!!` stores: the non-null assertion leaves a missing flag `undefined`. */
  function AsWrittenDefault(d: DotFile): Value {
    if d.enabledByDefault.Some? then Bool(d.enabledByDefault.value) else Undefined
  }

  /** The evidently intended default: a missing flag means off. */
  function IntendedDefault(d: DotFile): Value {
    Bool(d.enabledByDefault == Some(true))
  }

  /** `getSettingsDefinitions` as written; the plugin is registered with these. */
  function AsWrittenDefinitions(): (defs: Definitions)
    ensures WellFormed(defs) && RateLimitKey !in defs.entries && PriorityKey !in defs.entries
  {
    DefinitionsShape(AsWrittenDefault);
    ToggleTable(AsWrittenDefault)
  }

  /** `getSettingsDefinitions` corrected to `default: !!d.enabledByDefault`. */
  function IntendedDefinitions(): (defs: Definitions)
    ensures WellFormed(defs) && RateLimitKey !in defs.entries && PriorityKey !in defs.entries
  {
    DefinitionsShape(IntendedDefault);
    ToggleTable(IntendedDefault)
  }

  /**
   * The factory as the manager registers it: its id and the definitions as written, whose
   * defaults fail strict validation.
   */
  function Factory(): (f: PluginFactory)
    ensures f.id == PluginId && WellFormed(f.definitions)
    ensures Validate(Schema(f.definitions), Defaults(Schema(f.definitions)), false).Fail?
  {
    AsWrittenDefaultsRejected();
    PluginFactory(PluginId, AsWrittenDefinitions())
  }

  /** Every key of the plugin's schema: the suggested two, the three sizes, then the toggles. */
  const SchemaKeys: seq<string> := [RateLimitKey, PriorityKey] + SizeDefinitions.order + ToggleKeys

  /** Enough of a key to tell the schema's keys apart: its length, first letter and sixth letter. */
  function Signature(k: string): (int, char, char) {
    (|k|, if |k| > 0 then k[0] else ' ', if |k| > 5 then k[5] else ' ')
  }

  lemma SchemaKeysDistinct()
    ensures forall i, j :: 0 <= i < j < |SchemaKeys| ==> SchemaKeys[i] != SchemaKeys[j]
  {
    assert SchemaKeys == ["suggestedNotificationRateLimit", "suggestedNotificationPriority", "lruCacheSize", "concurrency",
      "timeout", "checkGitVcs", "checkEnvFile", "checkSvnVcs", "checkGhVcs"];
    forall i, j | 0 <= i < j < |SchemaKeys| ensures Signature(SchemaKeys[i]) != Signature(SchemaKeys[j]) { }
  }

  /**
   * Both versions list the three sizes, then the four toggles, under distinct keys apart from
   * the suggested ones; each toggle is a boolean with the default `defaultOf` gives its file.
   */
  lemma DefinitionsShape(defaultOf: DotFile -> Value)
    ensures WellFormed(ToggleTable(defaultOf))
    ensures RateLimitKey !in ToggleTable(defaultOf).entries && PriorityKey !in ToggleTable(defaultOf).entries
    ensures forall k :: k in ToggleTable(defaultOf).entries <==> k in SizeDefinitions.entries || k in ToggleKeys
    ensures forall k :: k in SizeDefinitions.entries ==> ToggleTable(defaultOf).entries[k] == SizeDefinitions.entries[k]
    ensures forall i :: 0 <= i < |ToggleKeys| ==> ToggleTable(defaultOf).entries[ToggleKeys[i]] == BooleanDef(defaultOf(DotFiles[i]))
  {
    SchemaKeysDistinct();
    TableOrder(defaultOf);
    TableSizes(defaultOf);
    TableToggles(defaultOf);
  }

  /**
   * Every default of the table passes its definition, except a toggle default left `undefined`;
   * when every toggle default is a boolean, every default passes.
   */
  lemma TableDefaults(defaultOf: DotFile -> Value)
    requires forall i :: 0 <= i < |DotFiles| ==> defaultOf(DotFiles[i]).Bool? || defaultOf(DotFiles[i]) == Undefined
    ensures forall k :: k in ToggleTable(defaultOf).entries ==>
      (CheckValue(ToggleTable(defaultOf).entries[k], ToggleTable(defaultOf).entries[k].defaultValue, false).None?
       || ToggleTable(defaultOf).entries[k].defaultValue == Undefined)
    ensures (forall i :: 0 <= i < |DotFiles| ==> defaultOf(DotFiles[i]).Bool?) ==>
      forall k :: k in ToggleTable(defaultOf).entries ==>
        CheckValue(ToggleTable(defaultOf).entries[k], ToggleTable(defaultOf).entries[k].defaultValue, false).None?
  {
    DefinitionsShape(defaultOf);
    ShapeDefaults(ToggleTable(defaultOf), defaultOf);
  }

  lemma ShapeDefaults(t: Definitions, defaultOf: DotFile -> Value)
    requires |ToggleKeys| == |DotFiles|
    requires forall i :: 0 <= i < |DotFiles| ==> defaultOf(DotFiles[i]).Bool? || defaultOf(DotFiles[i]) == Undefined
    requires forall k :: k in t.entries <==> k in SizeDefinitions.entries || k in ToggleKeys
    requires forall k :: k in SizeDefinitions.entries ==> t.entries[k] == SizeDefinitions.entries[k]
    requires forall i :: 0 <= i < |ToggleKeys| ==> t.entries[ToggleKeys[i]] == BooleanDef(defaultOf(DotFiles[i]))
    ensures forall k :: k in t.entries ==>
      (CheckValue(t.entries[k], t.entries[k].defaultValue, false).None? || t.entries[k].defaultValue == Undefined)
    ensures (forall i :: 0 <= i < |DotFiles| ==> defaultOf(DotFiles[i]).Bool?) ==>
      forall k :: k in t.entries ==> CheckValue(t.entries[k], t.entries[k].defaultValue, false).None?
  {
    forall k | k in t.entries
      ensures CheckValue(t.entries[k], t.entries[k].defaultValue, false).None? || t.entries[k].defaultValue == Undefined
      ensures t.entries[k].defaultValue != Undefined ==> CheckValue(t.entries[k], t.entries[k].defaultValue, false).None?
    {
      if k in ToggleKeys {
        var i :| 0 <= i < |ToggleKeys| && k == ToggleKeys[i];
      }
    }
    if forall i :: 0 <= i < |DotFiles| ==> defaultOf(DotFiles[i]).Bool? {
      forall k | k in t.entries ensures t.entries[k].defaultValue != Undefined {
        if k in ToggleKeys {
          var i :| 0 <= i < |ToggleKeys| && k == ToggleKeys[i];
        }
      }
    }
  }

  lemma TableOrder(defaultOf: DotFile -> Value)
    requires forall i, j :: 0 <= i < j < |SchemaKeys| ==> SchemaKeys[i] != SchemaKeys[j]
    ensures WellFormed(ToggleTable(defaultOf))
    ensures RateLimitKey !in ToggleTable(defaultOf).entries && PriorityKey !in ToggleTable(defaultOf).entries
    ensures forall k :: k in ToggleTable(defaultOf).entries <==> k in SizeDefinitions.entries || k in ToggleKeys
  {
    var t := ToggleTable(defaultOf);
    assert t.order == SchemaKeys[2..];
    assert forall i :: 0 <= i < |t.order| ==> t.order[i] == SchemaKeys[i + 2];
    assert RateLimitKey == SchemaKeys[0] && PriorityKey == SchemaKeys[1];
  }

  lemma TableSizes(defaultOf: DotFile -> Value)
    requires forall i, j :: 0 <= i < j < |SchemaKeys| ==> SchemaKeys[i] != SchemaKeys[j]
    ensures forall k :: k in SizeDefinitions.entries ==> ToggleTable(defaultOf).entries[k] == SizeDefinitions.entries[k]
  {
    forall k | k in SizeDefinitions.entries ensures k !in ToggleKeys {
      assert forall j :: 0 <= j < 4 ==> ToggleKeys[j] == SchemaKeys[j + 5];
      assert k == SchemaKeys[2] || k == SchemaKeys[3] || k == SchemaKeys[4];
    }
  }

  lemma TableToggles(defaultOf: DotFile -> Value)
    requires forall i, j :: 0 <= i < j < |SchemaKeys| ==> SchemaKeys[i] != SchemaKeys[j]
    ensures forall i :: 0 <= i < |ToggleKeys| ==> ToggleTable(defaultOf).entries[ToggleKeys[i]] == BooleanDef(defaultOf(DotFiles[i]))
  {
    assert forall j :: 0 <= j < 4 ==> ToggleKeys[j] == SchemaKeys[j + 5];
    assert ToggleKeys[0] != ToggleKeys[1] && ToggleKeys[0] != ToggleKeys[2] && ToggleKeys[0] != ToggleKeys[3];
    assert ToggleKeys[1] != ToggleKeys[2] && ToggleKeys[1] != ToggleKeys[3] && ToggleKeys[2] != ToggleKeys[3];
  }

  /**
   * As written, the defaults do not pass strict validation: `checkEnvFile` defaults to
   * `undefined`. So once a record that leaves that toggle out is stored (`setSettings`
   * accepts `{}`, validating leniently), resolving the settings fails with `Missing`, and the
   * plugin can no longer be instantiated.
   */
  lemma AsWrittenDefaultsRejected()
    ensures Validate(Schema(AsWrittenDefinitions()), Defaults(Schema(AsWrittenDefinitions())), false).Fail?
    ensures Validate(Schema(AsWrittenDefinitions()), map[], true).Pass?
    ensures Resolve(Schema(AsWrittenDefinitions()), Some(map[])).Failure?
    ensures Resolve(Schema(AsWrittenDefinitions()), Some(map[])).error.kind == Missing
  {
    DefinitionsShape(AsWrittenDefault);
    TableDefaults(AsWrittenDefault);
    var own := AsWrittenDefinitions();
    assert own.entries[ToggleKeys[1]] == BooleanDef(Undefined);
    UndefinedDefaultRejected(own, ToggleKeys[1]);
  }

  /**
   * A schema whose only failing defaults are `undefined` ones, with at least one of them,
   * accepts `{}` leniently but fails to resolve it, with `Missing`.
   */
  lemma UndefinedDefaultRejected(own: Definitions, key: string)
    requires WellFormed(own) && key in own.entries && own.entries[key] == BooleanDef(Undefined)
    requires forall k :: k in own.entries ==>
      (CheckValue(own.entries[k], own.entries[k].defaultValue, false).None? || own.entries[k].defaultValue == Undefined)
    ensures Validate(Schema(own), Defaults(Schema(own)), false).Fail?
    ensures Validate(Schema(own), map[], true).Pass?
    ensures Resolve(Schema(own), Some(map[])).Failure?
    ensures Resolve(Schema(own), Some(map[])).error.kind == Missing
  {
    var defs := Schema(own);
    SchemaDefaultsValid(own);
    ValidateSpec(defs, map[], true);
    forall k | k in defs.entries ensures KeyAccepted(defs.entries, map[], k, true) { }
    ResolveEmptyStored(defs);
    var e := Resolve(defs, Some(map[])).error;
    SchemaEntry(own, e.key);
  }

  /**
   * With the intended defaults, the defaults pass strict validation, so every record
   * `setSettings` accepts (holding no `undefined`) resolves, and only the git toggle is on by
   * default.
   */
  lemma IntendedDefaultsAccepted(s: Record)
    requires Validate(Schema(IntendedDefinitions()), s, true).Pass? && forall k :: k in s ==> s[k] != Undefined
    ensures Validate(Schema(IntendedDefinitions()), Defaults(Schema(IntendedDefinitions())), false).Pass?
    ensures Resolve(Schema(IntendedDefinitions()), Some(s)).Success?
    ensures forall i :: 0 <= i < |ToggleKeys| ==> Get(Defaults(Schema(IntendedDefinitions())), ToggleKeys[i]) == Bool(i == 0)
  {
    DefinitionsShape(IntendedDefault);
    TableDefaults(IntendedDefault);
    IntendedOnlyGit();
    ValidDefaultsAccepted(IntendedDefinitions(), s);
  }

  /**
   * A schema whose own defaults all pass, and whose toggles default as `IntendedDefault` says,
   * resolves every record that passes lenient validation and holds no `undefined`.
   */
  lemma ValidDefaultsAccepted(own: Definitions, s: Record)
    requires WellFormed(own)
    requires forall k :: k in own.entries ==> CheckValue(own.entries[k], own.entries[k].defaultValue, false).None?
    requires |ToggleKeys| == |DotFiles|
    requires forall i :: 0 <= i < |ToggleKeys| ==> ToggleKeys[i] in own.entries && own.entries[ToggleKeys[i]] == BooleanDef(IntendedDefault(DotFiles[i]))
    requires forall i :: 0 <= i < |DotFiles| ==> IntendedDefault(DotFiles[i]) == Bool(i == 0)
    requires Validate(Schema(own), s, true).Pass? && forall k :: k in s ==> s[k] != Undefined
    ensures Validate(Schema(own), Defaults(Schema(own)), false).Pass?
    ensures Resolve(Schema(own), Some(s)).Success?
    ensures forall i :: 0 <= i < |ToggleKeys| ==> Get(Defaults(Schema(own)), ToggleKeys[i]) == Bool(i == 0)
  {
    SchemaDefaultsValid(own);
    AcceptedRecordsResolve(Schema(own), s);
    IntendedToggles(own);
  }

  /** Only the first dot file, git's `HEAD`, is enabled by default. */
  lemma IntendedOnlyGit()
    ensures forall i :: 0 <= i < |DotFiles| ==> IntendedDefault(DotFiles[i]) == Bool(i == 0)
  {
    forall i | 0 <= i < |DotFiles| ensures IntendedDefault(DotFiles[i]) == Bool(i == 0) {
      assert DotFiles[i].enabledByDefault == if i == 0 then Some(true) else None;
    }
  }

  lemma IntendedToggles(own: Definitions)
    requires WellFormed(own)
    requires |ToggleKeys| == |DotFiles|
    requires forall i :: 0 <= i < |ToggleKeys| ==> ToggleKeys[i] in own.entries && own.entries[ToggleKeys[i]] == BooleanDef(IntendedDefault(DotFiles[i]))
    requires forall i :: 0 <= i < |DotFiles| ==> IntendedDefault(DotFiles[i]) == Bool(i == 0)
    ensures forall i :: 0 <= i < |ToggleKeys| ==> Get(Defaults(Schema(own)), ToggleKeys[i]) == Bool(i == 0)
  {
    DefaultsSpec(Schema(own));
    forall i | 0 <= i < |ToggleKeys| ensures Get(Defaults(Schema(own)), ToggleKeys[i]) == Bool(i == 0) {
      SchemaEntry(own, ToggleKeys[i]);
    }
  }

  /** The dot files the constructor keeps: those whose toggle is truthy in the settings, in `DOT_FILES` order. */
  function ActiveDotFiles(files: seq<DotFile>, settings: Record): (active: seq<DotFile>)
    ensures forall d :: d in active <==> d in files && Truthy(Get(settings, SettingsKey(d)))
    ensures |active| <= |files|
  {
    if files == [] then []
    else if Truthy(Get(settings, SettingsKey(files[0]))) then [files[0]] + ActiveDotFiles(files[1..], settings)
    else ActiveDotFiles(files[1..], settings)
  }

  /** What one probe gets back: a network failure or timeout, or a response's status and text. */
  datatype FetchResult = FetchFailed | Fetched(status: int, body: string)

  /** `content.find(c => text.includes(c))`: the first marker the text contains. */
  function FirstMarker(content: seq<string>, text: string): (m: Option<string>)
    ensures m.Some? ==> m.value in content && Contains(text, m.value)
    ensures m.None? <==> forall c :: c in content ==> !Contains(text, c)
  {
    if content == [] then None
    else if Contains(text, content[0]) then Some(content[0])
    else FirstMarker(content[1..], text)
  }

  /** The check on the marker found: it must exist and, being tested for truthiness, not be empty. */
  predicate MarkerFound(content: seq<string>, text: string) {
    var m := FirstMarker(content, text);
    m.Some? && m.value != ""
  }

  /** For a file whose markers are all non-empty, the check holds exactly when the text contains one of them. */
  lemma MarkerFoundSpec(content: seq<string>, text: string)
    requires "" !in content
    ensures MarkerFound(content, text) <==> exists c :: c in content && Contains(text, c)
  {
  }

  /** The address of the probe for `d` on the origin of `url`. */
  function ProbeUrl(url: Url, d: DotFile): string {
    url.protocol + "//" + url.hostname + "/" + d.filename
  }

  /** `verifyDotFile` up to the rate limiter: the report for `d`, if the probe finds a real one. */
  function Probe(url: Url, d: DotFile, fetch: string -> FetchResult): (r: Option<Report>)
    ensures r.Some? <==> (fetch(ProbeUrl(url, d)).Fetched? && fetch(ProbeUrl(url, d)).status == 200
      && MarkerFound(d.content, fetch(ProbeUrl(url, d)).body))
    ensures r.Some? ==> r.value.rateKey == url.hostname + ":" + d.key && r.value.url == ProbeUrl(url, d)
  {
    match fetch(ProbeUrl(url, d))
    case FetchFailed => None
    case Fetched(status, body) =>
      if status != 200 then None
      else if !MarkerFound(d.content, body) then None
      else Some(Report(url.hostname + ":" + d.key, ProbeUrl(url, d),
        "Potential Dotfile Exposure on " + url.hostname,
        "The file \"" + d.filename + "\" was found publicly accessible on " + url.hostname
          + ". Dotfiles often contain sensitive data, posing a security risk."))
  }

  /** The hits of `probe` over `files`, in file order. */
  function Collect<T>(files: seq<DotFile>, probe: DotFile -> Option<T>): seq<T>
    decreases |files|
  {
    if files == [] then []
    else
      var n := |files| - 1;
      var r := probe(files[n]);
      Collect(files[..n], probe) + if r.Some? then [r.value] else []
  }

  /** The reports of all probes, in the order the probes were started. */
  function ProbeReports(url: Url, files: seq<DotFile>, fetch: string -> FetchResult): seq<Report> {
    Collect(files, d => Probe(url, d, fetch))
  }

  /** A file is reported exactly when its probe finds it, and each report is about one of the probed files. */
  lemma ProbeReportsSpec(url: Url, files: seq<DotFile>, fetch: string -> FetchResult)
    ensures forall r :: r in ProbeReports(url, files, fetch) <==>
      exists i :: 0 <= i < |files| && Probe(url, files[i], fetch) == Some(r)
    ensures |ProbeReports(url, files, fetch)| <= |files|
  {
    var probe := d => Probe(url, d, fetch);
    CollectSpec(files, probe);
    forall r ensures r in ProbeReports(url, files, fetch) <==> exists i :: 0 <= i < |files| && Probe(url, files[i], fetch) == Some(r) {
      if r in ProbeReports(url, files, fetch) {
        var i :| 0 <= i < |files| && probe(files[i]) == Some(r);
      }
      if exists i :: 0 <= i < |files| && Probe(url, files[i], fetch) == Some(r) {
        var i :| 0 <= i < |files| && Probe(url, files[i], fetch) == Some(r);
        assert probe(files[i]) == Some(r);
      }
    }
  }

  lemma CollectSpec<T>(files: seq<DotFile>, probe: DotFile -> Option<T>)
    ensures forall r :: r in Collect(files, probe) <==> exists i :: 0 <= i < |files| && probe(files[i]) == Some(r)
    ensures |Collect(files, probe)| <= |files|
  {
    CollectLength(files, probe);
    forall r | r in Collect(files, probe) ensures exists i :: 0 <= i < |files| && probe(files[i]) == Some(r) {
      CollectSound(files, probe, r);
    }
    forall i | 0 <= i < |files| && probe(files[i]).Some? ensures probe(files[i]).value in Collect(files, probe) {
      CollectComplete(files, probe, i);
    }
  }

  lemma {:induction false} CollectLength<T>(files: seq<DotFile>, probe: DotFile -> Option<T>)
    ensures |Collect(files, probe)| <= |files|
    decreases |files|
  {
    if files != [] {
      CollectLength(files[..|files| - 1], probe);
    }
  }

  lemma {:induction false} CollectSound<T>(files: seq<DotFile>, probe: DotFile -> Option<T>, r: T)
    requires r in Collect(files, probe)
    ensures exists i :: 0 <= i < |files| && probe(files[i]) == Some(r)
    decreases |files|
  {
    var n := |files| - 1;
    var init := files[..n];
    if r in Collect(init, probe) {
      CollectSound(init, probe, r);
      var i :| 0 <= i < |init| && probe(init[i]) == Some(r);
      assert files[i] == init[i];
    } else {
      assert probe(files[n]) == Some(r);
    }
  }

  lemma {:induction false} CollectComplete<T>(files: seq<DotFile>, probe: DotFile -> Option<T>, i: nat)
    requires i < |files| && probe(files[i]).Some?
    ensures probe(files[i]).value in Collect(files, probe)
    decreases |files|
  {
    var n := |files| - 1;
    if i < n {
      var init := files[..n];
      assert init[i] == files[i];
      CollectComplete(init, probe, i);
    }
  }

  /** Only the http(s) origins are probed. */
  predicate Probed(url: Url) {
    url.protocol == "https:" || url.protocol == "http:"
  }

  /** The key the origin is remembered under in the cache. */
  function CacheKey(url: Url): string {
    url.protocol + ":" + url.hostname
  }

  /** A `DotFilesLeakPlugin` instance. */
  class DotFilesLeakPlugin {
    const settings: Record
    const notificationCreator: PluginNotificationCreator
    const lruCache: LruCache
    const dotFiles: seq<DotFile>

    ghost predicate Valid()
      reads lruCache, notificationCreator.storedNotifications
    {
      lruCache.Valid() && notificationCreator.storedNotifications.Valid()
    }

    /** The constructor: a cache of `lruCacheSize` origins and the enabled dot files. */
    constructor(settings: Record, notificationCreator: PluginNotificationCreator)
      requires Get(settings, LruCacheSizeKey).Num? && Get(settings, LruCacheSizeKey).n.Integral?
      requires Get(settings, LruCacheSizeKey).n.i >= 1
      requires notificationCreator.storedNotifications.Valid()
      ensures Valid() && fresh(lruCache) && lruCache.entries == []
      ensures lruCache.maxSize == Get(settings, LruCacheSizeKey).n.i
      ensures this.settings == settings && this.notificationCreator == notificationCreator
      ensures dotFiles == ActiveDotFiles(DotFiles, settings)
    {
      this.settings := settings;
      this.notificationCreator := notificationCreator;
      lruCache := new LruCache(Get(settings, LruCacheSizeKey).n.i);
      dotFiles := ActiveDotFiles(DotFiles, settings);
    }

    /**
     * `onResponseHeadersReceived` for a response from `url`, `fetch` standing for the probes'
     * `fetch` and `now` for the clock. Nothing happens without enabled files or for another
     * scheme; an origin the cache holds is only touched; a new origin is remembered, then probed
     * for every enabled file, and each hit goes through the rate limiter.
     */
    method OnResponseHeadersReceived(url: Url, fetch: string -> FetchResult, now: int) returns (alerts: seq<HostAlert>)
      requires Valid()
      modifies lruCache, notificationCreator.database, notificationCreator.storedNotifications
      ensures Valid()
      ensures dotFiles == [] || !Probed(url) ==>
        alerts == [] && unchanged(lruCache, notificationCreator.database, notificationCreator.storedNotifications)
      ensures dotFiles != [] && Probed(url) && CacheKey(url) in old(lruCache.entries) ==>
        && alerts == [] && lruCache.entries == Touch(old(lruCache.entries), CacheKey(url))
        && unchanged(notificationCreator.database, notificationCreator.storedNotifications)
      ensures dotFiles != [] && Probed(url) && CacheKey(url) !in old(lruCache.entries) ==>
        && lruCache.entries == Inserted(old(lruCache.entries), lruCache.maxSize, CacheKey(url))
        && var a := Admit(ProbeReports(url, dotFiles, fetch),
             StoreOf(old(notificationCreator.database.stores), notificationCreator.databaseStoreKey).stamps, TtlMillis(settings), now);
          && StampsWritten(old(notificationCreator.database.stores), notificationCreator.database.stores,
               notificationCreator.databaseStoreKey, a.stamps)
          && notificationCreator.storedNotifications.records == old(notificationCreator.storedNotifications.records)
            + StoredFor(a.admitted, notificationCreator.pluginId, old(notificationCreator.storedNotifications.nextId), now)
          && notificationCreator.storedNotifications.nextId == old(notificationCreator.storedNotifications.nextId) + |a.admitted|
          && alerts == AlertsFor(a.admitted, PriorityFromSetting(settings))
    {
      alerts := [];
      if |dotFiles| == 0 {
        return;
      }
      if url.protocol != "https:" && url.protocol != "http:" {
        return;
      }
      var cacheKey := url.protocol + ":" + url.hostname;
      var hit := lruCache.Get(cacheKey);
      if hit {
        return;
      }
      lruCache.Set(cacheKey);
      var reports := ProbeAll(url, fetch);
      alerts := NotifyAll(notificationCreator, reports, TtlMillis(settings), PriorityFromSetting(settings), now);
    }

    /** The `forEach` over the enabled files: each probe, in turn. */
    method ProbeAll(url: Url, fetch: string -> FetchResult) returns (reports: seq<Report>)
      ensures reports == ProbeReports(url, dotFiles, fetch)
    {
      reports := [];
      var i := 0;
      while i < |dotFiles|
        invariant 0 <= i <= |dotFiles|
        invariant reports == ProbeReports(url, dotFiles[..i], fetch)
      {
        assert dotFiles[..i + 1][..i] == dotFiles[..i];
        var found := Probe(url, dotFiles[i], fetch);
        if found.Some? {
          reports := reports + [found.value];
        }
        i := i + 1;
      }
      assert dotFiles[..i] == dotFiles;
    }
  }

  /**
   * Whatever the store holds, a resolved record makes the constructor's cache at least 1024
   * origins large, the probe concurrency between 8 and 128 and the probe timeout between 512
   * and 4096 milliseconds.
   */
  lemma ResolvedSizes(stored: Option<Record>)
    requires Resolve(Schema(AsWrittenDefinitions()), stored).Success?
    ensures var r := Resolve(Schema(AsWrittenDefinitions()), stored).value;
      && Get(r, LruCacheSizeKey).Num? && Get(r, LruCacheSizeKey).n.Integral? && Get(r, LruCacheSizeKey).n.i >= 1024
      && Get(r, ConcurrencyKey).Num? && Get(r, ConcurrencyKey).n.Integral? && 8 <= Get(r, ConcurrencyKey).n.i <= 128
      && Get(r, TimeoutKey).Num? && Get(r, TimeoutKey).n.Integral? && 512 <= Get(r, TimeoutKey).n.i <= 4096
  {
    DefinitionsShape(AsWrittenDefault);
    SizesInBounds(AsWrittenDefinitions(), stored);
  }

  lemma SizesInBounds(own: Definitions, stored: Option<Record>)
    requires WellFormed(own)
    requires LruCacheSizeKey in own.entries && own.entries[LruCacheSizeKey] == SizeDefinitions.entries[LruCacheSizeKey]
    requires ConcurrencyKey in own.entries && own.entries[ConcurrencyKey] == SizeDefinitions.entries[ConcurrencyKey]
    requires TimeoutKey in own.entries && own.entries[TimeoutKey] == SizeDefinitions.entries[TimeoutKey]
    requires Resolve(Schema(own), stored).Success?
    ensures var r := Resolve(Schema(own), stored).value;
      && Get(r, LruCacheSizeKey).Num? && Get(r, LruCacheSizeKey).n.Integral? && Get(r, LruCacheSizeKey).n.i >= 1024
      && Get(r, ConcurrencyKey).Num? && Get(r, ConcurrencyKey).n.Integral? && 8 <= Get(r, ConcurrencyKey).n.i <= 128
      && Get(r, TimeoutKey).Num? && Get(r, TimeoutKey).n.Integral? && 512 <= Get(r, TimeoutKey).n.i <= 4096
  {
    SizeInBounds(own, stored, LruCacheSizeKey, SizeDefinitions.entries[LruCacheSizeKey]);
    SizeInBounds(own, stored, ConcurrencyKey, SizeDefinitions.entries[ConcurrencyKey]);
    SizeInBounds(own, stored, TimeoutKey, SizeDefinitions.entries[TimeoutKey]);
  }

  /** A number setting with a valid default, read from a resolved record, lies within its definition's bounds. */
  lemma SizeInBounds(own: Definitions, stored: Option<Record>, key: string, def: SettingDef)
    requires WellFormed(own) && key in own.entries && own.entries[key] == def
    requires def.NumberDef? && CheckValue(def, def.defaultValue, false).None?
    requires Resolve(Schema(own), stored).Success?
    ensures var v := Get(Resolve(Schema(own), stored).value, key);
      && v.Num? && v.n.Integral?
      && (def.min.Some? ==> def.min.value <= v.n.i) && (def.max.Some? ==> v.n.i <= def.max.value)
  {
    SchemaEntry(own, key);
    ResolvedNumberInBounds(Schema(own), stored, key);
  }
}
