/**
 * What the four detector plugins and the secrets plugin share: the parsed request URL and
 * header list they look at, the case-insensitive header lookup and the substring test they
 * use, and the way each finding is turned into a notification — a rate-limit check under the
 * finding's key with a TTL of `suggestedNotificationRateLimit` minutes, then, if allowed, a
 * stored notification and a host alert.
 */
module Reporting {
  import opened Wrappers
  import opened Values
  import opened OrderedMaps
  import opened Settings
  import opened Notifications
  import opened Plugins

  /** The parts of a WHATWG `URL` the plugins read; `href` is its serialisation. */
  datatype Url = Url(href: string, protocol: string, hostname: string, pathname: string, search: string)

  /** One entry of `browser.webRequest.HttpHeaders`; a header sent as `binaryValue` has no `value`. */
  datatype Header = Header(name: string, value: Option<string>)

  /** `String.prototype.toLowerCase` on the ASCII letters. */
  function LowerChar(c: char): (d: char)
    ensures 'A' <= c <= 'Z' ==> d as int == c as int + 32
    ensures !('A' <= c <= 'Z') ==> d == c
  {
    if 'A' <= c <= 'Z' then (c as int + 32) as char else c
  }

  function Lower(s: string): (r: string)
    ensures |r| == |s| && forall i :: 0 <= i < |s| ==> r[i] == LowerChar(s[i])
  {
    if s == [] then [] else [LowerChar(s[0])] + Lower(s[1..])
  }

  predicate NameMatches(h: Header, name: string) {
    Lower(h.name) == Lower(name)
  }

  /**
   * `getHeaderValue` (the same private method in the CORS and open-redirect plugins): the value
   * of the first header whose name equals `name` ignoring case, `undefined` when there is none.
   */
  function HeaderValue(headers: seq<Header>, name: string): (v: Option<string>)
    ensures (forall i :: 0 <= i < |headers| ==> !NameMatches(headers[i], name)) ==> v.None?
    ensures forall i :: (0 <= i < |headers| && NameMatches(headers[i], name) &&
      (forall j :: 0 <= j < i ==> !NameMatches(headers[j], name))) ==> v == headers[i].value
  {
    if headers == [] then None
    else if NameMatches(headers[0], name) then headers[0].value
    else HeaderValue(headers[1..], name)
  }

  /** The lookup does not depend on how the caller spells the name. */
  lemma {:induction false} HeaderValueIgnoresCase(headers: seq<Header>, a: string, b: string)
    requires Lower(a) == Lower(b)
    ensures HeaderValue(headers, a) == HeaderValue(headers, b)
  {
    if headers != [] {
      HeaderValueIgnoresCase(headers[1..], a, b);
    }
  }

  /** `text.includes(part)`. */
  function Contains(text: string, part: string): bool
    decreases |text|
  {
    if |part| > |text| then false
    else if text[..|part|] == part then true
    else text != [] && Contains(text[1..], part)
  }

  /** `part` occurs in `text` starting at position `i`. */
  ghost predicate OccursAt(text: string, part: string, i: int) {
    0 <= i <= |text| - |part| && text[i..i + |part|] == part
  }

  /** `includes` finds `part` exactly when it occurs at some position of `text`. */
  lemma {:induction false} ContainsSpec(text: string, part: string)
    ensures Contains(text, part) <==> exists i :: OccursAt(text, part, i)
    decreases |text|
  {
    if |part| <= |text| && text[..|part|] != part && text != [] {
      ContainsSpec(text[1..], part);
      if exists i :: OccursAt(text, part, i) {
        var i :| OccursAt(text, part, i);
        assert i > 0;
        assert text[1..][i - 1..i - 1 + |part|] == part;
        assert OccursAt(text[1..], part, i - 1);
      }
      if Contains(text[1..], part) {
        var i :| OccursAt(text[1..], part, i);
        assert text[i + 1..i + 1 + |part|] == part;
        assert OccursAt(text, part, i + 1);
      }
    } else if |part| <= |text| && text[..|part|] == part {
      assert OccursAt(text, part, 0);
    }
  }

  /** A finding ready for the rate limiter: its key and the notification it would raise. */
  datatype Report = Report(rateKey: string, url: string, title: string, description: string)

  /**
   * `suggestedNotificationRateLimit * 60 * 1000`: the TTL in milliseconds. Resolved settings
   * always hold an integer there (see `ResolvedRateLimit`); any other value reads as no TTL.
   */
  function TtlMillis(settings: Record): int {
    match Get(settings, RateLimitKey)
    case Num(Integral(minutes)) => minutes * 60 * 1000
    case _ => 0
  }

  /**
   * Every settings record the manager hands a plugin whose own definitions leave the suggested
   * rate limit alone holds a whole number of minutes, at least 0, under that key.
   */
  lemma ResolvedRateLimit(pluginDefs: Definitions, stored: Option<Record>)
    requires WellFormed(pluginDefs) && RateLimitKey !in pluginDefs.entries
    requires Resolve(Schema(pluginDefs), stored).Success?
    ensures var r := Resolve(Schema(pluginDefs), stored).value;
      Get(r, RateLimitKey).Num? && Get(r, RateLimitKey).n.Integral? && Get(r, RateLimitKey).n.i >= 0
      && TtlMillis(r) == Get(r, RateLimitKey).n.i * 60000
  {
    var defs := Schema(pluginDefs);
    RateLimitInherited(pluginDefs);
    if stored.Some? {
      StrictRateLimit(defs, Resolve(defs, stored).value);
    } else {
      DefaultRateLimit(defs);
    }
  }

  lemma RateLimitInherited(pluginDefs: Definitions)
    requires WellFormed(pluginDefs) && RateLimitKey !in pluginDefs.entries
    ensures RateLimitKey in Schema(pluginDefs).entries && Schema(pluginDefs).entries[RateLimitKey] == SuggestedRateLimit
  {
    SuggestionsPresent(pluginDefs);
  }

  lemma DefaultRateLimit(defs: Definitions)
    requires WellFormed(defs) && RateLimitKey in defs.entries && defs.entries[RateLimitKey] == SuggestedRateLimit
    ensures Get(Defaults(defs), RateLimitKey) == Num(Integral(60))
  {
    DefaultsSpec(defs);
  }

  /** A record that passes strict validation against the suggested rate limit holds a whole number of minutes, at least 0. */
  lemma StrictRateLimit(defs: Definitions, r: Record)
    requires WellFormed(defs) && RateLimitKey in defs.entries && defs.entries[RateLimitKey] == SuggestedRateLimit
    requires Validate(defs, r, false).Pass?
    ensures Get(r, RateLimitKey).Num? && Get(r, RateLimitKey).n.Integral? && Get(r, RateLimitKey).n.i >= 0
  {
    ValidateSpec(defs, r, false);
    var v := Get(r, RateLimitKey);
    assert CheckValue(SuggestedRateLimit, v, false).None?;
  }

  /** What the rate limiter let through from a run of reports, and the stamps it left. */
  datatype Admission = Admission(admitted: seq<Report>, stamps: map<string, int>)

  function StampIn(stamps: map<string, int>, key: string): Option<int> {
    if key in stamps then Some(stamps[key]) else None
  }

  /**
   * The reports handled one after another through `notificationRateLimitWithTTL`, starting from
   * the stamps in the plugin's store: each is admitted as `RateLimit` decides, and an admitted
   * report under a positive TTL stamps its key with `now`.
   */
  function Admit(reports: seq<Report>, stamps: map<string, int>, ttlMillis: int, now: int): Admission
    decreases |reports|
  {
    if reports == [] then Admission([], stamps)
    else AdmitStep(Admit(reports[..|reports| - 1], stamps, ttlMillis, now), reports[|reports| - 1], ttlMillis, now)
  }

  /** Admitting one more report is one more step from where the earlier ones left off. */
  lemma AdmitPrefix(reports: seq<Report>, i: nat, stamps: map<string, int>, ttlMillis: int, now: int)
    requires i < |reports|
    ensures Admit(reports[..i + 1], stamps, ttlMillis, now) == AdmitStep(Admit(reports[..i], stamps, ttlMillis, now), reports[i], ttlMillis, now)
  {
    assert reports[..i + 1][..i] == reports[..i];
  }

  /** One report through the rate limiter, from the stamps the earlier ones left. */
  function AdmitStep(prev: Admission, r: Report, ttlMillis: int, now: int): Admission {
    var d := RateLimit(StampIn(prev.stamps, TtlKey(r.rateKey)), ttlMillis, now);
    Admission(
      if d.allowed then prev.admitted + [r] else prev.admitted,
      if d.allowed && ttlMillis > 0 then prev.stamps[TtlKey(r.rateKey) := now] else prev.stamps)
  }

  /** Without a positive TTL every report is admitted and no stamp is written. */
  lemma {:induction false} AdmitWithoutTtl(reports: seq<Report>, stamps: map<string, int>, ttlMillis: int, now: int)
    requires ttlMillis <= 0
    ensures Admit(reports, stamps, ttlMillis, now) == Admission(reports, stamps)
    decreases |reports|
  {
    if reports != [] {
      var n := |reports| - 1;
      AdmitWithoutTtl(reports[..n], stamps, ttlMillis, now);
      assert reports[..n] + [reports[n]] == reports;
    }
  }

  /**
   * Under a positive TTL, one run admits at most one report per rate key (the first that the
   * stored stamp allows), stamps every admitted key with `now`, and admits only reports of the run.
   */
  lemma {:induction false} AdmitOncePerKey(reports: seq<Report>, stamps: map<string, int>, ttlMillis: int, now: int)
    requires ttlMillis > 0 && now != 0
    ensures var a := Admit(reports, stamps, ttlMillis, now);
      && (forall i, j :: 0 <= i < j < |a.admitted| ==> a.admitted[i].rateKey != a.admitted[j].rateKey)
      && (forall r :: r in a.admitted ==> r in reports && StampIn(a.stamps, TtlKey(r.rateKey)) == Some(now))
    decreases |reports|
  {
    if reports != [] {
      var n := |reports| - 1;
      var prev := Admit(reports[..n], stamps, ttlMillis, now);
      AdmitOncePerKey(reports[..n], stamps, ttlMillis, now);
      var r := reports[n];
      var a := Admit(reports, stamps, ttlMillis, now);
      var d := RateLimit(StampIn(prev.stamps, TtlKey(r.rateKey)), ttlMillis, now);
      if d.allowed {
        assert forall x :: x in prev.admitted ==> x.rateKey != r.rateKey;
        forall x | x in a.admitted ensures StampIn(a.stamps, TtlKey(x.rateKey)) == Some(now) {
          if x != r {
            TtlKeySeparate(x.rateKey, r.rateKey);
          }
        }
        forall i, j | 0 <= i < j < |a.admitted| ensures a.admitted[i].rateKey != a.admitted[j].rateKey {
          if j == |prev.admitted| {
            assert a.admitted[i] in prev.admitted;
          } else {
            assert a.admitted[i] == prev.admitted[i] && a.admitted[j] == prev.admitted[j];
          }
        }
      }
    }
  }

  /** The notifications `createNotification` stores for the admitted reports, with ids from `firstId`. */
  function StoredFor(admitted: seq<Report>, pluginId: string, firstId: nat, now: int): seq<Notification>
    decreases |admitted|
  {
    if admitted == [] then []
    else
      var n := |admitted| - 1;
      StoredFor(admitted[..n], pluginId, firstId, now)
        + [Notification(firstId + n, NotificationData(admitted[n].url, admitted[n].title, admitted[n].description, pluginId), now)]
  }

  /** Each admitted report is stored once, in order, under this plugin's id, with consecutive ids and the time `now`. */
  lemma {:induction false} StoredForSpec(admitted: seq<Report>, pluginId: string, firstId: nat, now: int)
    ensures |StoredFor(admitted, pluginId, firstId, now)| == |admitted|
    ensures forall i :: 0 <= i < |admitted| ==> StoredFor(admitted, pluginId, firstId, now)[i] == Notification(firstId + i,
      NotificationData(admitted[i].url, admitted[i].title, admitted[i].description, pluginId), now)
    decreases |admitted|
  {
    if admitted != [] {
      StoredForSpec(admitted[..|admitted| - 1], pluginId, firstId, now);
    }
  }

  function AlertList(alert: Option<HostAlert>): seq<HostAlert> {
    if alert.Some? then [alert.value] else []
  }

  /** The host alerts raised for the admitted reports. */
  function AlertsFor(admitted: seq<Report>, priority: Priority): seq<HostAlert>
    decreases |admitted|
  {
    if admitted == [] then []
    else
      var n := |admitted| - 1;
      AlertsFor(admitted[..n], priority) + AlertList(AlertFor(priority, admitted[n].title, admitted[n].description))
  }

  /** A SILENT plugin raises no host alert; otherwise each admitted report raises its own, in order. */
  lemma {:induction false} AlertsForSpec(admitted: seq<Report>, priority: Priority)
    ensures priority == Silent ==> AlertsFor(admitted, priority) == []
    ensures priority != Silent ==> |AlertsFor(admitted, priority)| == |admitted| && forall i :: 0 <= i < |admitted| ==>
      Some(AlertsFor(admitted, priority)[i]) == AlertFor(priority, admitted[i].title, admitted[i].description)
    decreases |admitted|
  {
    if admitted != [] {
      AlertsForSpec(admitted[..|admitted| - 1], priority);
    }
  }

  /** Only the named compartment's stamps differ between the two database states. */
  ghost predicate StampsWritten(before: map<string, Compartment>, after: map<string, Compartment>, name: string, stamps: map<string, int>) {
    && StoreOf(after, name) == StoreOf(before, name).(stamps := stamps)
    && forall n :: n != name ==> (n in after <==> n in before) && (n in after ==> after[n] == before[n])
  }

  lemma StampsWrittenChain(s0: map<string, Compartment>, s1: map<string, Compartment>, s2: map<string, Compartment>,
                           name: string, a: map<string, int>, b: map<string, int>)
    requires StampsWritten(s0, s1, name, a) && StampsWritten(s1, s2, name, b)
    ensures StampsWritten(s0, s2, name, b)
  {
  }

  lemma StoredForSnoc(admitted: seq<Report>, r: Report, pluginId: string, firstId: nat, now: int)
    ensures StoredFor(admitted + [r], pluginId, firstId, now) == StoredFor(admitted, pluginId, firstId, now)
      + [Notification(firstId + |admitted|, NotificationData(r.url, r.title, r.description, pluginId), now)]
  {
    assert (admitted + [r])[..|admitted|] == admitted;
  }

  lemma StoredAfterOne(records: seq<Notification>, admitted: seq<Report>, r: Report, pluginId: string, firstId: nat, now: int)
    ensures records + StoredFor(admitted, pluginId, firstId, now)
      + [Notification(firstId + |admitted|, NotificationData(r.url, r.title, r.description, pluginId), now)]
      == records + StoredFor(admitted + [r], pluginId, firstId, now)
  {
    StoredForSnoc(admitted, r, pluginId, firstId, now);
  }

  lemma AlertsForSnoc(admitted: seq<Report>, r: Report, priority: Priority)
    ensures AlertsFor(admitted + [r], priority) == AlertsFor(admitted, priority)
      + AlertList(AlertFor(priority, r.title, r.description))
  {
    assert (admitted + [r])[..|admitted|] == admitted;
  }

  /**
   * `handlePotentialNotification` then `notify` for one finding: the rate limiter decides on
   * the stamp stored under the finding's key; an admitted finding is stored as a notification
   * and raises the alert of its priority.
   */
  method NotifyOne(creator: PluginNotificationCreator, r: Report, ttlMillis: int, priority: Priority, now: int)
    returns (admitted: bool, alert: Option<HostAlert>)
    requires creator.storedNotifications.Valid()
    modifies creator.database, creator.storedNotifications
    ensures creator.storedNotifications.Valid()
    ensures var c := StoreOf(old(creator.database.stores), creator.databaseStoreKey);
      var d := RateLimit(StampIn(c.stamps, TtlKey(r.rateKey)), ttlMillis, now);
      && admitted == d.allowed
      && StampsWritten(old(creator.database.stores), creator.database.stores, creator.databaseStoreKey,
           if d.allowed && ttlMillis > 0 then c.stamps[TtlKey(r.rateKey) := now] else c.stamps)
    ensures admitted ==> (creator.storedNotifications.records == old(creator.storedNotifications.records)
      + [Notification(old(creator.storedNotifications.nextId), NotificationData(r.url, r.title, r.description, creator.pluginId), now)])
    ensures !admitted ==> creator.storedNotifications.records == old(creator.storedNotifications.records)
    ensures creator.storedNotifications.nextId == old(creator.storedNotifications.nextId) + if admitted then 1 else 0
    ensures alert == if admitted then AlertFor(priority, r.title, r.description) else None
  {
    admitted := creator.NotificationRateLimitWithTtl(r.rateKey, ttlMillis, now);
    alert := None;
    if admitted {
      alert := creator.CreateNotification(priority, r.url, r.title, r.description, now);
    }
  }

  /** What `NotifyAll` has done to the store once the findings admitted so far are `a`. */
  ghost predicate NotifiedSoFar(creator: PluginNotificationCreator, stores0: map<string, Compartment>, records0: seq<Notification>,
                                first: nat, a: Admission, alerts: seq<HostAlert>, priority: Priority, now: int)
    reads creator.database, creator.storedNotifications
  {
    && creator.storedNotifications.Valid()
    && StampsWritten(stores0, creator.database.stores, creator.databaseStoreKey, a.stamps)
    && creator.storedNotifications.records == records0 + StoredFor(a.admitted, creator.pluginId, first, now)
    && creator.storedNotifications.nextId == first + |a.admitted|
    && alerts == AlertsFor(a.admitted, priority)
  }

  /** One finding of `NotifyAll`: the admission and the store move on by `AdmitStep`. */
  method NotifyNext(creator: PluginNotificationCreator, r: Report, ttlMillis: int, priority: Priority, now: int,
                    alerts: seq<HostAlert>, ghost stores0: map<string, Compartment>, ghost records0: seq<Notification>,
                    ghost first: nat, ghost a: Admission)
    returns (more: seq<HostAlert>)
    requires NotifiedSoFar(creator, stores0, records0, first, a, alerts, priority, now)
    modifies creator.database, creator.storedNotifications
    ensures NotifiedSoFar(creator, stores0, records0, first, AdmitStep(a, r, ttlMillis, now), more, priority, now)
  {
    ghost var storesBefore := creator.database.stores;
    ghost var next := AdmitStep(a, r, ttlMillis, now);
    assert StoreOf(storesBefore, creator.databaseStoreKey).stamps == a.stamps;
    var admitted, alert := NotifyOne(creator, r, ttlMillis, priority, now);
    StampsWrittenChain(stores0, storesBefore, creator.database.stores, creator.databaseStoreKey, a.stamps, next.stamps);
    more := alerts;
    if admitted {
      assert next.admitted == a.admitted + [r];
      StoredAfterOne(records0, a.admitted, r, creator.pluginId, first, now);
      AlertsForSnoc(a.admitted, r, priority);
      more := alerts + AlertList(alert);
    } else {
      assert next.admitted == a.admitted;
    }
  }

  /**
   * The rate-limit-then-notify step run over a plugin's findings one after another: the
   * stamps and the stored notifications end as `Admit` says, and the returned host alerts are
   * those of the admitted findings.
   */
  method NotifyAll(creator: PluginNotificationCreator, reports: seq<Report>, ttlMillis: int, priority: Priority, now: int)
    returns (alerts: seq<HostAlert>)
    requires creator.storedNotifications.Valid()
    modifies creator.database, creator.storedNotifications
    ensures creator.storedNotifications.Valid()
    ensures var a := Admit(reports, StoreOf(old(creator.database.stores), creator.databaseStoreKey).stamps, ttlMillis, now);
      && StampsWritten(old(creator.database.stores), creator.database.stores, creator.databaseStoreKey, a.stamps)
      && creator.storedNotifications.records == old(creator.storedNotifications.records)
        + StoredFor(a.admitted, creator.pluginId, old(creator.storedNotifications.nextId), now)
      && creator.storedNotifications.nextId == old(creator.storedNotifications.nextId) + |a.admitted|
      && alerts == AlertsFor(a.admitted, priority)
  {
    ghost var stores0 := creator.database.stores;
    ghost var records0 := creator.storedNotifications.records;
    ghost var first := creator.storedNotifications.nextId;
    ghost var stamps0 := StoreOf(stores0, creator.databaseStoreKey).stamps;
    ghost var a := Admission([], stamps0);
    alerts := [];
    assert records0 + [] == records0;
    var i := 0;
    while i < |reports|
      invariant 0 <= i <= |reports|
      invariant a == Admit(reports[..i], stamps0, ttlMillis, now)
      invariant NotifiedSoFar(creator, stores0, records0, first, a, alerts, priority, now)
    {
      AdmitPrefix(reports, i, stamps0, ttlMillis, now);
      alerts := NotifyNext(creator, reports[i], ttlMillis, priority, now, alerts, stores0, records0, first, a);
      a := AdmitStep(a, reports[i], ttlMillis, now);
      i := i + 1;
    }
    assert reports[..i] == reports;
  }
}
