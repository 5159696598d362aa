/**
 * The `LRUCache<string, true>` the dot-file and domain-takeover detectors keep their seen
 * hosts in: every entry has size 1, so the cache holds at most `maxSize` keys; `get` of a
 * present key makes it the most recently used, `set` adds a key as the most recently used
 * and evicts the least recently used keys beyond `maxSize`.
 *
 * The entries are kept least recently used first.
 */
module LruCaches {

  ghost predicate Distinct(s: seq<string>) {
    forall i, j :: 0 <= i < j < |s| ==> s[i] != s[j]
  }

  /** The entries without `key`. */
  function Remove(entries: seq<string>, key: string): (r: seq<string>)
    ensures forall k :: k in r <==> k in entries && k != key
    ensures |r| <= |entries|
  {
    if entries == [] then []
    else if entries[0] == key then Remove(entries[1..], key)
    else [entries[0]] + Remove(entries[1..], key)
  }

  lemma {:induction false} RemoveDistinct(entries: seq<string>, key: string)
    requires Distinct(entries)
    ensures Distinct(Remove(entries, key)) && key !in Remove(entries, key)
    ensures key in entries ==> |Remove(entries, key)| == |entries| - 1
    ensures key !in entries ==> Remove(entries, key) == entries
  {
    if entries != [] {
      RemoveDistinct(entries[1..], key);
      assert entries[0] !in entries[1..];
      if entries[0] != key {
        var r := Remove(entries[1..], key);
        assert Remove(entries, key) == [entries[0]] + r;
        assert entries[0] !in r;
      }
    }
  }

  /** `get`: a present key becomes the most recently used; an absent key changes nothing. */
  function Touch(entries: seq<string>, key: string): seq<string> {
    if key in entries then Remove(entries, key) + [key] else entries
  }

  /** `set(key, true)`: the key becomes the most recently used, and the oldest keys beyond `maxSize` go. */
  function Inserted(entries: seq<string>, maxSize: nat, key: string): seq<string> {
    var e := Remove(entries, key) + [key];
    if |e| > maxSize then e[|e| - maxSize..] else e
  }

  /** One access to the cache. */
  datatype Access = Lookup(key: string) | Store(key: string)

  function Step(entries: seq<string>, maxSize: nat, access: Access): seq<string> {
    match access
    case Lookup(key) => Touch(entries, key)
    case Store(key) => Inserted(entries, maxSize, key)
  }

  /** The entries after a run of accesses, oldest access first. */
  function Replay(entries: seq<string>, maxSize: nat, accesses: seq<Access>): seq<string>
    decreases |accesses|
  {
    if accesses == [] then entries
    else Step(Replay(entries, maxSize, accesses[..|accesses| - 1]), maxSize, accesses[|accesses| - 1])
  }

  /** The entries used more recently than `key`. */
  function After(entries: seq<string>, key: string): seq<string> {
    if entries == [] then []
    else if entries[0] == key then entries[1..]
    else After(entries[1..], key)
  }

  /**
   * A stored key is present and the most recently used; the cache never exceeds `maxSize` and
   * keeps its keys distinct.
   */
  lemma InsertedSpec(entries: seq<string>, maxSize: nat, key: string)
    requires maxSize >= 1 && Distinct(entries)
    ensures var r := Inserted(entries, maxSize, key);
      key in r && After(r, key) == [] && |r| <= maxSize && Distinct(r)
  {
    var s := Remove(entries, key);
    RemoveDistinct(entries, key);
    var e := s + [key];
    assert Distinct(e);
    AfterLast(s, key);
    if |e| > maxSize {
      var d := |e| - maxSize;
      assert e[d..][maxSize - 1] == key;
      assert e[..d] == s[..d];
      AfterSuffix(e, d, key);
      SuffixDistinct(e, d);
      assert Inserted(entries, maxSize, key) == e[d..];
    } else {
      assert Inserted(entries, maxSize, key) == e;
    }
  }

  lemma SuffixDistinct(e: seq<string>, d: nat)
    requires Distinct(e) && d <= |e|
    ensures Distinct(e[d..])
  {
    forall i, j | 0 <= i < j < |e| - d
      ensures e[d..][i] != e[d..][j]
    {
      assert e[d..][i] == e[d + i] && e[d..][j] == e[d + j];
    }
  }

  /** A store loses only keys the cache held before, and none while the cache is not full. */
  lemma InsertedKeys(entries: seq<string>, maxSize: nat, key: string)
    requires maxSize >= 1 && Distinct(entries)
    ensures forall k :: k in Inserted(entries, maxSize, key) ==> k in entries || k == key
    ensures |entries| < maxSize ==> forall k :: k in entries ==> k in Inserted(entries, maxSize, key)
  {
    RemoveDistinct(entries, key);
    var e := Remove(entries, key) + [key];
    assert |e| <= |entries| + 1;
    if |e| > maxSize {
      var r := e[|e| - maxSize..];
      assert forall k :: k in r ==> k in e;
    }
  }

  lemma {:induction false} AfterLast(s: seq<string>, key: string)
    requires key !in s
    ensures After(s + [key], key) == []
  {
    if s != [] {
      assert (s + [key])[1..] == s[1..] + [key];
      AfterLast(s[1..], key);
    }
  }

  lemma {:induction false} AfterSuffix(s: seq<string>, k: nat, key: string)
    requires k <= |s| && key in s[k..] && key !in s[..k]
    ensures After(s[k..], key) == After(s, key)
    decreases k
  {
    if k > 0 {
      assert s[0] in s[..k];
      assert s[1..][k - 1..] == s[k..];
      assert s[1..][..k - 1] == s[1..k];
      assert forall x :: x in s[1..k] ==> x in s[..k];
      AfterSuffix(s[1..], k - 1, key);
    }
  }

  /** Removing another key does not add to the keys used after `key`. */
  lemma {:induction false} AfterRemove(s: seq<string>, key: string, other: string)
    requires key in s && other != key
    ensures key in Remove(s, other)
    ensures |After(Remove(s, other), key)| <= |After(s, key)|
  {
    if s[0] == key {
      assert Remove(s, other) == [key] + Remove(s[1..], other);
    } else {
      AfterRemove(s[1..], key, other);
    }
  }

  lemma {:induction false} AfterAppend(s: seq<string>, key: string, other: string)
    requires key in s
    ensures After(s + [other], key) == After(s, key) + [other]
  {
    if s[0] == key {
      assert (s + [other])[1..] == s[1..] + [other];
    } else {
      assert (s + [other])[1..] == s[1..] + [other];
      AfterAppend(s[1..], key, other);
    }
  }

  /**
   * An access to another key leaves `key` in the cache as long as fewer than `maxSize` keys
   * were used after it, and makes at most one more key newer than it.
   */
  lemma StepKeeps(entries: seq<string>, maxSize: nat, key: string, access: Access)
    requires key in entries && access.key != key
    requires |After(entries, key)| + 1 < maxSize
    ensures key in Step(entries, maxSize, access)
    ensures |After(Step(entries, maxSize, access), key)| <= |After(entries, key)| + 1
  {
    match access
    case Lookup(k) => TouchKeeps(entries, key, k);
    case Store(k) => InsertedKeeps(entries, maxSize, key, k);
  }

  lemma TouchKeeps(entries: seq<string>, key: string, k: string)
    requires key in entries && k != key
    ensures key in Touch(entries, k)
    ensures |After(Touch(entries, k), key)| <= |After(entries, key)| + 1
  {
    if k in entries {
      var s := Remove(entries, k);
      AfterRemove(entries, key, k);
      AfterAppend(s, key, k);
    }
  }

  lemma InsertedKeeps(entries: seq<string>, maxSize: nat, key: string, k: string)
    requires key in entries && k != key
    requires |After(entries, key)| + 1 < maxSize
    ensures key in Inserted(entries, maxSize, k)
    ensures |After(Inserted(entries, maxSize, k), key)| <= |After(entries, key)| + 1
  {
    var s := Remove(entries, k);
    AfterRemove(entries, key, k);
    AfterAppend(s, key, k);
    var e := s + [k];
    var n := |After(entries, key)| + 1;
    assert key in e && |After(e, key)| <= n;
    if |e| > maxSize {
      var d := |e| - maxSize;
      AfterFront(e, key, d);
      assert Inserted(entries, maxSize, k) == e[d..];
    } else {
      assert Inserted(entries, maxSize, k) == e;
    }
  }

  /** Dropping the oldest entries keeps `key` when enough of them are older than it. */
  lemma {:induction false} AfterFront(e: seq<string>, key: string, d: nat)
    requires key in e && d <= |e| - 1 - |After(e, key)|
    ensures key in e[d..] && After(e[d..], key) == After(e, key)
    decreases d
  {
    if d > 0 {
      assert e[0] != key;
      assert e[1..][d - 1..] == e[d..];
      AfterFront(e[1..], key, d - 1);
    }
  }

  /**
   * The seen-set guarantee the detectors rely on: once a key is stored, it stays in the cache
   * through any run of fewer than `maxSize` accesses to other keys.
   */
  lemma {:induction false} KeptWhileRecent(entries: seq<string>, maxSize: nat, key: string, accesses: seq<Access>)
    requires key in entries && After(entries, key) == []
    requires |accesses| < maxSize
    requires forall i :: 0 <= i < |accesses| ==> accesses[i].key != key
    ensures key in Replay(entries, maxSize, accesses)
    ensures |After(Replay(entries, maxSize, accesses), key)| <= |accesses|
    decreases |accesses|
  {
    if accesses != [] {
      var n := |accesses| - 1;
      KeptWhileRecent(entries, maxSize, key, accesses[..n]);
      StepKeeps(Replay(entries, maxSize, accesses[..n]), maxSize, key, accesses[n]);
    }
  }

  /** `LRUCache({maxSize, sizeCalculation: () => 1})` over string keys. */
  class LruCache {
    const maxSize: nat
    var entries: seq<string>

    ghost predicate Valid()
      reads this
    {
      1 <= maxSize && |entries| <= maxSize && Distinct(entries)
    }

    constructor(maxSize: nat)
      requires maxSize >= 1
      ensures Valid() && this.maxSize == maxSize && entries == []
    {
      this.maxSize := maxSize;
      entries := [];
    }

    /** `get`: whether the key is held; a held key becomes the most recently used. */
    method Get(key: string) returns (hit: bool)
      requires Valid()
      modifies this
      ensures Valid()
      ensures hit <==> key in old(entries)
      ensures entries == Touch(old(entries), key)
    {
      hit := key in entries;
      if hit {
        RemoveDistinct(entries, key);
        entries := Remove(entries, key) + [key];
      }
    }

    /** `set(key, true)`. */
    method Set(key: string)
      requires Valid()
      modifies this
      ensures Valid() && key in entries
      ensures entries == Inserted(old(entries), maxSize, key)
    {
      InsertedSpec(entries, maxSize, key);
      var e := Remove(entries, key) + [key];
      if |e| > maxSize {
        e := e[|e| - maxSize..];
      }
      entries := e;
    }
  }
}
