/**
 * The notification store of source/background/notificationsManager.ts: an append-only object
 * store with auto-incremented keys and two indexes, `timestamp` and `[pluginId, timestamp]`,
 * read newest first through a cursor that skips `offset` records and takes at most `limit`.
 */
module Notifications {
  import opened Wrappers
  import opened Values

  /** What a plugin hands to `putNotification`; the store adds the timestamp and the id. */
  datatype NotificationData = NotificationData(url: string, title: string, description: string, pluginId: string)

  /** A stored record: the auto-incremented key, the data and `Date.now()` at the time of the put. */
  datatype Notification = Notification(id: nat, data: NotificationData, timestamp: int)

  /**
   * The order of a `'prev'` cursor over either index: a later timestamp first, and among equal
   * timestamps the larger primary key first.
   */
  predicate Before(a: Notification, b: Notification) {
    a.timestamp > b.timestamp || (a.timestamp == b.timestamp && a.id > b.id)
  }

  ghost predicate NewestFirst(s: seq<Notification>) {
    forall i, j :: 0 <= i < j < |s| ==> Before(s[i], s[j])
  }

  ghost predicate DistinctIds(s: seq<Notification>) {
    forall i, j :: 0 <= i < j < |s| ==> s[i].id != s[j].id
  }

  /** `x` placed into a newest-first sequence at its place. */
  function Insert(x: Notification, s: seq<Notification>): seq<Notification> {
    if s == [] then [x]
    else if Before(x, s[0]) then [x] + s
    else [s[0]] + Insert(x, s[1..])
  }

  /** The records in cursor order. */
  function SortNewestFirst(s: seq<Notification>): seq<Notification> {
    if s == [] then [] else Insert(s[0], SortNewestFirst(s[1..]))
  }

  /**
   * Whether the range a fetch opens covers a record: a truthy `pluginId` (neither null,
   * undefined nor the empty string) selects the compound index between `[pluginId, 0]` and
   * `[pluginId, Number.MAX_SAFE_INTEGER]`; otherwise the whole `timestamp` index is read.
   */
  predicate InRange(n: Notification, pluginId: Option<string>) {
    if pluginId.Some? && pluginId.value != "" then
      n.data.pluginId == pluginId.value && 0 <= n.timestamp <= MaxSafeInteger
    else true
  }

  function Selected(records: seq<Notification>, pluginId: Option<string>): seq<Notification> {
    if records == [] then []
    else if InRange(records[0], pluginId) then [records[0]] + Selected(records[1..], pluginId)
    else Selected(records[1..], pluginId)
  }

  /** Every record the cursor can reach, in the order it reaches them. */
  function IndexView(records: seq<Notification>, pluginId: Option<string>): seq<Notification> {
    SortNewestFirst(Selected(records, pluginId))
  }

  /**
   * The records a live cursor over `view` collects after skipping `offset` of them: at most
   * `limit`, in cursor order. A fetch returns exactly this while its cursor stays inside the
   * view (`Fetch`); an offset past the end gives the empty page here.
   */
  function Page(view: seq<Notification>, limit: int, offset: int): (page: seq<Notification>)
    ensures |page| <= |view| && (limit <= 0 ==> page == [])
    ensures |page| == if limit <= 0 || offset >= |view| then 0 else Min(limit, |view| - Max(offset, 0))
    ensures forall i :: 0 <= i < |page| ==> page[i] == view[Max(offset, 0) + i]
  {
    var start := if offset > 0 then Min(offset, |view|) else 0;
    var end := if limit > 0 then Min(start + limit, |view|) else start;
    view[start..end]
  }

  /**
   * Why a fetch rejects: `cursor.continue()` on a cursor that `advance` has moved past the end
   * (InvalidStateError), or an `advance` count outside `unsigned long` (TypeError).
   */
  datatype FetchError = CursorPastEnd | AdvanceOutOfRange

  /** The largest count `IDBCursor.advance` accepts, `[EnforceRange] unsigned long`. */
  const MaxAdvance: int := 0xFFFF_FFFF

  /**
   * `fetchNotifications` over the cursor order `view`. An empty view opens no cursor. The
   * promise `advance(offset)` returns is not awaited into `cursor`, so after an advance past the
   * end the loop still sees a cursor: with `limit > 0` it pushes the cursor's `undefined` value
   * and the following `continue()` throws.
   */
  function Fetch(view: seq<Notification>, limit: int, offset: int): (r: Result<seq<Notification>, FetchError>)
    ensures r.Failure? <==> view != [] && offset > 0 && (offset > MaxAdvance || (limit > 0 && offset >= |view|))
    ensures r.Success? ==> r.value == Page(view, limit, offset)
  {
    if view == [] || offset <= 0 then Success(Page(view, limit, offset))
    else if offset > MaxAdvance then Failure(AdvanceOutOfRange)
    else if offset >= |view| && limit > 0 then Failure(CursorPastEnd)
    else Success(Page(view, limit, offset))
  }

  function Min(a: int, b: int): int { if a < b then a else b }
  function Max(a: int, b: int): int { if a < b then b else a }

  const DefaultLimit: int := 10
  const DefaultOffset: int := 0

  /** `StoredNotificationsManager` over its object store, held as the records in key order. */
  class StoredNotificationsManager {
    var records: seq<Notification>
    /** The store's key generator: the key the next put receives. */
    var nextId: nat

    /** Keys are handed out in increasing order and each is below the generator. */
    ghost predicate Valid()
      reads this
    {
      && 1 <= nextId
      && (forall i, j :: 0 <= i < j < |records| ==> records[i].id < records[j].id)
      && (forall i :: 0 <= i < |records| ==> records[i].id < nextId)
    }

    /** A freshly created store (`initializeNotificationManager` on a new database). */
    constructor()
      ensures Valid() && records == [] && nextId == 1
    {
      records := [];
      nextId := 1;
    }

    /** `putNotification`: the record is stored with `timestamp = now` under the next key, which is returned. */
    method PutNotification(data: NotificationData, now: int) returns (id: nat)
      requires Valid()
      modifies this
      ensures Valid()
      ensures id == old(nextId) && nextId == id + 1
      ensures records == old(records) + [Notification(id, data, now)]
    {
      id := nextId;
      records := records + [Notification(id, data, now)];
      nextId := nextId + 1;
    }

    /**
     * `fetchNotifications`: the page of the selected index at `offset`, at most `limit` long,
     * or the rejection a cursor advanced out of range raises.
     */
    method FetchNotifications(limit: int, offset: int, pluginId: Option<string>) returns (r: Result<seq<Notification>, FetchError>)
      requires Valid()
      ensures r == Fetch(IndexView(records, pluginId), limit, offset)
    {
      var view := IndexView(records, pluginId);
      if view == [] {
        return Success([]);
      }
      var position := 0;
      if offset > 0 {
        if offset > MaxAdvance {
          return Failure(AdvanceOutOfRange);
        }
        if offset >= |view| {
          // The cursor has no record left; the loop runs once and `continue()` throws.
          if limit > 0 {
            return Failure(CursorPastEnd);
          }
          return Success([]);
        }
        position := offset;
      }
      var start := position;
      var results: seq<Notification> := [];
      while position < |view| && |results| < limit
        invariant start <= position <= |view|
        invariant results == view[start..position]
        invariant position == start || position - start <= limit
        decreases |view| - position
      {
        results := results + [view[position]];
        position := position + 1;
      }
      r := Success(results);
    }
  }

  lemma {:induction false} InsertMembers(x: Notification, s: seq<Notification>)
    ensures multiset(Insert(x, s)) == multiset(s) + multiset{x}
  {
    if s != [] && !Before(x, s[0]) {
      InsertMembers(x, s[1..]);
      assert s == [s[0]] + s[1..];
    }
  }

  /** Insertion keeps a newest-first sequence newest first, provided `x` has a key of its own. */
  lemma {:induction false} InsertSorted(x: Notification, s: seq<Notification>)
    requires NewestFirst(s)
    requires forall y :: y in s ==> y.id != x.id
    ensures NewestFirst(Insert(x, s))
  {
    if s != [] && !Before(x, s[0]) {
      var tail := s[1..];
      InsertSorted(x, tail);
      InsertMembers(x, tail);
      var r := Insert(x, tail);
      forall y | y in r ensures Before(s[0], y) {
        assert y in multiset(r);
        if y != x {
          assert y in tail;
        }
      }
      assert Insert(x, s) == [s[0]] + r;
    }
  }

  /** Sorting keeps exactly the same records and puts them newest first. */
  lemma {:induction false} SortSpec(s: seq<Notification>)
    requires DistinctIds(s)
    ensures multiset(SortNewestFirst(s)) == multiset(s)
    ensures NewestFirst(SortNewestFirst(s))
  {
    if s != [] {
      var tail := s[1..];
      assert DistinctIds(tail) by {
        forall i, j | 0 <= i < j < |tail| ensures tail[i].id != tail[j].id {
          assert tail[i] == s[i + 1] && tail[j] == s[j + 1];
        }
      }
      SortSpec(tail);
      var sorted := SortNewestFirst(tail);
      InsertMembers(s[0], sorted);
      forall y | y in sorted ensures y.id != s[0].id {
        assert y in multiset(sorted);
        var k :| 0 <= k < |tail| && tail[k] == y;
        assert s[k + 1] == y;
      }
      InsertSorted(s[0], sorted);
      assert SortNewestFirst(s) == Insert(s[0], sorted);
      assert multiset(s) == multiset{s[0]} + multiset(tail) by {
        assert s == [s[0]] + tail;
      }
    }
  }

  /** The selection is the records of the range, in key order, each once. */
  lemma {:induction false} SelectedSpec(records: seq<Notification>, pluginId: Option<string>)
    ensures forall x :: x in Selected(records, pluginId) <==> x in records && InRange(x, pluginId)
    ensures multiset(Selected(records, pluginId)) <= multiset(records)
  {
    if records != [] {
      SelectedSpec(records[1..], pluginId);
      assert records == [records[0]] + records[1..];
    }
  }

  lemma {:induction false} SelectedDistinct(records: seq<Notification>, pluginId: Option<string>)
    requires forall i, j :: 0 <= i < j < |records| ==> records[i].id < records[j].id
    ensures DistinctIds(Selected(records, pluginId))
  {
    if records != [] {
      var tail := records[1..];
      assert forall i, j :: 0 <= i < j < |tail| ==> tail[i].id < tail[j].id by {
        forall i, j | 0 <= i < j < |tail| ensures tail[i].id < tail[j].id {
          assert tail[i] == records[i + 1] && tail[j] == records[j + 1];
        }
      }
      SelectedDistinct(tail, pluginId);
      SelectedSpec(tail, pluginId);
      var rest := Selected(tail, pluginId);
      if InRange(records[0], pluginId) {
        forall y | y in rest ensures y.id != records[0].id {
          var k :| 0 <= k < |tail| && tail[k] == y;
          assert records[k + 1] == y;
        }
        DistinctCons(records[0], rest);
        assert Selected(records, pluginId) == [records[0]] + rest;
      } else {
        assert Selected(records, pluginId) == rest;
      }
    }
  }

  lemma DistinctCons(x: Notification, rest: seq<Notification>)
    requires DistinctIds(rest) && forall y :: y in rest ==> y.id != x.id
    ensures DistinctIds([x] + rest)
  {
    var s := [x] + rest;
    forall i, j | 0 <= i < j < |s| ensures s[i].id != s[j].id {
      assert s[j] == rest[j - 1];
      if i > 0 {
        assert s[i] == rest[i - 1];
      }
    }
  }

  /**
   * What a fetch sees: exactly the stored records in the selected range, each once, newest
   * first, so timestamps never increase along it.
   */
  lemma IndexViewSpec(records: seq<Notification>, pluginId: Option<string>)
    requires forall i, j :: 0 <= i < j < |records| ==> records[i].id < records[j].id
    ensures forall x :: x in IndexView(records, pluginId) <==> x in records && InRange(x, pluginId)
    ensures multiset(IndexView(records, pluginId)) == multiset(Selected(records, pluginId))
    ensures NewestFirst(IndexView(records, pluginId))
    ensures forall i, j :: 0 <= i <= j < |IndexView(records, pluginId)| ==>
      IndexView(records, pluginId)[i].timestamp >= IndexView(records, pluginId)[j].timestamp
  {
    var sel := Selected(records, pluginId);
    SelectedSpec(records, pluginId);
    SelectedDistinct(records, pluginId);
    SortSpec(sel);
    var v := SortNewestFirst(sel);
    assert v == IndexView(records, pluginId);
    forall x ensures x in v <==> x in sel {
      assert x in v <==> x in multiset(v);
      assert x in sel <==> x in multiset(sel);
    }
    TimestampsNonIncreasing(v);
  }

  lemma TimestampsNonIncreasing(v: seq<Notification>)
    requires NewestFirst(v)
    ensures forall i, j :: 0 <= i <= j < |v| ==> v[i].timestamp >= v[j].timestamp
  {
    forall i, j | 0 <= i <= j < |v| ensures v[i].timestamp >= v[j].timestamp {
      if i < j {
        assert Before(v[i], v[j]);
      }
    }
  }

  /**
   * What a fetch returns lists its records with timestamps that never increase. It skips
   * exactly the first `offset` ordered records, and it succeeds only with an offset inside the
   * view (or on an empty view).
   */
  lemma PageNewestFirst(records: seq<Notification>, limit: int, offset: int, pluginId: Option<string>)
    requires forall i, j :: 0 <= i < j < |records| ==> records[i].id < records[j].id
    ensures var r := Fetch(IndexView(records, pluginId), limit, offset);
      r.Success? ==> forall i, j :: 0 <= i < j < |r.value| ==> r.value[i].timestamp >= r.value[j].timestamp
    ensures var view := IndexView(records, pluginId); var r := Fetch(view, limit, offset);
      offset >= 0 && limit > 0 && r.Success? ==>
        && (view == [] || offset < |view|)
        && r.value == view[Min(offset, |view|)..Min(offset + limit, |view|)]
  {
    IndexViewSpec(records, pluginId);
  }

  /**
   * A truthy plugin id returns only that plugin's records; null, undefined and the empty
   * string read every stored record.
   */
  lemma FilterSpec(records: seq<Notification>, limit: int, offset: int, pluginId: Option<string>)
    requires forall i, j :: 0 <= i < j < |records| ==> records[i].id < records[j].id
    ensures var r := Fetch(IndexView(records, pluginId), limit, offset);
      pluginId.Some? && pluginId.value != "" && r.Success? ==> forall x :: x in r.value ==> x.data.pluginId == pluginId.value
    ensures (pluginId.None? || pluginId == Some("")) ==> multiset(IndexView(records, pluginId)) == multiset(records)
  {
    IndexViewSpec(records, pluginId);
    var v := IndexView(records, pluginId);
    var p := Page(v, limit, offset);
    forall x | x in p ensures x in v {
      var i :| 0 <= i < |p| && p[i] == x;
    }
    if pluginId.None? || pluginId == Some("") {
      SelectedAll(records, pluginId);
    }
  }

  lemma {:induction false} SelectedAll(records: seq<Notification>, pluginId: Option<string>)
    requires pluginId.None? || pluginId == Some("")
    ensures Selected(records, pluginId) == records
  {
    if records != [] {
      SelectedAll(records[1..], pluginId);
      assert records == [records[0]] + records[1..];
    }
  }

  /** The offset of page `k`, `k·limit`, written as a running sum. */
  function PageOffset(limit: int, k: nat): (offset: int)
    ensures limit >= 0 ==> offset >= 0
  {
    if k == 0 then 0 else PageOffset(limit, k - 1) + limit
  }

  /** Fetching pages at offsets `0, limit, 2·limit, …` one after the other, up to the first rejection. */
  function FetchedPages(view: seq<Notification>, limit: int, k: nat): Result<seq<Notification>, FetchError> {
    if k == 0 then Success([])
    else
      match FetchedPages(view, limit, k - 1)
      case Failure(e) => Failure(e)
      case Success(before) =>
        match Fetch(view, limit, PageOffset(limit, k - 1))
        case Failure(e) => Failure(e)
        case Success(page) => Success(before + page)
  }

  /**
   * Reading `k` pages in a row succeeds exactly when the last offset asked for is still inside
   * the view (or is 0, or the view is empty); the pages then walk the ordered records from the
   * start, without gaps.
   */
  lemma PagesConcatenate(view: seq<Notification>, limit: int, k: nat)
    requires limit > 0
    ensures FetchedPages(view, limit, k).Success? <==>
      view == [] || k <= 1 || (PageOffset(limit, k - 1) < |view| && PageOffset(limit, k - 1) <= MaxAdvance)
    ensures FetchedPages(view, limit, k).Success? ==>
      FetchedPages(view, limit, k).value == view[..Min(PageOffset(limit, k), |view|)]
  {
    PagesSucceed(view, limit, k);
    PagesValue(view, limit, k);
  }

  lemma {:induction false} PagesSucceed(view: seq<Notification>, limit: int, k: nat)
    requires limit > 0
    ensures FetchedPages(view, limit, k).Success? <==>
      view == [] || k <= 1 || (PageOffset(limit, k - 1) < |view| && PageOffset(limit, k - 1) <= MaxAdvance)
  {
    if k > 0 {
      PagesSucceed(view, limit, k - 1);
      OffsetsGrow(limit, k - 1);
      FetchAt(view, limit, PageOffset(limit, k - 1));
    }
  }

  lemma {:induction false} PagesValue(view: seq<Notification>, limit: int, k: nat)
    requires limit > 0
    ensures FetchedPages(view, limit, k).Success? ==>
      FetchedPages(view, limit, k).value == view[..Min(PageOffset(limit, k), |view|)]
  {
    if k > 0 && FetchedPages(view, limit, k).Success? {
      PagesValue(view, limit, k - 1);
      var m := PageOffset(limit, k - 1);
      OffsetsGrow(limit, k - 1);
      FetchAt(view, limit, m);
      var a := Min(m, |view|);
      var b := Min(m + limit, |view|);
      assert view[..b] == view[..a] + view[a..b];
    }
  }

  /** One fetch at a non-negative offset: when it succeeds, and the slice of the view it returns. */
  lemma FetchAt(view: seq<Notification>, limit: int, offset: int)
    requires limit > 0 && offset >= 0
    ensures Fetch(view, limit, offset).Success? <==> view == [] || offset == 0 || (offset < |view| && offset <= MaxAdvance)
    ensures Fetch(view, limit, offset).Success? ==>
      Fetch(view, limit, offset).value == view[Min(offset, |view|)..Min(offset + limit, |view|)]
  {
    PageSlice(view, limit, offset);
  }

  lemma {:induction false} OffsetsGrow(limit: int, k: nat)
    requires limit > 0
    ensures PageOffset(limit, k) >= k
    ensures k > 0 ==> PageOffset(limit, k - 1) < PageOffset(limit, k)
  {
    if k > 0 {
      OffsetsGrow(limit, k - 1);
    }
  }

  lemma PageSlice(view: seq<Notification>, limit: int, offset: int)
    requires limit > 0 && offset >= 0
    ensures Page(view, limit, offset) == view[Min(offset, |view|)..Min(offset + limit, |view|)]
  {
  }

  /**
   * As written: when the records fill `k` pages exactly, every page comes back full, so the
   * notifications page asks for one more, and that fetch rejects instead of returning an
   * empty page.
   */
  lemma LoadMoreRejectsAtEnd(view: seq<Notification>, limit: int, k: nat)
    requires limit > 0 && k > 0 && |view| == PageOffset(limit, k) && |view| <= MaxAdvance
    ensures FetchedPages(view, limit, k) == Success(view)
    ensures |Page(view, limit, PageOffset(limit, k - 1))| == limit
    ensures Fetch(view, limit, PageOffset(limit, k)) == Failure(CursorPastEnd)
  {
    OffsetsGrow(limit, k);
    PagesConcatenate(view, limit, k);
    assert view[..|view|] == view;
  }

  /**
   * `fetchNotifications` with `cursor = await cursor.advance(offset)`: an advance past the end
   * leaves no cursor, so the loop does not run.
   */
  function FetchAwaited(view: seq<Notification>, limit: int, offset: int): (r: Result<seq<Notification>, FetchError>)
    ensures r.Failure? <==> view != [] && offset > MaxAdvance
    ensures r.Success? ==> r.value == Page(view, limit, offset)
  {
    if view != [] && offset > MaxAdvance then Failure(AdvanceOutOfRange) else Success(Page(view, limit, offset))
  }

  /**
   * With the advance awaited, the fetch after `k` full pages returns an empty page, which is
   * shorter than `limit`, so the notifications page stops asking; and reading page after page
   * never rejects within `MaxAdvance`.
   */
  lemma AwaitedLoadMoreEnds(view: seq<Notification>, limit: int, k: nat)
    requires limit > 0 && |view| == PageOffset(limit, k) && |view| <= MaxAdvance
    ensures FetchAwaited(view, limit, PageOffset(limit, k)) == Success([])
    ensures forall offset :: 0 <= offset <= MaxAdvance ==> FetchAwaited(view, limit, offset).Success?
  {
  }

  /** Pages that do not overlap as ranges share no record, since the ordered records are all distinct. */
  lemma PagesApart(view: seq<Notification>, limit: int, o1: int, o2: int)
    requires NewestFirst(view)
    requires 0 <= o1 && o1 + limit <= o2
    ensures forall x :: x in Page(view, limit, o1) ==> x !in Page(view, limit, o2)
  {
    var p := Page(view, limit, o1);
    var q := Page(view, limit, o2);
    forall a, b | 0 <= a < |p| && 0 <= b < |q| ensures p[a] != q[b] {
      assert Before(view[o1 + a], view[o2 + b]);
    }
  }

  lemma {:induction false} PageOffsetsGrow(j: nat, k: nat, limit: int)
    requires j < k && limit > 0
    ensures j * limit + limit <= k * limit
    decreases k
  {
    if k > j + 1 {
      PageOffsetsGrow(j, k - 1, limit);
      assert (k - 1) * limit + limit == k * limit;
    } else {
      assert (j + 1) * limit == j * limit + limit;
    }
  }

  /** Two different pages at multiples of the page size share no record. */
  lemma PagesDisjoint(view: seq<Notification>, limit: int, j: nat, k: nat)
    requires NewestFirst(view)
    requires limit > 0 && j != k
    ensures forall x :: x in Page(view, limit, j * limit) ==> x !in Page(view, limit, k * limit)
  {
    if j < k {
      PageOffsetsGrow(j, k, limit);
      PagesApart(view, limit, j * limit, k * limit);
    } else {
      PageOffsetsGrow(k, j, limit);
      PagesApart(view, limit, k * limit, j * limit);
    }
  }

  /** With the default arguments a fetch never rejects and returns the ten newest records. */
  lemma DefaultFetch(view: seq<Notification>)
    ensures Fetch(view, DefaultLimit, DefaultOffset) == Success(view[..Min(10, |view|)])
  {
  }
}
