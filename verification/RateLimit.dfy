// The sliding-window rate limiter: what it decides over whole runs, and the in-place
// implementation on shared slices.

module RateLimit {
  import opened Wrappers

  type Key = string

  // ----- the specification -----

  /** The hits that still count at time `now`. */
  function Recent(hits: seq<int>, now: int, window: int): seq<int> {
    if hits == [] then []
    else
      var front := Recent(hits[..|hits| - 1], now, window);
      if now - hits[|hits| - 1] < window then front + [hits[|hits| - 1]] else front
  }

  function HitsOf(state: map<Key, seq<int>>, key: Key): seq<int> {
    if key in state then state[key] else []
  }

  predicate Admits(state: map<Key, seq<int>>, key: Key, now: int, limit: int, window: int) {
    |Recent(HitsOf(state, key), now, window)| < limit
  }

  function AfterHit(state: map<Key, seq<int>>, key: Key, now: int, limit: int, window: int): map<Key, seq<int>> {
    var kept := Recent(HitsOf(state, key), now, window);
    state[key := if |kept| < limit then kept + [now] else kept]
  }

  function AfterCollect(state: map<Key, seq<int>>, now: int, window: int): map<Key, seq<int>> {
    map k | k in state && Recent(state[k], now, window) != [] :: Recent(state[k], now, window)
  }

  // ----- whole runs -----

  datatype Event = Hit(key: Key, at: int) | Collect(at: int)

  /** The limiter's memory after a run of requests and collections. */
  function StateAfter(events: seq<Event>, limit: int, window: int): map<Key, seq<int>> {
    if events == [] then map[]
    else
      var before := StateAfter(events[..|events| - 1], limit, window);
      match events[|events| - 1]
      case Hit(key, at) => AfterHit(before, key, at, limit, window)
      case Collect(at) => AfterCollect(before, at, window)
  }

  /** The decisions of a run, one for each request. */
  function Decisions(events: seq<Event>, limit: int, window: int): seq<bool> {
    if events == [] then []
    else
      var front := events[..|events| - 1];
      match events[|events| - 1]
      case Hit(key, at) =>
        Decisions(front, limit, window) + [Admits(StateAfter(front, limit, window), key, at, limit, window)]
      case Collect(_) => Decisions(front, limit, window)
  }

  /** The times at which requests of `key` were admitted. */
  function Admitted(events: seq<Event>, key: Key, limit: int, window: int): seq<int> {
    if events == [] then []
    else
      var front := events[..|events| - 1];
      var last := events[|events| - 1];
      if last.Hit? && last.key == key && Admits(StateAfter(front, limit, window), key, last.at, limit, window)
      then Admitted(front, key, limit, window) + [last.at]
      else Admitted(front, key, limit, window)
  }

  /** Time never runs backwards. */
  ghost predicate Timely(events: seq<Event>) {
    forall i, j :: 0 <= i < j < |events| ==> events[i].at <= events[j].at
  }

  function HitsOnly(events: seq<Event>): seq<Event> {
    if events == [] then []
    else HitsOnly(events[..|events| - 1]) + if events[|events| - 1].Hit? then [events[|events| - 1]] else []
  }

  lemma RecentLast(hits: seq<int>, t: int, now: int, window: int)
    ensures Recent(hits + [t], now, window) == Recent(hits, now, window) + if now - t < window then [t] else []
  {
    assert (hits + [t])[..|hits|] == hits;
  }

  /** What has expired stays expired, so pruning early makes no difference later. */
  lemma {:induction false} PruneEarly(hits: seq<int>, early: int, late: int, window: int)
    requires early <= late
    ensures Recent(Recent(hits, early, window), late, window) == Recent(hits, late, window)
  {
    if hits != [] {
      var front, t := hits[..|hits| - 1], hits[|hits| - 1];
      PruneEarly(front, early, late, window);
      if early - t < window {
        RecentLast(Recent(front, early, window), t, late, window);
      }
    }
  }

  lemma TimelyFront(events: seq<Event>)
    requires Timely(events) && events != []
    ensures Timely(events[..|events| - 1])
    ensures |events| > 1 ==> events[..|events| - 1][|events| - 2].at <= events[|events| - 1].at
  {
  }

  /** The memory always answers like the full record of admissions. */
  lemma {:induction false} MemoryIsFaithful(events: seq<Event>, key: Key, now: int, limit: int, window: int)
    requires Timely(events) && (events != [] ==> events[|events| - 1].at <= now)
    ensures Recent(HitsOf(StateAfter(events, limit, window), key), now, window)
         == Recent(Admitted(events, key, limit, window), now, window)
  {
    if events != [] {
      var front, last := events[..|events| - 1], events[|events| - 1];
      TimelyFront(events);
      var before := StateAfter(front, limit, window);
      MemoryIsFaithful(front, key, now, limit, window);
      PruneEarly(HitsOf(before, key), last.at, now, window);
      if last.Hit? && last.key == key && Admits(before, key, last.at, limit, window) {
        RecentLast(Recent(HitsOf(before, key), last.at, window), last.at, now, window);
        RecentLast(Admitted(front, key, limit, window), last.at, now, window);
      }
    }
  }

  /** A request is refused exactly when `limit` requests of its key were admitted within the window before it. */
  lemma RefusedIffLimitReached(events: seq<Event>, key: Key, now: int, limit: int, window: int)
    requires Timely(events + [Hit(key, now)])
    ensures Admits(StateAfter(events, limit, window), key, now, limit, window)
            <==> |Recent(Admitted(events, key, limit, window), now, window)| < limit
  {
    var whole := events + [Hit(key, now)];
    TimelyFront(whole);
    assert whole[..|whole| - 1] == events;
    MemoryIsFaithful(events, key, now, limit, window);
  }

  // ----- no burst -----

  ghost predicate Ascending(hits: seq<int>) {
    forall i, j :: 0 <= i < j < |hits| ==> hits[i] <= hits[j]
  }

  lemma AscendingAppend(hits: seq<int>, t: int)
    requires Ascending(hits) && (hits != [] ==> hits[|hits| - 1] <= t)
    ensures Ascending(hits + [t])
  {
  }

  lemma {:induction false} AdmittedInOrder(events: seq<Event>, key: Key, limit: int, window: int)
    requires Timely(events)
    ensures var a := Admitted(events, key, limit, window);
            && Ascending(a)
            && (a != [] ==> events != [] && a[|a| - 1] <= events[|events| - 1].at)
  {
    hide Ascending, Timely, Admits;
    if events != [] {
      var front, last := events[..|events| - 1], events[|events| - 1];
      TimelyFront(events);
      AdmittedInOrder(front, key, limit, window);
      var before := Admitted(front, key, limit, window);
      if Admitted(events, key, limit, window) == before + [last.at] {
        AscendingAppend(before, last.at);
      }
    } else {
      NothingAscends();
    }
  }

  lemma NothingAscends()
    ensures Ascending([])
  {
  }

  /** In an ascending sequence the last `n` hits are recent if the first of them is. */
  lemma {:induction false} RecentTail(hits: seq<int>, n: nat, now: int, window: int)
    requires n <= |hits| && Ascending(hits)
    requires n > 0 ==> now - hits[|hits| - n] < window
    ensures |Recent(hits, now, window)| >= n
  {
    if n > 0 {
      var front := hits[..|hits| - 1];
      assert hits[|hits| - n] <= hits[|hits| - 1];
      if n > 1 {
        assert front[|front| - (n - 1)] == hits[|hits| - n];
      }
      RecentTail(front, n - 1, now, window);
    }
  }

  lemma LastNotTooSoon(front: seq<Event>, key: Key, now: int, i: nat, limit: nat, window: int)
    requires Timely(front) && Timely(front + [Hit(key, now)])
    requires i + limit == |Admitted(front, key, limit, window)|
    requires Admits(StateAfter(front, limit, window), key, now, limit, window)
    ensures now - (Admitted(front, key, limit, window) + [now])[i] >= window
  {
    var before := Admitted(front, key, limit, window);
    RefusedIffLimitReached(front, key, now, limit, window);
    AdmittedInOrder(front, key, limit, window);
    hide StateAfter, Admitted, Admits, Timely;
    if now - (before + [now])[i] < window {
      RecentTail(before, limit, now, window);
    }
  }

  /** Of any `limit + 1` consecutive admitted requests of a key, the last comes at least a window after the first. */
  lemma {:induction false} NoBurst(events: seq<Event>, key: Key, i: nat, limit: nat, window: int)
    requires Timely(events) && i + limit < |Admitted(events, key, limit, window)|
    ensures Admitted(events, key, limit, window)[i + limit] - Admitted(events, key, limit, window)[i] >= window
  {
    hide StateAfter, Recent, Timely;
    var front, last := events[..|events| - 1], events[|events| - 1];
    TimelyFront(events);
    var before := Admitted(front, key, limit, window);
    if i + limit < |before| {
      NoBurst(front, key, i, limit, window);
    } else {
      assert front + [Hit(key, last.at)] == events;
      LastNotTooSoon(front, key, last.at, i, limit, window);
    }
  }

  // ----- collections are invisible -----

  lemma {:induction false} HitsOnlyTimely(events: seq<Event>)
    requires Timely(events)
    ensures Timely(HitsOnly(events))
    ensures HitsOnly(events) != [] ==>
              events != [] && HitsOnly(events)[|HitsOnly(events)| - 1].at <= events[|events| - 1].at
  {
    if events != [] {
      TimelyFront(events);
      HitsOnlyTimely(events[..|events| - 1]);
    }
  }

  lemma {:induction false} SameAdmissions(events: seq<Event>, key: Key, limit: int, window: int)
    requires Timely(events)
    ensures Admitted(events, key, limit, window) == Admitted(HitsOnly(events), key, limit, window)
    decreases |events|, 0
  {
    if events != [] {
      var front, last := events[..|events| - 1], events[|events| - 1];
      TimelyFront(events);
      SameAdmissions(front, key, limit, window);
      if last.Hit? {
        SameDecision(front, last.key, last.at, limit, window);
        assert HitsOnly(events)[..|HitsOnly(events)| - 1] == HitsOnly(front);
      } else {
        assert HitsOnly(events) == HitsOnly(front);
      }
    }
  }

  lemma {:induction false} SameDecision(events: seq<Event>, key: Key, now: int, limit: int, window: int)
    requires Timely(events) && (events != [] ==> events[|events| - 1].at <= now)
    ensures Admits(StateAfter(events, limit, window), key, now, limit, window)
         == Admits(StateAfter(HitsOnly(events), limit, window), key, now, limit, window)
    decreases |events|, 1
  {
    SameAdmissions(events, key, limit, window);
    HitsOnlyTimely(events);
    MemoryIsFaithful(events, key, now, limit, window);
    MemoryIsFaithful(HitsOnly(events), key, now, limit, window);
  }

  /** Collecting at any moments changes no decision. */
  lemma {:induction false} CollectionsAreInvisible(events: seq<Event>, limit: int, window: int)
    requires Timely(events)
    ensures Decisions(events, limit, window) == Decisions(HitsOnly(events), limit, window)
  {
    if events != [] {
      var front, last := events[..|events| - 1], events[|events| - 1];
      TimelyFront(events);
      CollectionsAreInvisible(front, limit, window);
      if last.Hit? {
        SameDecision(front, last.key, last.at, limit, window);
        assert HitsOnly(events)[..|HitsOnly(events)| - 1] == HitsOnly(front);
      } else {
        assert HitsOnly(events) == HitsOnly(front);
      }
    }
  }

  // ----- the implementation -----

  /** A slice: the first `len` elements of an array that other slices may share. */
  datatype Slice = Slice(data: array<int>, len: nat)

  lemma RecentStep(hits: seq<int>, i: nat, now: int, window: int)
    requires i < |hits|
    ensures Recent(hits[..i + 1], now, window) ==
            Recent(hits[..i], now, window) + if now - hits[i] < window then [hits[i]] else []
  {
    assert hits[..i + 1] == hits[..i] + [hits[i]];
    RecentLast(hits[..i], hits[i], now, window);
  }

  /** Keeps the recent hits by moving them to the front of the slice's own array. */
  method Compact(s: Slice, now: int, window: int) returns (kept: Slice)
    requires s.len <= s.data.Length
    modifies s.data
    ensures kept.data == s.data && kept.len <= s.len
    ensures kept.data[..kept.len] == Recent(old(s.data[..s.len]), now, window)
  {
    var n := 0;
    ghost var was := s.data[..s.len];
    for i := 0 to s.len
      invariant 0 <= n <= i
      invariant s.data[..n] == Recent(was[..i], now, window)
      invariant forall k :: i <= k < s.len ==> s.data[k] == was[k]
    {
      var t := s.data[i];
      RecentStep(was, i, now, window);
      if now - t < window {
        s.data[n] := t;
        n := n + 1;
      }
    }
    assert was[..s.len] == was;
    kept := Slice(s.data, n);
  }

  /** Appends in place while the array has room, and moves to a larger array otherwise. */
  method Append(s: Slice, t: int) returns (longer: Slice)
    requires s.len <= s.data.Length
    modifies s.data
    ensures longer.len == s.len + 1 <= longer.data.Length
    ensures longer.data[..longer.len] == old(s.data[..s.len]) + [t]
    ensures longer.data == s.data || fresh(longer.data)
  {
    if s.len < s.data.Length {
      s.data[s.len] := t;
      longer := Slice(s.data, s.len + 1);
    } else {
      var bigger := new int[2 * s.len + 1];
      for i := 0 to s.len
        invariant bigger[..i] == s.data[..i]
        invariant s.data[..s.len] == old(s.data[..s.len])
      {
        bigger[i] := s.data[i];
      }
      bigger[s.len] := t;
      longer := Slice(bigger, s.len + 1);
    }
  }

  class RateWindow {
    var hits: map<Key, Slice>
    const limit: int
    const window: int
    ghost var contents: map<Key, seq<int>>
    ghost var arrays: set<array<int>>

    ghost predicate Stored(s: Slice, times: seq<int>)
      reads this, arrays
    {
      s.data in arrays && s.len <= s.data.Length && s.data[..s.len] == times
    }

    /** Each key but one has its hits in a slice, in an array of its own. */
    ghost predicate ValidBut(key: Option<Key>)
      reads this, arrays
    {
      && hits.Keys == contents.Keys
      && (forall k :: k in hits && Some(k) != key ==> Stored(hits[k], contents[k]))
      && (forall k, l :: k in hits && l in hits && k != l ==> hits[k].data != hits[l].data)
    }

    ghost predicate Valid()
      reads this, arrays
    {
      ValidBut(None)
    }

    /** No key but `key` uses this array. */
    ghost predicate Free(key: Key, data: array<int>)
      reads this
    {
      forall k :: k in hits && k != key ==> hits[k].data != data
    }

    constructor (limit: int, window: int)
      ensures Valid() && contents == map[] && this.limit == limit && this.window == window && arrays == {}
    {
      this.limit, this.window, hits, contents, arrays := limit, window, map[], map[], {};
    }

    method Prune(key: Key, now: int) returns (kept: Slice)
      requires Valid()
      modifies arrays
      ensures ValidBut(Some(key)) && Free(key, kept.data)
      ensures if key in hits then kept.data in arrays else fresh(kept.data)
      ensures kept.len <= kept.data.Length
      ensures kept.data[..kept.len] == Recent(HitsOf(contents, key), now, window)
    {
      hide Recent;
      if key in hits {
        assert Stored(hits[key], contents[key]);
        kept := Compact(hits[key], now, window);
      } else {
        var none := new int[0];
        kept := Compact(Slice(none, 0), now, window);
      }
    }

    method Store(key: Key, s: Slice, ghost times: seq<int>)
      requires ValidBut(Some(key)) && Free(key, s.data)
      requires s.len <= s.data.Length && s.data[..s.len] == times
      modifies this
      ensures Valid() && arrays == old(arrays) + {s.data}
      ensures contents == old(contents)[key := times]
    {
      hits := hits[key := s];
      contents := contents[key := times];
      arrays := arrays + {s.data};
    }

    method Forget(key: Key)
      requires ValidBut(Some(key))
      modifies this
      ensures Valid() && arrays == old(arrays) && contents == old(contents) - {key}
    {
      hits := hits - {key};
      contents := contents - {key};
    }

    method Append'(key: Key, s: Slice, now: int) returns (longer: Slice)
      requires ValidBut(Some(key)) && Free(key, s.data) && s.len <= s.data.Length
      modifies s.data
      ensures ValidBut(Some(key)) && Free(key, longer.data)
      ensures longer.data == s.data || fresh(longer.data)
      ensures longer.len <= longer.data.Length && longer.data[..longer.len] == old(s.data[..s.len]) + [now]
    {
      longer := Append(s, now);
    }

    /** Decides a request, pruning and extending the key's slice in place. */
    method Allow(key: Key, now: int) returns (ok: bool)
      requires Valid()
      modifies this, arrays
      ensures Valid() && fresh(arrays - old(arrays))
      ensures ok == Admits(old(contents), key, now, limit, window)
      ensures contents == AfterHit(old(contents), key, now, limit, window)
    {
      hide Recent, ValidBut, Free;
      var kept := Prune(key, now);
      ghost var times := Recent(HitsOf(contents, key), now, window);
      ok := kept.len < limit;
      if ok {
        kept := Append'(key, kept, now);
        times := times + [now];
      }
      Store(key, kept, times);
    }

    method Gc(now: int)
      requires Valid()
      modifies this, arrays
      ensures Valid() && arrays == old(arrays)
      ensures contents == AfterCollect(old(contents), now, window)
    {
      hide Recent;
      var rest := hits.Keys;
      assert rest == contents.Keys && contents == HalfCollected(contents, rest, now, window);
      hide *;
      while rest != {}
        invariant Valid() && arrays == old(arrays) && rest <= old(contents).Keys
        invariant contents == HalfCollected(old(contents), rest, now, window)
        decreases |rest|
      {
        var k :| k in rest;
        HalfStep(old(contents), rest, k, now, window);
        rest := rest - {k};
        GcKey(k, now);
      }
      AllCollected(old(contents), now, window);
    }

    method GcKey(key: Key, now: int)
      requires Valid() && key in contents
      modifies this, arrays
      ensures Valid() && arrays == old(arrays)
      ensures contents == Collect1(old(contents), key, now, window)
    {
      hide Recent;
      var kept := Prune(key, now);
      ghost var times := Recent(HitsOf(contents, key), now, window);
      if kept.len == 0 {
        Forget(key);
      } else {
        Store(key, kept, times);
      }
    }
  }

  ghost function Collect1(state: map<Key, seq<int>>, key: Key, now: int, window: int): map<Key, seq<int>>
    requires key in state
  {
    if Recent(state[key], now, window) == [] then state - {key} else state[key := Recent(state[key], now, window)]
  }

  /** The memory in the middle of a collection, with the keys `rest` still to come. */
  ghost function HalfCollected(state: map<Key, seq<int>>, rest: set<Key>, now: int, window: int): map<Key, seq<int>> {
    map k | k in state && (k in rest || Recent(state[k], now, window) != []) ::
      if k in rest then state[k] else Recent(state[k], now, window)
  }

  lemma AllCollected(state: map<Key, seq<int>>, now: int, window: int)
    ensures HalfCollected(state, {}, now, window) == AfterCollect(state, now, window)
  {
    hide Recent;
  }

  lemma HalfStep(state: map<Key, seq<int>>, rest: set<Key>, key: Key, now: int, window: int)
    requires key in rest && key in state
    ensures key in HalfCollected(state, rest, now, window)
    ensures HalfCollected(state, rest - {key}, now, window)
         == Collect1(HalfCollected(state, rest, now, window), key, now, window)
  {
    hide Recent;
  }
}
