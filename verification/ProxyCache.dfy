/** The proxy cache when requests are served one at a time: the slot array with
    its timestamps behaves as a recency list with room for ten pages. */
module ProxyCache {
  import opened Collections
  import opened ProxySizes

  type Page = (string, string)

  // ---- the recency list, least recent first ----

  /** The position of a name in the list, or its length. */
  function Find(q: seq<Page>, uri: string): (k: nat)
    ensures k <= |q|
    ensures k < |q| ==> q[k].0 == uri
    ensures forall j :: 0 <= j < k ==> q[j].0 != uri
  {
    if q == [] then 0 else if q[0].0 == uri then 0 else 1 + Find(q[1..], uri)
  }

  function Insert(q: seq<Page>, uri: string, page: string): seq<Page> {
    (if |q| < LINES then q else q[1..]) + [(uri, page)]
  }

  /** One request: a hit is touched, a fetched page that is small enough is inserted. */
  function Request(q: seq<Page>, uri: string, page: string, keep: bool): seq<Page> {
    var k := Find(q, uri);
    if k < |q| then ToEnd(q, k) else if keep then Insert(q, uri, page) else q
  }

  function Served(q: seq<Page>, uri: string, page: string): string {
    var k := Find(q, uri);
    if k < |q| then q[k].1 else page
  }

  ghost predicate DistinctNames(q: seq<Page>) {
    forall j, k :: 0 <= j < k < |q| ==> q[j].0 != q[k].0
  }

  ghost predicate Named(q: seq<Page>, uri: string) {
    exists k :: 0 <= k < |q| && q[k].0 == uri
  }

  /** An insertion keeps names distinct exactly when the name is not already on
      a line that survives it. */
  lemma InsertDistinctIff(q: seq<Page>, uri: string, page: string)
    requires DistinctNames(q)
    ensures DistinctNames(Insert(q, uri, page)) <==> !Named(if |q| < LINES then q else q[1..], uri)
  {
    var kept := if |q| < LINES then q else q[1..];
    var r := Insert(q, uri, page);
    assert forall k :: 0 <= k < |kept| ==> r[k] == kept[k];
    if k :| 0 <= k < |kept| && kept[k].0 == uri {
      assert r[k].0 == r[|kept|].0;
    }
  }

  // ---- the slot array ----

  datatype Line = Line(name: string, payload: string, timestamp: int)

  class Cache {
    var cache: array<Line>
    var usedcnt: nat
    var gtime: nat
    // The used slots, least recently stamped first.
    ghost var order: seq<nat>

    ghost predicate Valid()
      reads this, cache
    {
      && cache.Length == LINES && usedcnt <= LINES && |order| == usedcnt
      && Distinct(order) && Below(order, usedcnt)
      && (forall j, k :: 0 <= j < k < |order| ==> cache[order[j]].timestamp < cache[order[k]].timestamp)
      && (forall k :: 0 <= k < |order| ==> cache[order[k]].timestamp < gtime)
    }

    /** The pages, least recently used first. */
    ghost function Recency(): (q: seq<Page>)
      reads this, cache
      requires Valid()
      ensures |q| == usedcnt
      ensures forall k :: 0 <= k < |q| ==> q[k] == (cache[order[k]].name, cache[order[k]].payload)
    {
      seq(|order|, k requires 0 <= k < |order| reads this, cache requires Valid() =>
        (cache[order[k]].name, cache[order[k]].payload))
    }

    constructor ()
      ensures Valid() && Recency() == [] && fresh(cache)
    {
      cache := new Line[LINES](_ => Line("", "", -1));
      usedcnt, gtime, order := 0, 0, [];
    }

    /** Every used slot is listed. */
    lemma Listed(i: nat)
      requires Valid() && i < usedcnt
      ensures exists k :: 0 <= k < |order| && order[k] == i
    {
      DistinctSize(order, usedcnt);
      assert i in order;
    }

    method Reader(uri: string) returns (cache_i: int, sent: string)
      requires Valid() && DistinctNames(Recency())
      ensures -1 <= cache_i < usedcnt
      ensures cache_i == -1 <==> Find(Recency(), uri) == usedcnt
      ensures cache_i != -1 ==> order[Find(Recency(), uri)] == cache_i && sent == Recency()[Find(Recency(), uri)].1
    {
      cache_i, sent := -1, "";
      ghost var q := Recency();
      var i := 0;
      while i < usedcnt
        invariant 0 <= i <= usedcnt && cache_i == -1
        invariant forall j :: 0 <= j < i ==> cache[j].name != uri
      {
        if cache[i].name == uri {
          Listed(i);
          ghost var k :| 0 <= k < |order| && order[k] == i;
          assert q[k].0 == uri;
          return i, cache[i].payload;
        }
        i := i + 1;
      }
    }

    /** The scan for the least timestamp. */
    method FindVictim() returns (lru_i: nat)
      requires Valid() && usedcnt == LINES
      ensures lru_i == order[0]
    {
      lru_i := 0;
      var lru_t := cache[0].timestamp;
      var i := 1;
      while i < LINES
        invariant 1 <= i <= LINES && lru_i < i && lru_t == cache[lru_i].timestamp
        invariant forall j :: 0 <= j < i ==> lru_t <= cache[j].timestamp
      {
        if cache[i].timestamp < lru_t {
          lru_i := i;
          lru_t := cache[i].timestamp;
        }
        i := i + 1;
      }
      Listed(lru_i);
    }

    static lemma ToEndNames(q: seq<nat>, k: nat, n: nat)
      requires k < |q| && Distinct(q) && Below(q, n)
      ensures Distinct(ToEnd(q, k)) && Below(ToEnd(q, k), n)
      ensures forall m :: 0 <= m < |q| && m != k ==> q[m] != q[k]
    {
    }

    /** The branch of `writer` for a hit. */
    method TouchLine(cache_i: nat, ghost k: nat)
      requires Valid() && k < usedcnt && order[k] == cache_i
      modifies this`gtime, this`order, cache
      ensures Valid() && Recency() == ToEnd(old(Recency()), k)
    {
      ghost var q, r := Recency(), ToEnd(order, k);
      hide ToEnd, Distinct, Below;
      ToEndElements(order, k);
      ToEndElements(q, k);
      ToEndNames(order, k, usedcnt);
      cache[cache_i] := cache[cache_i].(timestamp := gtime);
      gtime := gtime + 1;
      order := r;
      forall m | 0 <= m < |r| ensures Recency()[m] == ToEnd(q, k)[m] {
        assert m < k ==> r[m] == old(order)[m];
        assert k <= m < |r| - 1 ==> r[m] == old(order)[m + 1];
      }
    }

    /** The branch of `writer` for a miss with a line still unused. */
    method AppendLine(uri: string, buf: string)
      requires Valid() && usedcnt < LINES
      modifies this`gtime, this`order, this`usedcnt, cache
      ensures Valid() && Recency() == Insert(old(Recency()), uri, buf)
    {
      cache[usedcnt] := Line(uri, buf, gtime);
      gtime := gtime + 1;
      order := order + [usedcnt];
      usedcnt := usedcnt + 1;
    }

    /** The branch of `writer` for a miss with every line in use. */
    method EvictLine(uri: string, buf: string)
      requires Valid() && usedcnt == LINES
      modifies this`gtime, this`order, cache
      ensures Valid() && Recency() == Insert(old(Recency()), uri, buf)
    {
      var lru_i := FindVictim();
      cache[lru_i] := Line(uri, buf, gtime);
      gtime := gtime + 1;
      order := order[1..] + [lru_i];
    }

    method Writer(uri: string, buf: string, cache_i: int)
      requires Valid() && -1 <= cache_i < usedcnt
      modifies this, cache
      ensures Valid() && cache == old(cache)
      ensures cache_i == -1 ==> Recency() == Insert(old(Recency()), uri, buf)
      ensures forall k :: 0 <= k < |old(order)| && old(order)[k] == cache_i ==> Recency() == ToEnd(old(Recency()), k)
    {
      if cache_i != -1 {
        Listed(cache_i);
        ghost var k :| 0 <= k < |order| && order[k] == cache_i;
        TouchLine(cache_i, k);
      } else if usedcnt < LINES {
        AppendLine(uri, buf);
      } else {
        EvictLine(uri, buf);
      }
    }

    /** One request served from start to end: the lookup, then the touch or the insertion. */
    method Doit(uri: string, page: string, keep: bool) returns (served: string)
      requires Valid() && DistinctNames(Recency())
      modifies this, cache
      ensures Valid() && cache == old(cache) && DistinctNames(Recency())
      ensures Recency() == Request(old(Recency()), uri, page, keep)
      ensures served == Served(old(Recency()), uri, page)
      ensures forall p :: (uri, p) in old(Recency()) ==> served == p
      ensures (forall p :: (uri, p) !in old(Recency())) ==> served == page
    {
      hide DistinctNames, Insert, ToEnd, Find, Served;
      ghost var q := Recency();
      ServedPage(q, uri, page);
      RequestDistinct(q, uri, page, keep);
      var cache_i, sent := Reader(uri);
      if cache_i != -1 {
        Writer(uri, "", cache_i);
        return sent;
      }
      if keep {
        Writer(uri, page, -1);
      }
      served := page;
    }

    /** A list of requests served one after another. */
    method Serve(requests: seq<Req>) returns (served: seq<string>)
      requires Valid() && DistinctNames(Recency())
      modifies this, cache
      ensures Valid() && Recency() == History(old(Recency()), requests)
      ensures |served| == |requests|
      ensures forall k :: 0 <= k < |requests| ==> served[k] == ServedAt(old(Recency()), requests, k)
    {
      hide Cache.Valid, Cache.Recency, Request, Served, ServedAt, History, DistinctNames;
      ghost var q := Recency();
      NoHistory(q, requests);
      served := [];
      var k := 0;
      while k < |requests|
        invariant 0 <= k <= |requests| && |served| == k && cache == old(cache)
        invariant Valid() && DistinctNames(Recency()) && Recency() == History(q, requests[..k])
        invariant forall j :: 0 <= j < k ==> served[j] == ServedAt(q, requests, j)
      {
        HistoryStep(q, requests, k);
        var s := Doit(requests[k].uri, requests[k].page, requests[k].keep);
        served := served + [s];
        k := k + 1;
      }
      assert requests[..k] == requests;
    }
  }

  // ---- runs of requests ----

  /** A request, the page that a miss would fetch, and whether it is small enough to keep. */
  datatype Req = Req(uri: string, page: string, keep: bool)

  /** The recency list after the given requests. */
  function History(q: seq<Page>, requests: seq<Req>): seq<Page> {
    if requests == [] then q else
      var r := requests[|requests| - 1];
      Request(History(q, requests[..|requests| - 1]), r.uri, r.page, r.keep)
  }

  /** What request k of the list is served. */
  function ServedAt(q: seq<Page>, requests: seq<Req>, k: nat): string
    requires k < |requests|
  {
    Served(History(q, requests[..k]), requests[k].uri, requests[k].page)
  }

  lemma NoHistory(q: seq<Page>, requests: seq<Req>)
    ensures History(q, requests[..0]) == q
  {
  }

  lemma HistoryStep(q: seq<Page>, requests: seq<Req>, k: nat)
    requires k < |requests|
    ensures var h, r := History(q, requests[..k]), requests[k];
            && History(q, requests[..k + 1]) == Request(h, r.uri, r.page, r.keep)
            && ServedAt(q, requests, k) == Served(h, r.uri, r.page)
  {
    hide Request, Served;
    assert requests[..k + 1][..k] == requests[..k];
  }

  lemma FindUnique(q: seq<Page>, k: nat)
    requires DistinctNames(q) && k < |q|
    ensures Find(q, q[k].0) == k
  {
  }

  /** A page in the list is served; a name not in the list gets the page fetched. */
  lemma ServedPage(q: seq<Page>, uri: string, page: string)
    requires DistinctNames(q)
    ensures forall p :: (uri, p) in q ==> Served(q, uri, page) == p
    ensures (forall p :: (uri, p) !in q) ==> Served(q, uri, page) == page
  {
    forall p | (uri, p) in q ensures Served(q, uri, page) == p {
      var k :| 0 <= k < |q| && q[k] == (uri, p);
      FindUnique(q, k);
    }
    if Find(q, uri) < |q| { assert (uri, q[Find(q, uri)].1) in q; }
  }

  lemma RequestDistinct(q: seq<Page>, uri: string, page: string, keep: bool)
    requires DistinctNames(q)
    ensures DistinctNames(Request(q, uri, page, keep))
  {
    var k := Find(q, uri);
    if k < |q| {
      ToEndElements(q, k);
    } else {
      InsertDistinctIff(q, uri, page);
    }
  }

  // ---- an independent account: the names in order of last use ----

  function Without(names: seq<string>, x: string): seq<string> {
    if names == [] then []
    else Without(names[..|names| - 1], x) + if names[|names| - 1] == x then [] else [names[|names| - 1]]
  }

  /** All names ever used, each once, in order of last use. */
  function LastUse(used: seq<string>): seq<string> {
    if used == [] then []
    else Without(LastUse(used[..|used| - 1]), used[|used| - 1]) + [used[|used| - 1]]
  }

  /** The last LINES entries. */
  function Newest(names: seq<string>): seq<string> {
    if |names| <= LINES then names else names[|names| - LINES..]
  }

  function Names(q: seq<Page>): (r: seq<string>)
    ensures |r| == |q| && forall k :: 0 <= k < |q| ==> r[k] == q[k].0
  {
    seq(|q|, k requires 0 <= k < |q| => q[k].0)
  }

  /** The names that used the cache: every hit, and every page kept. */
  function Uses(q: seq<Page>, requests: seq<Req>): seq<string> {
    if requests == [] then [] else
      var before, r := requests[..|requests| - 1], requests[|requests| - 1];
      var h := History(q, before);
      Uses(q, before) + if Find(h, r.uri) < |h| || r.keep then [r.uri] else []
  }

  lemma {:induction false} WithoutMembers(names: seq<string>, x: string)
    ensures forall y :: y in Without(names, x) <==> y in names && y != x
    ensures x !in names ==> Without(names, x) == names
  {
    if names != [] { WithoutMembers(names[..|names| - 1], x); }
  }

  lemma {:induction false} WithoutDistinct(names: seq<string>, x: string)
    requires Distinct(names)
    ensures Distinct(Without(names, x))
  {
    if names != [] {
      var r := names[..|names| - 1];
      WithoutDistinct(r, x);
      WithoutMembers(r, x);
      DistinctConcat(Without(r, x), if names[|r|] == x then [] else [names[|r|]]);
    }
  }

  lemma {:induction false} WithoutAt(names: seq<string>, k: nat)
    requires Distinct(names) && k < |names|
    ensures Without(names, names[k]) == names[..k] + names[k + 1..]
  {
    var n := |names| - 1;
    var r := names[..n];
    if k < n {
      WithoutAt(r, k);
      assert r[k] == names[k] && r[..k] == names[..k];
      assert r[k + 1..] + [names[n]] == names[k + 1..];
    } else {
      WithoutMembers(r, names[k]);
      assert names[..k] == r && names[k + 1..] == [];
    }
  }

  lemma {:induction false} LastUseDistinct(used: seq<string>)
    ensures Distinct(LastUse(used))
  {
    if used != [] {
      LastUseDistinct(used[..|used| - 1]);
      WithoutDistinct(LastUse(used[..|used| - 1]), used[|used| - 1]);
      WithoutMembers(LastUse(used[..|used| - 1]), used[|used| - 1]);
    }
  }

  /** Where the window of the newest starts. */
  function Start(names: seq<string>): nat {
    if |names| <= LINES then 0 else |names| - LINES
  }

  /** Using a name of the window moves it to the end of the window. */
  lemma NewestHit(all: seq<string>, k: nat)
    requires Distinct(all) && k < |Newest(all)|
    ensures var x := Newest(all)[k]; Newest(Without(all, x) + [x]) == ToEnd(Newest(all), k)
  {
    var off := Start(all);
    assert Newest(all) == all[off..] && Newest(all)[k] == all[off + k];
    WithoutAt(all, off + k);
    hide Without, Distinct, Newest, ToEnd;
    HitSplit(all, off, k);
    NewestOfTail(all[..off], ToEnd(all[off..], k), off);
  }

  lemma HitSplit(all: seq<string>, off: nat, k: nat)
    requires off + k < |all|
    ensures all[..off + k] + all[off + k + 1..] + [all[off + k]] == all[..off] + ToEnd(all[off..], k)
    ensures |ToEnd(all[off..], k)| == |all| - off
  {
    assert all[..off + k] == all[..off] + all[off..][..k];
    assert all[off + k + 1..] == all[off..][k + 1..];
  }

  lemma NewestOfTail(rest: seq<string>, tail: seq<string>, off: nat)
    requires |rest| == off && |tail| <= LINES && (off > 0 ==> |tail| == LINES)
    ensures Newest(rest + tail) == tail
  {
  }

  /** Using another name pushes the oldest of a full window out. */
  lemma NewestMiss(all: seq<string>, x: string)
    requires Distinct(all) && x !in Newest(all)
    ensures Newest(Without(all, x) + [x]) ==
            (if |Newest(all)| < LINES then Newest(all) else Newest(all)[1..]) + [x]
  {
    var off := Start(all);
    var window := all[off..];
    assert Newest(all) == window;
    assert all == all[..off] + window;
    if x in all[..off] {
      var k :| 0 <= k < off && all[..off][k] == x;
      WithoutAt(all, k);
      hide Distinct, Newest, Without;
      SplitAround(all, k, off);
      MissTail(all[..k] + all[k + 1..off], window, x);
    } else {
      WithoutMembers(all, x);
      hide Distinct, Newest, Without;
      MissTail(all[..off], window, x);
    }
  }

  lemma SplitAround(all: seq<string>, k: nat, off: nat)
    requires k < off <= |all|
    ensures all[..k] + all[k + 1..] == (all[..k] + all[k + 1..off]) + all[off..]
  {
  }

  lemma MissTail(rest: seq<string>, window: seq<string>, x: string)
    requires |window| <= LINES && (rest != [] ==> |window| == LINES)
    ensures Newest(rest + window + [x]) == (if |window| < LINES then window else window[1..]) + [x]
  {
    if |window| < LINES {
      NewestOfTail(rest, window + [x], 0);
      assert rest + window + [x] == rest + (window + [x]);
    } else {
      NewestOfTail(rest + [window[0]], window[1..] + [x], |rest| + 1);
      assert rest + window + [x] == (rest + [window[0]]) + (window[1..] + [x]);
    }
  }

  /** LRU, for every run from the empty cache: the names held, in recency order,
      are the ten most recently used distinct names. */
  lemma {:induction false} HoldsTheMostRecent(requests: seq<Req>)
    ensures DistinctNames(History([], requests))
    ensures Names(History([], requests)) == Newest(LastUse(Uses([], requests)))
  {
    hide Request, Find, Newest, Without, DistinctNames, Names;
    if requests == [] {
      EmptyCache();
    } else {
      var before, r := requests[..|requests| - 1], requests[|requests| - 1];
      HoldsTheMostRecent(before);
      var h := History([], before);
      LastUseDistinct(Uses([], before));
      RequestDistinct(h, r.uri, r.page, r.keep);
      UseStep(h, r, Uses([], before));
    }
  }

  lemma EmptyCache()
    ensures DistinctNames([]) && Names([]) == Newest([])
  {
  }

  /** One request changes the names held as its use changes the order of last use. */
  lemma UseStep(h: seq<Page>, r: Req, uses: seq<string>)
    requires DistinctNames(h) && Names(h) == Newest(LastUse(uses))
    ensures Names(Request(h, r.uri, r.page, r.keep)) ==
            Newest(LastUse(uses + if Find(h, r.uri) < |h| || r.keep then [r.uri] else []))
  {
    hide Without, Newest, DistinctNames;
    LastUseDistinct(uses);
    LastUseStep(uses, r.uri);
    var k := Find(h, r.uri);
    assert uses + [] == uses;
    if k < |h| {
      HitNames(h, r);
      NewestHit(LastUse(uses), k);
    } else {
      MissNames(h, r);
      NewestMiss(LastUse(uses), r.uri);
    }
  }

  lemma LastUseStep(uses: seq<string>, x: string)
    ensures LastUse(uses + [x]) == Without(LastUse(uses), x) + [x]
  {
    hide Without;
    assert (uses + [x])[..|uses|] == uses;
  }

  lemma HitNames(h: seq<Page>, r: Req)
    requires Find(h, r.uri) < |h|
    ensures Names(h)[Find(h, r.uri)] == r.uri
    ensures Names(Request(h, r.uri, r.page, r.keep)) == ToEnd(Names(h), Find(h, r.uri))
  {
    hide ToEnd, Find;
    NamesToEnd(h, Find(h, r.uri));
  }

  lemma NamesToEnd(h: seq<Page>, k: nat)
    requires k < |h|
    ensures Names(ToEnd(h, k)) == ToEnd(Names(h), k)
  {
    ToEndElements(h, k);
    ToEndElements(Names(h), k);
    hide ToEnd;
  }

  lemma MissNames(h: seq<Page>, r: Req)
    requires Find(h, r.uri) == |h|
    ensures r.uri !in Names(h)
    ensures Names(Request(h, r.uri, r.page, r.keep)) ==
            if r.keep then (if |h| < LINES then Names(h) else Names(h)[1..]) + [r.uri] else Names(h)
  {
    hide Find;
    NamesInsert(h, r.uri, r.page);
    hide Insert;
  }

  lemma NamesInsert(h: seq<Page>, uri: string, page: string)
    ensures Names(Insert(h, uri, page)) == (if |h| < LINES then Names(h) else Names(h)[1..]) + [uri]
  {
  }

  /** A request is served from the cache exactly when its name is among the ten
      most recently used. */
  lemma HitExactlyWhenRecent(requests: seq<Req>, uri: string)
    ensures var h := History([], requests);
            Find(h, uri) < |h| <==> uri in Newest(LastUse(Uses([], requests)))
  {
    HoldsTheMostRecent(requests);
    var h := History([], requests);
    if uri in Names(h) {
      var k :| 0 <= k < |h| && Names(h)[k] == uri;
      FindUnique(h, k);
    }
    assert Find(h, uri) < |h| ==> Names(h)[Find(h, uri)] == uri;
  }

  /** Request j missed: its name was not in the cache. */
  ghost predicate Missed(requests: seq<Req>, j: nat)
    requires j < |requests|
  {
    var h := History([], requests[..j]);
    Find(h, requests[j].uri) == |h|
  }

  /** Request j missed and fetched the page, and every later request for its
      name was a hit. */
  ghost predicate LastFetched(requests: seq<Req>, j: nat, page: Page)
    requires j < |requests|
  {
    && requests[j].keep && page == (requests[j].uri, requests[j].page) && Missed(requests, j)
    && forall i :: j < i < |requests| && requests[i].uri == page.0 ==> !Missed(requests, i)
  }

  /** The page held for a name is the one fetched at its latest kept miss; every
      request for the name since then was a hit. */
  lemma {:induction false} PagesWereFetched(requests: seq<Req>, k: nat)
    requires k < |History([], requests)|
    ensures exists j :: 0 <= j < |requests| && LastFetched(requests, j, History([], requests)[k])
  {
    hide LastFetched, Request;
    var n := |requests| - 1;
    var before, r := requests[..n], requests[n];
    var h, q := History([], before), History([], requests);
    RequestPages(h, r, k);
    if k == |q| - 1 && Find(h, r.uri) == |h| && r.keep {
      FetchedNow(requests);
      assert LastFetched(requests, n, q[k]);
    } else {
      var m :| 0 <= m < |h| && h[m] == q[k];
      PagesWereFetched(before, m);
      var j :| 0 <= j < n && LastFetched(before, j, h[m]);
      FetchedBefore(requests, j, m);
    }
  }

  /** The pages after a request: the one fetched, or one that was there. */
  lemma RequestPages(h: seq<Page>, r: Req, k: nat)
    ensures var q := Request(h, r.uri, r.page, r.keep);
            k < |q| ==> if k == |q| - 1 && Find(h, r.uri) == |h| && r.keep then q[k] == (r.uri, r.page)
                        else exists m :: 0 <= m < |h| && h[m] == q[k]
  {
    if Find(h, r.uri) < |h| { ToEndElements(h, Find(h, r.uri)); }
  }

  lemma FetchedNow(requests: seq<Req>)
    requires requests != [] && Missed(requests, |requests| - 1) && requests[|requests| - 1].keep
    ensures var r := requests[|requests| - 1]; LastFetched(requests, |requests| - 1, (r.uri, r.page))
  {
    hide Missed;
  }

  /** One more request: if it is for the name, it finds the page. */
  lemma FetchedBefore(requests: seq<Req>, j: nat, m: nat)
    requires requests != [] && j < |requests| - 1
    requires var before := requests[..|requests| - 1];
             m < |History([], before)| && LastFetched(before, j, History([], before)[m])
    ensures LastFetched(requests, j, History([], requests[..|requests| - 1])[m])
  {
    hide History;
    var n := |requests| - 1;
    var before := requests[..n];
    forall i | 0 <= i < n ensures Missed(requests, i) == Missed(before, i) {
      assert requests[..i] == before[..i] && requests[i] == before[i];
    }
    hide Missed;
    if requests[n].uri == History([], before)[m].0 { LaterHit(requests, m); }
  }

  lemma LaterHit(requests: seq<Req>, m: nat)
    requires requests != [] && m < |History([], requests[..|requests| - 1])|
    requires requests[|requests| - 1].uri == History([], requests[..|requests| - 1])[m].0
    ensures !Missed(requests, |requests| - 1)
  {
  }

  /** What request k of a run from the empty cache is served: its own page on a
      miss, and on a hit the page fetched at the latest miss for its name that
      was kept, which no request since then has missed. */
  lemma ServedInRuns(requests: seq<Req>, k: nat)
    requires k < |requests|
    ensures Missed(requests, k) ==> ServedAt([], requests, k) == requests[k].page
    ensures !Missed(requests, k) ==>
              exists j :: 0 <= j < k && LastFetched(requests[..k], j, (requests[k].uri, ServedAt([], requests, k)))
  {
    var h := History([], requests[..k]);
    var i := Find(h, requests[k].uri);
    hide History, LastFetched, Find, Served;
    HoldsTheMostRecent(requests[..k]);
    ServedPage(h, requests[k].uri, requests[k].page);
    if i < |h| {
      assert h[i] == (requests[k].uri, h[i].1) && h[i] in h;
      assert ServedAt([], requests, k) == h[i].1;
      PagesWereFetched(requests[..k], i);
      var j :| 0 <= j < k && LastFetched(requests[..k], j, h[i]);
    }
  }
}
