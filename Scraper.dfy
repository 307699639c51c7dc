/** `PriceScraper`: the browser session together with the price cache.

    `get_pricing` (price_checker.py lines 63-111) answers a request for a URL
    from the cache when the row is at most 86400 seconds old, and otherwise
    runs the retailer's extractor and writes the result back, updating the
    row in place when one existed and inserting one when none did.

    The browser, the clock and the database are modelled on values:
    - the scraper's state is the `prices` table, the list of pages the
      browser has loaded, and the number of `SELECT CURRENT_TIMESTAMP`
      reads made so far;
    - the world gives the time returned by the n-th clock read, and the
      price an extractor finds on the n-th page load. */
module Scraper {
  import opened Wrappers
  import opened Prices
  import opened Domains
  import opened Cache

  /** The result of a call, or the `IndexError` that `url.split(...)[i]`
      raises on a URL with too few fields; nothing in the program catches
      it, so it propagates to every caller. */
  datatype Outcome<+T> = Ok(value: T) | IndexError

  datatype State = State(table: seq<Row>, visits: seq<string>, tick: nat)

  datatype World = World(clock: nat -> int, page: (Retailer, string, nat) -> Price)

  /** What a call returns together with the state it leaves. */
  datatype Run<+T> = Run(out: Outcome<T>, state: State)

  /** How old, in seconds, a cached price may be and still be used. */
  const FreshWindow: int := 86400

  predicate IsFresh(row: Row, now: int)
  {
    now - row.time <= FreshWindow
  }

  /** The request is answered from the cache: the URL is well formed, has a
      row, and that row is fresh at the first clock read. */
  predicate Hits(s: State, url: Option<string>, w: World)
  {
    && url.Some?
    && DomainKey(url.value).Some?
    && Lookup(s.table, url.value).Some?
    && IsFresh(Lookup(s.table, url.value).value, w.clock(s.tick))
  }

  /** The request goes to the extractor: the URL is well formed and has no
      fresh row. */
  predicate Fetches(s: State, url: Option<string>, w: World)
  {
    url.Some? && DomainKey(url.value).Some? && !Hits(s, url, w)
  }

  /** The price a fetching request obtains: the page of the dispatched
      retailer, or the `sys.float_info.max` sentinel for any other domain. */
  function FetchedPrice(s: State, u: string, w: World): Price
    requires DomainKey(u).Some?
  {
    match RetailerOf(DomainKey(u).value)
    case Some(retailer) => w.page(retailer, u, |s.visits|)
    case None => FloatMax
  }

  /** `get_pricing(name, url)` on state `s`. */
  function Pricing(s: State, url: Option<string>, w: World): (r: Run<Price>)
    ensures url.None? ==> r == Run(Ok(Inf), s)
    ensures url.Some? && DomainKey(url.value).None? ==> r == Run(IndexError, s)
    ensures Hits(s, url, w) ==>
      r == Run(Ok(Lookup(s.table, url.value).value.price), s.(tick := s.tick + 1))
    ensures Fetches(s, url, w) ==>
      && r.out == Ok(FetchedPrice(s, url.value, w))
      && r.state.tick == s.tick + 2
      && r.state.visits ==
           (if RetailerOf(DomainKey(url.value).value).Some? then s.visits + [url.value] else s.visits)
    ensures Fetches(s, url, w) && Lookup(s.table, url.value).Some? ==>
      r.state.table == UpdateRows(s.table, url.value, r.out.value, w.clock(s.tick + 1))
    ensures Fetches(s, url, w) && Lookup(s.table, url.value).None? ==>
      r.state.table == s.table + [Row(url.value, r.out.value, w.clock(s.tick + 1))]
  {
    if url.None? then Run(Ok(Inf), s)
    else
      var u := url.value;
      match DomainKey(u)
      case None => Run(IndexError, s)
      case Some(key) =>
        var now := w.clock(s.tick);
        var cached := Lookup(s.table, u);
        if cached.Some? && IsFresh(cached.value, now) then
          Run(Ok(cached.value.price), s.(tick := s.tick + 1))
        else
          var retailer := RetailerOf(key);
          var price := if retailer.Some? then w.page(retailer.value, u, |s.visits|) else FloatMax;
          var visits := if retailer.Some? then s.visits + [u] else s.visits;
          var stamp := w.clock(s.tick + 1);
          var table :=
            if cached.Some? then UpdateRows(s.table, u, price, stamp)
            else s.table + [Row(u, price, stamp)];
          Run(Ok(price), State(table, visits, s.tick + 2))
  }

  /** Rows of every URL other than the requested one are untouched, and a
      request that does not fetch leaves the table as it was. */
  lemma PricingFrame(s: State, url: Option<string>, w: World)
    ensures !Fetches(s, url, w) ==> Pricing(s, url, w).state.table == s.table
    ensures url.Some? ==> forall v :: v != url.value ==>
      RowsOf(Pricing(s, url, w).state.table, v) == RowsOf(s.table, v)
  {
    if Fetches(s, url, w) && Lookup(s.table, url.value).None? {
      var r := Pricing(s, url, w);
      var row := Row(url.value, r.out.value, w.clock(s.tick + 1));
      assert r.state.table == s.table + [row];
      InsertRows(s.table, row);
    }
  }

  /** A fetching request leaves exactly one up-to-date row visible for its
      URL: a stale URL keeps its number of rows, all overwritten with the new
      price and time, and a new URL gets exactly one row. */
  lemma PricingStoresRow(s: State, url: Option<string>, w: World)
    requires Fetches(s, url, w)
    ensures var r := Pricing(s, url, w);
      && Lookup(r.state.table, url.value) == Some(Row(url.value, r.out.value, w.clock(s.tick + 1)))
      && |RowsOf(r.state.table, url.value)| ==
           if Lookup(s.table, url.value).Some? then |RowsOf(s.table, url.value)| else 1
  {
    var u := url.value;
    var r := Pricing(s, url, w);
    var row := Row(u, r.out.value, w.clock(s.tick + 1));
    if Lookup(s.table, u).None? {
      assert r.state.table == s.table + [row];
      LookupAfterInsert(s.table, row);
    } else {
      assert r.state.table == UpdateRows(s.table, u, row.price, row.time);
      LookupAfterUpdate(s.table, u, row.price, row.time);
    }
  }

  /** get_pricing keeps the table at most one row per URL: it inserts only
      when the lookup found nothing. */
  lemma PricingKeepsUnique(s: State, url: Option<string>, w: World)
    requires Unique(s.table)
    ensures Unique(Pricing(s, url, w).state.table)
  {
    if Fetches(s, url, w) {
      var r := Pricing(s, url, w);
      var stamp := w.clock(s.tick + 1);
      if Lookup(s.table, url.value).None? {
        InsertKeepsUnique(s.table, Row(url.value, r.out.value, stamp));
      } else {
        UpdateKeepsUnique(s.table, url.value, r.out.value, stamp);
      }
    }
  }

  /** The stored time of a URL never goes back when the two clock reads of
      one request are ordered; a refresh moves it past the end of the old
      freshness window. */
  lemma CheckedAtAdvances(s: State, url: Option<string>, w: World)
    requires w.clock(s.tick) <= w.clock(s.tick + 1)
    requires url.Some? && Lookup(s.table, url.value).Some?
    ensures Lookup(Pricing(s, url, w).state.table, url.value).Some?
    ensures Lookup(Pricing(s, url, w).state.table, url.value).value.time
              >= Lookup(s.table, url.value).value.time
    ensures Fetches(s, url, w) ==>
      Lookup(Pricing(s, url, w).state.table, url.value).value.time
        > Lookup(s.table, url.value).value.time + FreshWindow
  {
    if Fetches(s, url, w) {
      PricingStoresRow(s, url, w);
    }
  }

  /** Whatever a fetching request obtained, the sentinels included, is
      returned by the next request for the same URL within the freshness
      window, with no page load and no change to the table. */
  lemma SecondRequestIsCached(s: State, url: Option<string>, w: World)
    requires Fetches(s, url, w)
    requires w.clock(Pricing(s, url, w).state.tick) - w.clock(s.tick + 1) <= FreshWindow
    ensures var s1 := Pricing(s, url, w).state;
      Pricing(s1, url, w) == Run(Pricing(s, url, w).out, s1.(tick := s1.tick + 1))
  {
    PricingStoresRow(s, url, w);
  }

  /** A URL whose domain key names no supported retailer gets the
      `sys.float_info.max` sentinel without a page load, and the sentinel is
      stored in the cache like any price. */
  lemma UnsupportedDomainIsCached(s: State, url: Option<string>, w: World)
    requires Fetches(s, url, w) && RetailerOf(DomainKey(url.value).value).None?
    ensures var r := Pricing(s, url, w);
      && r.out == Ok(FloatMax)
      && r.state.visits == s.visits
      && Lookup(r.state.table, url.value) == Some(Row(url.value, FloatMax, w.clock(s.tick + 1)))
  {
    PricingStoresRow(s, url, w);
  }

  /** The scraper object: a browser session and an open connection to
      `pc_parts.db`. */
  class PriceScraper {
    const world: World
    var table: seq<Row>
    var visits: seq<string>
    var tick: nat

    function Snapshot(): State
      reads this
    {
      State(table, visits, tick)
    }

    /** `PriceScraper()`: the `prices` table is created if it does not
        exist, so it starts with whatever rows earlier runs stored. */
    constructor (world: World, stored: seq<Row>)
      ensures this.world == world && Snapshot() == State(stored, [], 0)
    {
      this.world := world;
      table, visits, tick := stored, [], 0;
    }

    /** `SELECT CURRENT_TIMESTAMP`. */
    method CurrentTimestamp() returns (now: int)
      modifies this`tick
      ensures now == world.clock(old(tick)) && tick == old(tick) + 1
    {
      now := world.clock(tick);
      tick := tick + 1;
    }

    /** `get_microcenter_price(url)`: loads the page and reads its price. */
    method GetMicrocenterPrice(url: string) returns (price: Price)
      modifies this`visits
      ensures price == world.page(Microcenter, url, |old(visits)|)
      ensures visits == old(visits) + [url]
    {
      price := world.page(Microcenter, url, |visits|);
      visits := visits + [url];
    }

    /** `get_amazon_price(url)`: `np.inf` for no URL, else loads the page and
        reads its price. */
    method GetAmazonPrice(url: Option<string>) returns (price: Price)
      modifies this`visits
      ensures url.None? ==> price == Inf && visits == old(visits)
      ensures url.Some? ==>
        price == world.page(Amazon, url.value, |old(visits)|) && visits == old(visits) + [url.value]
    {
      if url.None? {
        return Inf;
      }
      price := world.page(Amazon, url.value, |visits|);
      visits := visits + [url.value];
    }

    /** `get_pricing(name, url)`; `name` only appears in messages. */
    method GetPricing(name: string, url: Option<string>) returns (r: Outcome<Price>)
      modifies this
      ensures Run(r, Snapshot()) == Pricing(old(Snapshot()), url, world)
    {
      if url.None? {
        return Ok(Inf);
      }
      var key := DomainKey(url.value);
      if key.None? {
        return IndexError;
      }
      ghost var s0 := Snapshot();
      var outdated := false;
      var cached := Lookup(table, url.value);
      var now := CurrentTimestamp();
      if cached.Some? {
        if IsFresh(cached.value, now) {
          assert Hits(s0, url, world);
          return Ok(cached.value.price);
        }
        outdated := true;
      }
      assert Fetches(s0, url, world);
      var price: Price;
      match RetailerOf(key.value) {
        case Some(Microcenter) =>
          price := GetMicrocenterPrice(url.value);
        case Some(Amazon) =>
          price := GetAmazonPrice(url);
        case None =>
          price := FloatMax;
      }
      var stamp := CurrentTimestamp();
      if outdated {
        table := UpdateRows(table, url.value, price, stamp);
      } else {
        table := table + [Row(url.value, price, stamp)];
      }
      return Ok(price);
    }
  }
}
