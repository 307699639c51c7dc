/** `Product.best_price` and `PCBuild.report_build` (price_checker.py lines
    113-149): the cheapest price of a product over its links, and a build's
    per-part prices and total. Every price comes from `get_pricing`, so each
    step also advances the scraper's state. */
module Build {
  import opened Wrappers
  import opened Prices
  import opened Scraper

  /** One entry of a product's `urls` dict: a retailer label and a URL,
      which may be `None`. */
  datatype Link = Link(site: string, url: Option<string>)

  /** What happened over a list of requests: the prices returned, in order,
      up to the first exception, whether an exception ended the list, and
      the state left behind. */
  datatype Trace = Trace(prices: seq<Price>, failed: bool, state: State)

  /** The running minimum of `best_price`, from `least`, over `links`. */
  function BestOf(s: State, links: seq<Link>, least: Price, w: World): Run<Price>
    decreases |links|
  {
    if links == [] then Run(Ok(least), s)
    else
      var first := Pricing(s, links[0].url, w);
      match first.out
      case IndexError => Run(IndexError, first.state)
      case Ok(p) => BestOf(first.state, links[1..], Pick(least, p), w)
  }

  /** A product: its name and its links, in the dict's insertion order. */
  datatype Product = Product(name: string, links: seq<Link>)
  {
    /** `best_price(driver)`. */
    method BestPrice(driver: PriceScraper) returns (r: Outcome<Price>)
      modifies driver
      ensures Run(r, driver.Snapshot()) == BestOf(old(driver.Snapshot()), links, Inf, driver.world)
    {
      var minPrice := Inf;
      var i := 0;
      while i < |links|
        invariant i <= |links|
        invariant BestOf(driver.Snapshot(), links[i..], minPrice, driver.world)
                  == BestOf(old(driver.Snapshot()), links, Inf, driver.world)
      {
        assert links[i..][0] == links[i] && links[i..][1..] == links[i + 1..];
        var price := driver.GetPricing(name, links[i].url);
        if price.IndexError? {
          return IndexError;
        }
        if Less(price.value, minPrice) {
          minPrice := price.value;
        }
        i := i + 1;
      }
      return Ok(minPrice);
    }
  }

  /** The prices `get_pricing` returns for each link in turn. */
  function PriceLinks(s: State, links: seq<Link>, w: World): (r: Trace)
    ensures |r.prices| <= |links|
    ensures !r.failed ==> |r.prices| == |links|
    ensures r.failed ==> |r.prices| < |links|
    decreases |links|
  {
    if links == [] then Trace([], false, s)
    else
      var first := Pricing(s, links[0].url, w);
      match first.out
      case IndexError => Trace([], true, first.state)
      case Ok(p) =>
        var rest := PriceLinks(first.state, links[1..], w);
        Trace([p] + rest.prices, rest.failed, rest.state)
  }

  /** The least of `least` and the prices `ps` under the float order. */
  function MinOf(least: Price, ps: seq<Price>): (r: Price)
    ensures r == least || r in ps
    ensures !Less(least, r)
    ensures forall i :: 0 <= i < |ps| ==> !Less(ps[i], r)
    decreases |ps|
  {
    if ps == [] then least else MinOf(Pick(least, ps[0]), ps[1..])
  }

  /** best_price is the minimum, from `np.inf`, of the prices get_pricing
      returns for the product's links, and leaves the state those requests
      leave; an exception from any link ends it. */
  lemma {:induction false} BestOfIsMinimum(s: State, links: seq<Link>, least: Price, w: World)
    ensures var t := PriceLinks(s, links, w);
      BestOf(s, links, least, w) ==
        Run(if t.failed then IndexError else Ok(MinOf(least, t.prices)), t.state)
    decreases |links|
  {
    if links != [] {
      var first := Pricing(s, links[0].url, w);
      if first.out.Ok? {
        BestOfIsMinimum(first.state, links[1..], Pick(least, first.out.value), w);
      }
    }
  }

  /** The best price of each part in turn, up to the first exception. */
  function BestPrices(s: State, parts: seq<Product>, w: World): (r: Trace)
    ensures |r.prices| <= |parts|
    ensures !r.failed ==> |r.prices| == |parts|
    decreases |parts|
  {
    if parts == [] then Trace([], false, s)
    else
      var first := BestOf(s, parts[0].links, Inf, w);
      match first.out
      case IndexError => Trace([], true, first.state)
      case Ok(p) =>
        var rest := BestPrices(first.state, parts[1..], w);
        Trace([p] + rest.prices, rest.failed, rest.state)
  }

  /** An exception stops the report loop before the last part. */
  lemma {:induction false} BestPricesStopsEarly(s: State, parts: seq<Product>, w: World)
    ensures BestPrices(s, parts, w).failed ==> |BestPrices(s, parts, w).prices| < |parts|
    decreases |parts|
  {
    if parts != [] {
      var first := BestOf(s, parts[0].links, Inf, w);
      if first.out.Ok? {
        BestPricesStopsEarly(first.state, parts[1..], w);
      }
    }
  }

  function Names(parts: seq<Product>): (r: seq<string>)
    ensures |r| == |parts|
    ensures forall i :: 0 <= i < |parts| ==> r[i] == parts[i].name
  {
    seq(|parts|, i requires 0 <= i < |parts| => parts[i].name)
  }

  /** `self.prices[part.name] = price` for each part in turn. */
  function Record(m: map<string, Price>, names: seq<string>, ps: seq<Price>): (r: map<string, Price>)
    requires |names| == |ps|
    ensures r.Keys == m.Keys + (set n | n in names)
    ensures forall k :: k in m && k !in names ==> r[k] == m[k]
    decreases |names|
  {
    if names == [] then m else Record(m[names[0] := ps[0]], names[1..], ps[1..])
  }

  /** A name keeps the price of the last part that has it. */
  lemma {:induction false} RecordLastWins(m: map<string, Price>, names: seq<string>, ps: seq<Price>, i: nat)
    requires |names| == |ps| && i < |names|
    requires names[i] !in names[i + 1..]
    ensures Record(m, names, ps)[names[i]] == ps[i]
    decreases i
  {
    if i > 0 {
      assert names[1..][i - 1] == names[i] && names[1..][i..] == names[i + 1..];
      RecordLastWins(m[names[0] := ps[0]], names[1..], ps[1..], i - 1);
    }
  }

  /** The running total of report_build from `acc`: each price adds
      `price if price < np.inf else 0`. */
  function SumFrom(acc: Price, ps: seq<Price>): Price
    decreases |ps|
  {
    if ps == [] then acc else SumFrom(Plus(acc, Counted(ps[0])), ps[1..])
  }

  /** How many of the prices are the `sys.float_info.max` sentinel. */
  function CountFloatMax(ps: seq<Price>): nat
  {
    if ps == [] then 0 else (if ps[0] == FloatMax then 1 else 0) + CountFloatMax(ps[1..])
  }

  /** The sum of the finite amounts among the prices. */
  function FiniteCents(ps: seq<Price>): nat
  {
    if ps == [] then 0 else (if ps[0].Finite? then ps[0].cents else 0) + FiniteCents(ps[1..])
  }

  /** The total skips `np.inf` but not `sys.float_info.max`: with no
      FloatMax price it is the exact sum of the amounts, with one it is
      FloatMax, and with two or more it overflows to infinity. */
  lemma {:induction false} SumFromClosedForm(acc: Price, ps: seq<Price>)
    ensures var n := Rank(acc) + CountFloatMax(ps);
      && (n == 0 ==> SumFrom(acc, ps) == Finite(acc.cents + FiniteCents(ps)))
      && (n == 1 ==> SumFrom(acc, ps) == FloatMax)
      && (n >= 2 ==> SumFrom(acc, ps) == Inf)
    decreases |ps|
  {
    if ps != [] {
      SumFromClosedForm(Plus(acc, Counted(ps[0])), ps[1..]);
    }
  }

  /** What report_build leaves: the total it computed (or the exception
      that ended it), the `prices` map, and the scraper's state. */
  datatype ReportRun = ReportRun(out: Outcome<Price>, prices: map<string, Price>, state: State)

  /** The loop of report_build over `parts`, from map `m` and total `acc`. */
  function ReportFrom(s: State, parts: seq<Product>, m: map<string, Price>, acc: Price, w: World): ReportRun
    decreases |parts|
  {
    if parts == [] then ReportRun(Ok(acc), m, s)
    else
      var b := BestOf(s, parts[0].links, Inf, w);
      match b.out
      case IndexError => ReportRun(IndexError, m, b.state)
      case Ok(p) => ReportFrom(b.state, parts[1..], m[parts[0].name := p], Plus(acc, Counted(p)), w)
  }

  /** report_build stores each part's best price under its name and totals
      those prices; an exception keeps the prices stored so far. */
  lemma {:induction false} ReportIsRecordAndSum(s: State, parts: seq<Product>, m: map<string, Price>, acc: Price, w: World)
    ensures var t := BestPrices(s, parts, w);
      ReportFrom(s, parts, m, acc, w) ==
        ReportRun(if t.failed then IndexError else Ok(SumFrom(acc, t.prices)),
                  Record(m, Names(parts)[..|t.prices|], t.prices),
                  t.state)
    decreases |parts|
  {
    if parts != [] {
      var b := BestOf(s, parts[0].links, Inf, w);
      if b.out.Ok? {
        var p := b.out.value;
        var m', acc' := m[parts[0].name := p], Plus(acc, Counted(p));
        ReportIsRecordAndSum(b.state, parts[1..], m', acc', w);
        var t := BestPrices(b.state, parts[1..], w);
        var k := |t.prices|;
        var all := BestPrices(s, parts, w);
        assert all == Trace([p] + t.prices, t.failed, t.state);
        assert ([p] + t.prices)[1..] == t.prices;
        assert SumFrom(acc, all.prices) == SumFrom(acc', t.prices);
        var names := Names(parts)[..1 + k];
        assert names[0] == parts[0].name;
        assert names[1..] == Names(parts[1..])[..k];
        assert Record(m, names, all.prices) == Record(m', Names(parts[1..])[..k], t.prices);
      }
    }
  }

  /** A build: a name and its parts. */
  class PCBuild {
    const name: string
    const parts: seq<Product>
    var prices: map<string, Price>

    constructor (name: string, parts: seq<Product>)
      ensures this.name == name && this.parts == parts && prices == map[]
    {
      this.name, this.parts := name, parts;
      prices := map[];
    }

    /** `report_build(driver, report_file)`: returns the total that goes to
        the report's "Total" row. */
    method ReportBuild(driver: PriceScraper) returns (total: Outcome<Price>)
      modifies this, driver
      ensures ReportRun(total, prices, driver.Snapshot())
              == ReportFrom(old(driver.Snapshot()), parts, old(prices), Finite(0), driver.world)
    {
      var sum := Finite(0);
      var i := 0;
      while i < |parts|
        invariant i <= |parts|
        invariant ReportFrom(driver.Snapshot(), parts[i..], prices, sum, driver.world)
                  == ReportFrom(old(driver.Snapshot()), parts, old(prices), Finite(0), driver.world)
      {
        assert parts[i..][0] == parts[i] && parts[i..][1..] == parts[i + 1..];
        var price := parts[i].BestPrice(driver);
        if price.IndexError? {
          return IndexError;
        }
        prices := prices[parts[i].name := price.value];
        sum := Plus(sum, Counted(price.value));
        i := i + 1;
      }
      return Ok(sum);
    }
  }
}
