# PC part price checker: the price cache, retailer dispatch and build totals

A Dafny model of the logic in `price_checker.py` of a small PC-part price
scraper. The scraper looks up a product URL in a local `prices` table. If the
row is at most 86400 seconds old it returns the stored price. Otherwise it
picks a retailer by the URL's domain, scrapes the page and writes the price
back. A stale row is updated in place; a missing row is inserted. On top of
this, a product's best price is the minimum over its links, and a build
report stores each part's best price and totals them.

Files (one module each):

- `Wrappers.dfy`: `Option`, which stands for Python's `None` and for SQL `fetchone()` results.
- `Prices.dfy`: prices as `Finite(cents) | FloatMax | Inf`, in the order of the floats they stand for. `FloatMax` is `sys.float_info.max` and `Inf` is `np.inf`. The module also gives Python's `<` and float `+` on these values.
- `Domains.dfy`: Python's `str.split`, the domain key `url.split('/')[2].split('.')[1]`, and the closed retailer dispatch.
- `Cache.dfy`: the `prices` table as a sequence of `(url, price, time)` rows, with `SELECT … fetchone()`, `UPDATE` and `INSERT`.
- `Scraper.dfy`: `get_pricing`. `Pricing` is a function on the scraper's state. The `PriceScraper` class has the table, the page-load log and the clock counter as fields, and its `GetPricing` method is proved equal to `Pricing`.
- `Build.dfy`: `Product.best_price` and `PCBuild.report_build`. Each is a loop method proved equal to a fold function, and each fold is related by a lemma to an independent definition: the minimum of the returned prices, and the map and sum of the best prices.

The outside world is passed in as parameters:
- The clock is a function from the index of a `SELECT CURRENT_TIMESTAMP` read to integer seconds. A request reads the clock once before deciding freshness (line 79) and, when it fetches, once more before storing (line 103).
- Page contents are a function from (retailer, URL, index of the page load) to the price the extractor finds. This includes `Inf` when the element is missing.
- A URL with too few `/` fields, or a host with no `.`, makes Python raise `IndexError` at lines 70-71. Nothing catches it. It is modelled as `Outcome.IndexError`, and `best_price` and `report_build` propagate it.

Where the documentation and the code disagree, the model follows the code:
- The docstring of `get_pricing` (lines 64-65) says an unsupported site gives `np.inf`. The code returns `sys.float_info.max` (line 98).
- Only `np.inf` is skipped in the build total (line 144). So `FloatMax` is not counted as 0. One such price makes the total `FloatMax`, and two overflow it to `Inf` (`Build.SumFromClosedForm`).
- The write-back is meant to cache failed extractions (`Inf`) and unsupported domains (`FloatMax`) like real prices, so a repeat request inside the window returns them without retrying (`Scraper.SecondRequestIsCached`, `Scraper.UnsupportedDomainIsCached`). This rests on the assumption, stated under "## Left out", that the message lines after the `UPDATE`/`INSERT` complete; as written, `.round` raises there and the write is rolled back.
- The stored time of a URL never decreases if the clock's two reads within one request are ordered (`Scraper.CheckedAtAdvances`). The code does not enforce this ordering.

## Model

| member | source | states |
|---|---|---|
| `Prices.LessIsStrictTotalOrder` | price_checker.py:124 | `Less`, the model of the `<` of lines 124 and 144, is irreflexive, asymmetric, transitive and total, with every amount < `FloatMax` < `Inf`. |
| `Prices.Pick` | price_checker.py:124-125 | One minimum step returns the old minimum or the new price, and neither is below it. |
| `Prices.Counted` | price_checker.py:144 | A price adds itself to the total unless it is `Inf`, which adds 0. The result is never `Inf`. |
| `Prices.Plus` | price_checker.py:144 | Float addition: finite exactly when both operands are finite, then the sum of the cents; never below either operand. |
| `Domains.Split` | price_checker.py:70-71 | `s.split(sep)` has one more field than `s` has separators. No field contains the separator, and every character of a field occurs in `s`. |
| `Domains.JoinSplit` | price_checker.py:70-71 | Joining the fields with the separator gives back the string. |
| `Domains.SplitWithoutSep` | price_checker.py:70-71 | A string without the separator splits into itself alone. |
| `Domains.SplitAtFirstSep` | price_checker.py:70-71 | The first separator ends the first field; the rest splits independently. |
| `Domains.Field` | price_checker.py:70-71 | Indexing field `i` fails (IndexError) exactly when there are fewer than `i` separators; a field has no separator. |
| `Domains.DomainKey` | price_checker.py:70-71 | IndexError (None) exactly when the URL has fewer than two `/` or its host has no `.`; a key contains neither `/` nor `.`. |
| `Domains.HostField` | price_checker.py:70 | The third `/`-field of `scheme//host/path` is the host. |
| `Domains.SecondLabel` | price_checker.py:71 | The second `.`-label of `sub.key.suffix` is `key`. |
| `Domains.DomainKeyOfUrl` | price_checker.py:70-71 | A URL `scheme//sub.key<suffix><path>` has domain key `key`. |
| `Domains.RetailerOf` | price_checker.py:91-98 | Only `microcenter` and `amazon` dispatch, each to its own retailer; every other key gets no extractor. |
| `Domains.RetailerOfUrl` | price_checker.py:70-71 | `https://www.<retailer>.com/...` URLs dispatch to that retailer. |
| `Domains.BareHostIsUnsupported` | price_checker.py:70-71 | `https://amazon.com/...` has key `com`, so it has no extractor. |
| `Cache.RowsOf` | price_checker.py:75-78 | The rows selected for a URL all have that URL and all come from the table. |
| `Cache.RowsOfComplete` | price_checker.py:75-78 | Every row of the table for the URL is among the selected rows. |
| `Cache.RowsOfAppend` | price_checker.py:108 | Selecting from a concatenation selects from each part, in order. |
| `Cache.Lookup` | price_checker.py:75-78 | `fetchone()` gives the first row for the URL. It gives None exactly when no row has that URL. |
| `Cache.UpdateRows` | price_checker.py:105 | `UPDATE` rewrites every row of the URL and no other row. Row count and order are kept, and other URLs' rows are unchanged. |
| `Cache.InsertRows` | price_checker.py:108 | `INSERT` adds exactly the new row to its URL's rows and changes no other URL's rows. |
| `Cache.LookupAfterInsert` | price_checker.py:107-108 | After inserting for a URL that had no row, lookup finds the new row, and it is the only one. |
| `Cache.LookupAfterUpdate` | price_checker.py:104-105 | After updating a URL that had a row, lookup finds the new price and time. |
| `Cache.InsertKeepsUnique` | price_checker.py:81-88 | Inserting only when the lookup found nothing keeps at most one row per URL. |
| `Cache.UpdateKeepsUnique` | price_checker.py:104-105 | Updating in place keeps at most one row per URL. |
| `Scraper.Pricing` | price_checker.py:63-111 | Four cases; freshness is `IsFresh`, `now - time <= 86400` as on line 85. A `None` URL gives `Inf` and changes nothing. A malformed URL raises and changes nothing. A fresh row returns its stored price with no page load and no table change. Otherwise the dispatched extractor's price, or `FloatMax`, is returned and stored at the second clock read: the stale row is updated in place, or one row is appended. |
| `Scraper.PricingFrame` | price_checker.py:75-108 | Rows of other URLs are untouched; a request that does not fetch leaves the table unchanged. |
| `Scraper.PricingStoresRow` | price_checker.py:88-108 | After a fetch, lookup finds `(url, price, second clock read)`. A stale URL keeps its row count; a new URL has exactly one row. |
| `Scraper.PricingKeepsUnique` | price_checker.py:75-108 | At most one row per URL before `get_pricing` means at most one after. |
| `Scraper.CheckedAtAdvances` | price_checker.py:79-105 | With ordered clock reads, a URL's stored time never decreases, and a refresh moves it past the old freshness window. |
| `Scraper.SecondRequestIsCached` | price_checker.py:81-110 | A repeat request inside the window returns the price just fetched, sentinels included, with no page load and no table change. |
| `Scraper.UnsupportedDomainIsCached` | price_checker.py:96-110 | An unsupported domain gets `FloatMax` with no page load, and `FloatMax` is written to the cache. |
| `Scraper.PriceScraper.constructor` | price_checker.py:18-26 | The session starts with the rows already in the database, no page loads and no clock reads. |
| `Scraper.PriceScraper.CurrentTimestamp` | price_checker.py:79 | Each clock read returns the next time of the clock and advances the read counter. |
| `Scraper.PriceScraper.GetMicrocenterPrice` | price_checker.py:28-42 | Loads the page once and returns what the extractor finds there. |
| `Scraper.PriceScraper.GetAmazonPrice` | price_checker.py:44-61 | `None` gives `Inf` with no page load; otherwise loads the page once and returns what the extractor finds. |
| `Scraper.PriceScraper.GetPricing` | price_checker.py:63-111 | The imperative lookup / freshness / dispatch / update-or-insert sequence returns and leaves exactly what `Pricing` says. |
| `Build.Product.BestPrice` | price_checker.py:119-127 | The loop over the links returns, and leaves the scraper in, what the running-minimum fold says, starting at `Inf`. |
| `Build.PriceLinks` | price_checker.py:122-123 | One price per link on success, strictly fewer when an exception stops the loop. |
| `Build.MinOf` | price_checker.py:121-125 | The result is the start value or one of the prices, and no price (nor the start) is below it. |
| `Build.BestOfIsMinimum` | price_checker.py:119-127 | `BestOf`, the running-minimum fold of lines 121-125, equals the following: `best_price` is the minimum, from `Inf`, of the prices `get_pricing` returns for the links in order. It is `Inf` for no links, and any exception propagates. |
| `Build.BestPrices` | price_checker.py:141-142 | One best price per part on success, at most one per part otherwise. |
| `Build.BestPricesStopsEarly` | price_checker.py:141-142 | An exception stops the loop with strictly fewer best prices than parts. |
| `Build.Record` | price_checker.py:143 | The map's keys are the old keys plus the part names; keys not among the names keep their prices. |
| `Build.RecordLastWins` | price_checker.py:141-143 | A part name maps to the best price of the last part with that name. |
| `Build.SumFromClosedForm` | price_checker.py:140-144 | Closed form of `SumFrom`, the running total of line 144. With no `FloatMax` the total is the exact sum of the amounts (`Inf` adds 0). One `FloatMax` makes the total `FloatMax`; two or more make it `Inf`. |
| `Build.ReportIsRecordAndSum` | price_checker.py:136-144 | `ReportFrom`, the fold of the loop of lines 140-144, equals the following: `report_build` stores the parts' best prices under their names and totals them with `Counted`. An exception keeps the prices stored so far. |
| `Build.PCBuild.constructor` | price_checker.py:131-134 | A build starts with its name, its parts and an empty price map. |
| `Build.PCBuild.ReportBuild` | price_checker.py:136-148 | The loop over the parts leaves the price map and scraper state, and returns the `Total` value, that the report fold says. |

## Left out

- Browser automation is not modelled: driver setup, page loads and the 10-second `WebDriverWait` with its printed timeout (lines 18-22, 30-37, 48-56). Each extractor is the world's page function.
- Parsing scraped text with `float(...)` (lines 42, 61) is not modelled. Prices are whole cents, so negative, NaN and sub-cent values do not occur.
- The SQLite connection, `CREATE TABLE` and commits (lines 23-26, 110) are not modelled. SQL has no row order without `ORDER BY`; the model takes insertion order.
- pandas datetime parsing (lines 83-84) is not modelled. Timestamps are integer seconds in one zone.
- Messages, `warnings.warn` and `.round(2)` (lines 86, 97, 106, 109) are not modelled. In Python, `.round` is not a float method, so lines 106 and 109 would raise after the `UPDATE`/`INSERT`, and the `with` block would roll the write back. The model assumes these message lines complete.
- `Prices.Plus`: finite amounts add exactly. Float rounding and overflow of large finite sums are not modelled. `FloatMax` + amount = `FloatMax` assumes the amount is below 2^970, as every real price is.
- The extractor's result depends only on the retailer, the URL and the index of the page load. It does not model page state beyond that.
- `Build.PCBuild.ReportBuild`: writing the DataFrame/CSV (lines 145-149) is not modelled. The method returns the value of the `Total` row instead.
- The hardcoded build in `main` (lines 152-189) and `test_scraper.py` are not modelled. The tests drive a live browser against live pages and contain no logic of their own.
