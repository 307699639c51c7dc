/** From a product URL to the retailer whose extractor reads its price.

    The scraper takes the third `/`-separated field of the URL (the host),
    then the second `.`-separated label of that host, and matches the label
    against the closed set of supported retailers. Python's `str.split` with
    an explicit separator is modelled exactly: every occurrence splits, and
    empty fields are kept. Indexing past the last field raises `IndexError`,
    modelled as `None`. */
module Domains {
  import opened Wrappers

  /** Number of occurrences of `c` in `s`. */
  function Occurrences(s: string, c: char): nat
  {
    if s == [] then 0 else (if s[0] == c then 1 else 0) + Occurrences(s[1..], c)
  }

  /** Python's `s.split(sep)` for a one-character separator. */
  function Split(s: string, sep: char): (r: seq<string>)
    ensures |r| == Occurrences(s, sep) + 1
    ensures forall i :: 0 <= i < |r| ==> sep !in r[i]
    ensures forall i, c :: 0 <= i < |r| && c in r[i] ==> c in s
  {
    if s == [] then [[]]
    else
      var rest := Split(s[1..], sep);
      assert forall c :: c in s[1..] ==> c in s;
      if s[0] == sep then [[]] + rest else [[s[0]] + rest[0]] + rest[1..]
  }

  /** Python's `sep.join(fields)`: the inverse of Split. */
  function Join(fields: seq<string>, sep: char): string
  {
    if |fields| <= 1 then (if fields == [] then [] else fields[0])
    else fields[0] + [sep] + Join(fields[1..], sep)
  }

  /** Joining the fields of a split gives back the string. */
  lemma {:induction false} JoinSplit(s: string, sep: char)
    ensures Join(Split(s, sep), sep) == s
  {
    if s != [] {
      JoinSplit(s[1..], sep);
      var rest := Split(s[1..], sep);
      if s[0] == sep {
        assert Split(s, sep) == [[]] + rest;
        assert ([[]] + rest)[1..] == rest;
      } else {
        var r := Split(s, sep);
        assert r == [[s[0]] + rest[0]] + rest[1..];
        if |rest| > 1 {
          assert r[1..] == rest[1..];
          assert Join(rest, sep) == rest[0] + [sep] + Join(rest[1..], sep);
        }
      }
    }
  }

  /** A string without the separator is a single field. */
  lemma {:induction false} SplitWithoutSep(a: string, sep: char)
    requires sep !in a
    ensures Split(a, sep) == [a]
  {
    if a != [] {
      SplitWithoutSep(a[1..], sep);
      assert a == [a[0]] + a[1..];
    }
  }

  /** The first separator ends the first field. */
  lemma {:induction false} SplitAtFirstSep(a: string, sep: char, b: string)
    requires sep !in a
    ensures Split(a + [sep] + b, sep) == [a] + Split(b, sep)
  {
    var s := a + [sep] + b;
    if a == [] {
      assert s[1..] == b;
    } else {
      assert s[1..] == a[1..] + [sep] + b;
      SplitAtFirstSep(a[1..], sep, b);
      assert a == [a[0]] + a[1..];
    }
  }

  /** The field at position `i` of `s.split(sep)`, or None where Python
      raises IndexError. */
  function Field(s: string, sep: char, i: nat): (r: Option<string>)
    ensures r.None? <==> Occurrences(s, sep) < i
    ensures r.Some? ==> sep !in r.value
  {
    var fields := Split(s, sep);
    if i < |fields| then Some(fields[i]) else None
  }

  /** `url.split('/')[2].split('.')[1]` (price_checker.py lines 70-71):
      the second label of the host, or None where Python raises IndexError. */
  function DomainKey(url: string): (r: Option<string>)
    ensures r.None? <==> Occurrences(url, '/') < 2 || Occurrences(Split(url, '/')[2], '.') == 0
    ensures r.Some? ==> '/' !in r.value && '.' !in r.value
  {
    match Field(url, '/', 2)
    case None => None
    case Some(host) => Field(host, '.', 1)
  }

  /** The third `/`-field of `scheme//host<path>` is the host. */
  lemma HostField(scheme: string, host: string, path: string)
    requires '/' !in scheme && '/' !in host
    requires path == [] || path[0] == '/'
    ensures Field(scheme + "//" + host + path, '/', 2) == Some(host)
  {
    var url := scheme + "//" + host + path;
    assert url == scheme + ['/'] + ([] + ['/'] + (host + path));
    SplitAtFirstSep(scheme, '/', [] + ['/'] + (host + path));
    SplitAtFirstSep([], '/', host + path);
    if path == [] {
      assert host + path == host;
      SplitWithoutSep(host, '/');
    } else {
      assert host + path == host + ['/'] + path[1..];
      SplitAtFirstSep(host, '/', path[1..]);
    }
  }

  /** The second `.`-label of `sub.key<suffix>` is `key`. */
  lemma SecondLabel(sub: string, key: string, suffix: string)
    requires '.' !in sub && '.' !in key
    requires suffix == [] || suffix[0] == '.'
    ensures Field(sub + "." + key + suffix, '.', 1) == Some(key)
  {
    assert sub + "." + key + suffix == sub + ['.'] + (key + suffix);
    SplitAtFirstSep(sub, '.', key + suffix);
    if suffix == [] {
      assert key + suffix == key;
      SplitWithoutSep(key, '.');
    } else {
      assert key + suffix == key + ['.'] + suffix[1..];
      SplitAtFirstSep(key, '.', suffix[1..]);
    }
  }

  /** For a URL of the usual shape `scheme//sub.key<suffix><path>` the domain
      key is `key`: the label right after the first dot of the host. */
  lemma DomainKeyOfUrl(scheme: string, sub: string, key: string, suffix: string, path: string)
    requires '/' !in scheme && '/' !in sub && '/' !in key && '/' !in suffix
    requires '.' !in sub && '.' !in key
    requires suffix == [] || suffix[0] == '.'
    requires path == [] || path[0] == '/'
    ensures DomainKey(scheme + "//" + sub + "." + key + suffix + path) == Some(key)
  {
    var host := sub + "." + key + suffix;
    assert '/' !in host;
    assert scheme + "//" + sub + "." + key + suffix + path == scheme + "//" + host + path;
    HostField(scheme, host, path);
    SecondLabel(sub, key, suffix);
  }

  /** The retailers the scraper has an extractor for: a closed set. */
  datatype Retailer = Microcenter | Amazon

  /** The domain key each retailer is recognised by. */
  function KeyOf(r: Retailer): string
  {
    match r
    case Microcenter => "microcenter"
    case Amazon => "amazon"
  }

  /** The `match domain` dispatch of price_checker.py lines 91-98. */
  function RetailerOf(key: string): (r: Option<Retailer>)
    ensures r.Some? <==> key == "microcenter" || key == "amazon"
    ensures r.Some? ==> KeyOf(r.value) == key
    ensures forall t: Retailer :: KeyOf(t) == key ==> r == Some(t)
  {
    if key == "microcenter" then Some(Microcenter)
    else if key == "amazon" then Some(Amazon)
    else None
  }

  /** A host with a `www.` label is dispatched by its second label. */
  lemma RetailerOfUrl(sub: string, r: Retailer, suffix: string, path: string)
    requires '/' !in sub && '.' !in sub && '/' !in suffix
    requires suffix == [] || suffix[0] == '.'
    requires path == [] || path[0] == '/'
    ensures DomainKey("https://" + sub + "." + KeyOf(r) + suffix + path) == Some(KeyOf(r))
    ensures RetailerOf(KeyOf(r)) == Some(r)
  {
    assert "https://" == "https:" + "//";
    DomainKeyOfUrl("https:", sub, KeyOf(r), suffix, path);
  }

  /** Without a subdomain label the key is the top-level domain, so
      `https://amazon.com/...` is not dispatched to the Amazon extractor. */
  lemma BareHostIsUnsupported(r: Retailer, path: string)
    requires path == [] || path[0] == '/'
    ensures DomainKey("https://" + KeyOf(r) + ".com" + path) == Some("com")
    ensures RetailerOf("com") == None
  {
    assert "https://" == "https:" + "//";
    assert "https://" + KeyOf(r) + ".com" + path == "https:" + "//" + KeyOf(r) + "." + "com" + [] + path;
    DomainKeyOfUrl("https:", KeyOf(r), "com", [], path);
  }
}
