/**
 * The crawl engine as the source runs it: a `Parser` object that owns one
 * domain's visited set, the caller's frontier list that `ParsePage` appends
 * to in place, and the crawler that drains the frontier front first.
 */
module Crawler {
  import opened Wrappers
  import opened UrlUtils
  import opened PageLinks
  import opened CrawlSpec

  /** A mutable list of URLs, shared by reference between the crawl loop and the parser. */
  class UrlList {
    var items: seq<Url>

    constructor (init: seq<Url>)
      ensures items == init
    {
      items := init;
    }

    /** Adds `u` at the back. */
    method Append(u: Url)
      modifies this
      ensures items == old(items) + [u]
    {
      items := items + [u];
    }

    /** Removes and returns the front element. */
    method PopFront() returns (u: Url)
      requires items != []
      modifies this
      ensures u == old(items)[0] && items == old(items)[1..]
    {
      u := items[0];
      items := items[1..];
    }
  }

  /** Scans fetched pages of one domain; remembers every URL it has accepted. */
  class Parser {
    const baseUrl: Url
    const lib: UrlLib
    var visitedUrls: set<Url>

    /** A parser for the domain rooted at `baseUrl`; the root itself is not marked visited. */
    constructor (baseUrl: Url, lib: UrlLib)
      ensures this.baseUrl == baseUrl && this.lib == lib && visitedUrls == {}
    {
      this.baseUrl := baseUrl;
      this.lib := lib;
      visitedUrls := {};
    }

    /**
     * Processes the anchor hrefs of one page in document order: each one is
     * resolved against the domain root; if the result is neither visited nor
     * on another domain, it is marked visited and either returned as a
     * product URL or appended to `urlsToVisit`.
     */
    method ParsePage(hrefs: seq<Href>, urlsToVisit: UrlList) returns (productUrls: set<Url>)
      modifies this, urlsToVisit
      ensures var scan := ScanLinks(lib, baseUrl, old(visitedUrls), hrefs);
        visitedUrls == scan.visited &&
        urlsToVisit.items == old(urlsToVisit.items) + scan.enqueued &&
        productUrls == scan.products
    {
      productUrls := {};
      for i := 0 to |hrefs|
        invariant var scan := ScanLinks(lib, baseUrl, old(visitedUrls), hrefs[..i]);
          visitedUrls == scan.visited &&
          urlsToVisit.items == old(urlsToVisit.items) + scan.enqueued &&
          productUrls == scan.products
      {
        assert hrefs[..i + 1][..i] == hrefs[..i];
        var href := lib.resolve(baseUrl, hrefs[i]);
        if href !in visitedUrls && IsSameDomain(lib, baseUrl, href) {
          visitedUrls := visitedUrls + {href};
          if IsProductUrl(href, ProductPatterns) {
            productUrls := productUrls + {href};
          } else {
            urlsToVisit.Append(href);
          }
        }
      }
      assert hrefs[..|hrefs|] == hrefs;
    }
  }

  /** Crawls each of a list of domains for product URLs. */
  class ProductUrlCrawler {
    const domains: seq<Url>
    const lib: UrlLib
    // what fetching and parsing each URL yields
    const web: Web

    constructor (domains: seq<Url>, lib: UrlLib, web: Web)
      ensures this.domains == domains && this.lib == lib && this.web == web
    {
      this.domains := domains;
      this.lib := lib;
      this.web := web;
    }

    /**
     * Breadth-first crawl of one domain: pop the front URL, fetch it, and on
     * content let the parser extend the frontier and collect product URLs;
     * stop when the frontier is empty.
     */
    method CrawlDomain(domain: Url) returns (discoveredProductUrls: set<Url>)
      ensures discoveredProductUrls == CrawlResult(lib, web, domain)
      ensures forall u | u in discoveredProductUrls ::
        IsProductUrl(u, ProductPatterns) && IsSameDomain(lib, domain, u)
    {
      var urlsToVisit := new UrlList([domain]);
      discoveredProductUrls := {};
      var parser := new Parser(domain, lib);
      ghost var fetched: seq<Url> := [];
      ghost var final := Run(lib, web, domain, Init(domain));
      while urlsToVisit.items != []
        invariant parser.baseUrl == domain && parser.lib == lib
        invariant Run(lib, web, domain,
          CrawlState(urlsToVisit.items, parser.visitedUrls, discoveredProductUrls, fetched)) == final
        decreases |Universe(lib, web, domain) - parser.visitedUrls|, |urlsToVisit.items|
      {
        ghost var s := CrawlState(urlsToVisit.items, parser.visitedUrls, discoveredProductUrls, fetched);
        StepProgress(lib, web, domain, s);
        var currentUrl := urlsToVisit.PopFront();
        var htmlContent := Fetch(web, currentUrl);
        if htmlContent.Some? {
          var productUrls := parser.ParsePage(htmlContent.value, urlsToVisit);
          discoveredProductUrls := discoveredProductUrls + productUrls;
        }
        fetched := fetched + [currentUrl];
        assert CrawlState(urlsToVisit.items, parser.visitedUrls, discoveredProductUrls, fetched)
          == Step(lib, web, domain, s);
      }
      CrawlResultSound(lib, web, domain);
    }

    /**
     * Crawls every domain, each with its own frontier and visited set, and
     * maps each domain to its product URLs.
     */
    method StartCrawling() returns (results: map<Url, set<Url>>)
      ensures results.Keys == Elems(domains)
      ensures forall d | d in results :: results[d] == CrawlResult(lib, web, d)
    {
      var crawled: seq<set<Url>> := [];
      for i := 0 to |domains|
        invariant |crawled| == i
        invariant forall k | 0 <= k < i :: crawled[k] == CrawlResult(lib, web, domains[k])
      {
        var r := CrawlDomain(domains[i]);
        crawled := crawled + [r];
      }
      results := Zip(domains, crawled);
    }
  }

  /**
   * The domain-to-result mapping built from two parallel lists; when a
   * domain occurs twice, its last result wins, as in a dict comprehension.
   */
  function Zip(domains: seq<Url>, results: seq<set<Url>>): (m: map<Url, set<Url>>)
    requires |domains| == |results|
    ensures m.Keys == Elems(domains)
    ensures forall d | d in m :: exists i :: 0 <= i < |domains| && domains[i] == d && m[d] == results[i]
    decreases |domains|
  {
    if domains == [] then
      map[]
    else
      var n := |domains| - 1;
      var m := Zip(domains[..n], results[..n]);
      assert Elems(domains) == Elems(domains[..n]) + {domains[n]} by {
        assert domains == domains[..n] + [domains[n]];
      }
      forall d | d in m && d != domains[n]
        ensures exists i :: 0 <= i < |domains| && domains[i] == d && m[d] == results[i]
      {
        var i :| 0 <= i < n && domains[..n][i] == d && m[d] == results[..n][i];
        assert domains[i] == d && results[i] == m[d];
      }
      m[domains[n] := results[n]]
  }

  /** The entry of each domain is the result at its last occurrence, as in a dict comprehension. */
  lemma {:induction false} ZipLastWins(domains: seq<Url>, results: seq<set<Url>>, i: nat)
    requires |domains| == |results| && i < |domains| && domains[i] !in domains[i + 1..]
    ensures Zip(domains, results)[domains[i]] == results[i]
    decreases |domains|
  {
    var n := |domains| - 1;
    if i < n {
      assert domains[i + 1..][n - i - 1] == domains[n];
      assert domains[..n][i + 1..] == domains[i + 1..n];
      assert domains[i] !in domains[..n][i + 1..];
      ZipLastWins(domains[..n], results[..n], i);
      assert domains[..n][i] == domains[i] && results[..n][i] == results[i];
    }
  }
}
