/**
 * The link loop of `Parser.parse_page` as a pure function. Hrefs are taken
 * in document order; each is resolved against the domain root, and it is
 * accepted when its resolution is neither already visited nor on another
 * domain. An accepted URL is marked visited and goes either to the page's
 * product set or to the end of the frontier.
 */
module PageLinks {
  import opened UrlUtils

  /** What scanning the links of one page produces. */
  datatype LinkScan = LinkScan(
    visited: set<Url>,   // the visited set afterwards
    enqueued: seq<Url>,  // what was appended to the frontier, in order
    products: set<Url>)  // the product URLs collected from the page

  /** No element of `s` occurs twice. */
  ghost predicate NoDup(s: seq<Url>)
  {
    forall i, j :: 0 <= i < j < |s| ==> s[i] != s[j]
  }

  /** The elements of a sequence, as a set. */
  function Elems(s: seq<Url>): set<Url>
  {
    set u | u in s
  }

  /** `u` is the resolution of some href of the page against `base`. */
  ghost predicate ResolvesFrom(lib: UrlLib, base: Url, hrefs: seq<Href>, u: Url)
  {
    exists i :: 0 <= i < |hrefs| && lib.resolve(base, hrefs[i]) == u
  }

  /**
   * Scans `hrefs` starting from the visited set `visited`. Defined on
   * prefixes: the last href is processed after all earlier ones.
   */
  function ScanLinks(lib: UrlLib, base: Url, visited: set<Url>, hrefs: seq<Href>): (r: LinkScan)
    // the visited set only grows
    ensures visited <= r.visited
    // what is newly visited is exactly what was collected or enqueued
    ensures r.visited - visited == r.products + Elems(r.enqueued)
    // nothing is enqueued twice
    ensures NoDup(r.enqueued)
    // collected URLs are same-domain product URLs, enqueued ones same-domain non-product URLs
    ensures forall u | u in r.products :: IsProductUrl(u, ProductPatterns) && IsSameDomain(lib, base, u)
    ensures forall u | u in r.enqueued :: !IsProductUrl(u, ProductPatterns) && IsSameDomain(lib, base, u)
    decreases |hrefs|
  {
    if hrefs == [] then
      LinkScan(visited, [], {})
    else
      var prev := ScanLinks(lib, base, visited, hrefs[..|hrefs| - 1]);
      var href := lib.resolve(base, hrefs[|hrefs| - 1]);
      if href !in prev.visited && IsSameDomain(lib, base, href) then
        if IsProductUrl(href, ProductPatterns) then
          LinkScan(prev.visited + {href}, prev.enqueued, prev.products + {href})
        else
          assert href !in prev.enqueued;
          LinkScan(prev.visited + {href}, prev.enqueued + [href], prev.products)
      else
        prev
  }

  /**
   * A URL becomes visited during the scan exactly when it was not visited
   * before, is on the same domain as `base`, and is the resolution of some
   * href of the page. In particular a cross-domain URL is never marked
   * visited, collected or enqueued.
   */
  lemma {:induction false} ScanLinksAccepts(lib: UrlLib, base: Url, visited: set<Url>, hrefs: seq<Href>, u: Url)
    ensures u in ScanLinks(lib, base, visited, hrefs).visited - visited
        <==> u !in visited && IsSameDomain(lib, base, u) && ResolvesFrom(lib, base, hrefs, u)
    decreases |hrefs|
  {
    if hrefs != [] {
      var init := hrefs[..|hrefs| - 1];
      var last := |hrefs| - 1;
      ScanLinksAccepts(lib, base, visited, init, u);
      if ResolvesFrom(lib, base, init, u) {
        var i :| 0 <= i < |init| && lib.resolve(base, init[i]) == u;
        assert hrefs[i] == init[i];
      }
      if ResolvesFrom(lib, base, hrefs, u) && u != lib.resolve(base, hrefs[last]) {
        var i :| 0 <= i < |hrefs| && lib.resolve(base, hrefs[i]) == u;
        assert i < last && init[i] == hrefs[i];
      }
    }
  }

  /** Scanning a page adds to the visited set only resolutions of that page's hrefs. */
  lemma ScanLinksAddsFromPage(lib: UrlLib, base: Url, visited: set<Url>, hrefs: seq<Href>, u: Url)
    requires u in ScanLinks(lib, base, visited, hrefs).visited && u !in visited
    ensures ResolvesFrom(lib, base, hrefs, u) && IsSameDomain(lib, base, u)
  {
    ScanLinksAccepts(lib, base, visited, hrefs, u);
  }

  /**
   * Each accepted URL goes to exactly one of the two outputs, and nothing
   * that was visited before the scan is collected or enqueued.
   */
  lemma ScanLinksPartition(lib: UrlLib, base: Url, visited: set<Url>, hrefs: seq<Href>)
    ensures var r := ScanLinks(lib, base, visited, hrefs);
      r.products !! Elems(r.enqueued) && r.products !! visited && Elems(r.enqueued) !! visited
  {
  }
}
