# Product-URL crawler: the crawl engine

This project models the crawl engine of a small product-URL crawler (`crawler_pkg/crawler.py`):

- **Worklist.** For every domain it runs a breadth-first worklist over same-domain hyperlinks, starting from the domain's root URL.
- **Classification.** Each newly seen link is either collected as a *product URL* (a URL containing one of the configured patterns `/product/`, `/item/`, `/p/`, `/catalogue/`) or appended to the *frontier* for fetching later.
- **Coordination.** The coordinator maps each domain to the set of product URLs its crawl found.

Layout, one module per concern:

- `url_utils.dfy` (`UrlUtils`) holds the two URL predicates:
  - `IsSameDomain` compares the authorities of two URLs.
  - `IsProductUrl` tests whether any pattern occurs as a literal substring. It is built on `Contains`, the string `in` operator.
  - Reference resolution (`urljoin`, section 5.2 of RFC 3986) and authority extraction (`urlparse(...).netloc`, section 3.2 of RFC 3986) are library code outside the model. They are the two arbitrary total functions of a `UrlLib` value, and every result holds for all of them.
- `page_links.dfy` (`PageLinks`) holds `ScanLinks`, the link loop of `Parser.parse_page` as a pure function over the page's hrefs in document order, with its lemmas.
- `crawl_spec.dfy` (`CrawlSpec`) holds the worklist loop of `crawl_domain` as a state machine:
  - `Init`, `Step` and `Run` act on a `CrawlState`: frontier, visited set, products, and a log of fetched URLs.
  - `Run` is proved to terminate over the finite oracle.
  - The invariant of every reachable state is `Inv`.
  - The network is an oracle `Web = map<Url, seq<Href>>`. It maps each URL whose fetch yields a non-empty body to that body's anchor hrefs. Every other URL fetches to nothing.
- `crawler.dfy` (`Crawler`) is the engine as the source runs it, in imperative form:
  - `UrlList` is the frontier list, shared by reference.
  - `Parser` owns the visited set; its `ParsePage` mutates that set and the caller's list in place.
  - `ProductUrlCrawler.CrawlDomain` drains the list front first.
  - `StartCrawling` crawls each domain and zips domains with results.
  - Each method is proved against the functions above.
- `crawl_examples.dfy` (`CrawlExamples`) works out two small link graphs completely.

Three behaviours of the code are easy to miss; the model keeps each of them:

- **Cross-domain links are never marked visited.** The code tests "not visited" and "same domain" as one conjunction (`crawler_pkg/crawler.py:75`) and adds to the visited set only when both hold (`:76`). A cross-domain href is re-examined, and dropped again, each time it appears.
- **The root can be fetched twice.** The root starts in the frontier (`:99`) but never in the visited set (`:61`). A link that resolves exactly to the root's string is therefore enqueued and fetched a second time. `CrawlFacts` states when this happens, and `BackLinkToRoot` shows it on a four-URL graph.
- **Every href is resolved.** `urljoin` is applied to every href (`:74`), with no filtering of malformed ones. The model does the same, with a resolution function that always returns a URL; see "## Left out" for the hrefs on which `urljoin` raises instead.

## Model

| member | source | states |
|---|---|---|
| UrlUtils.IsSameDomain | crawler_pkg/crawler.py:23-25 | the same-domain test: the two URLs have equal authority (`netloc`); the scheme takes no part |
| UrlUtils.Contains | crawler_pkg/crawler.py:30 | the string `in` operator, `pattern in url`, as a scan over the suffixes of the URL |
| UrlUtils.IsProductUrl | crawler_pkg/crawler.py:28-30 | `any(pattern in url for pattern in patterns)`: the patterns are tried in order |
| UrlUtils.SameDomainIsEquivalence | crawler_pkg/crawler.py:23-25 | the same-domain test is reflexive, symmetric and transitive |
| UrlUtils.SameDomainOnlyAuthority | crawler_pkg/crawler.py:23-25 | the same-domain test depends only on the authority of each URL; URLs with equal authority are interchangeable whatever their scheme (`http://x` and `https://x`), path or query |
| UrlUtils.ContainsIffSubstring | crawler_pkg/crawler.py:30 | the `pattern in url` test holds exactly when the pattern occurs in the URL as a contiguous, case-sensitive substring (the empty pattern occurs in every URL) |
| UrlUtils.ProductUrlIffPatternOccurs | crawler_pkg/crawler.py:28-30 | a URL is a product URL if and only if some configured pattern occurs in it as a substring |
| UrlUtils.NoPatternsNoProducts | crawler_pkg/crawler.py:28-30 | with an empty pattern list no URL is a product URL |
| PageLinks.ScanLinks | crawler_pkg/crawler.py:71-82 | scanning a page only grows the visited set; the newly visited URLs are exactly the collected product URLs plus the URLs appended to the frontier; nothing is appended twice; collected URLs are same-domain product URLs and appended ones same-domain non-product URLs |
| PageLinks.ScanLinksAccepts | crawler_pkg/crawler.py:73-76 | a URL becomes visited during the scan if and only if it was not visited before, is on the root's domain, and is the resolution of some href of the page against the root; so a cross-domain href is never marked visited, collected or enqueued |
| PageLinks.ScanLinksAddsFromPage | crawler_pkg/crawler.py:74-76 | every URL the scan adds to the visited set resolves from an href of that page and is same-domain |
| PageLinks.ScanLinksPartition | crawler_pkg/crawler.py:75-80 | each accepted URL goes to exactly one output: the product set and the appended URLs are disjoint, and neither holds a URL visited before the scan (so an href repeated on the page or accepted on an earlier page is handled once) |
| Crawler.UrlList.constructor | crawler_pkg/crawler.py:99 | the frontier list starts with the given elements |
| Crawler.UrlList.Append | crawler_pkg/crawler.py:80 | appending adds the URL at the back and leaves the rest in place |
| Crawler.UrlList.PopFront | crawler_pkg/crawler.py:104 | popping returns the front element and leaves the rest in order |
| Crawler.Parser.constructor | crawler_pkg/crawler.py:59-61 | a parser remembers the domain root and starts with an empty visited set (the root is not in it) |
| Crawler.Parser.ParsePage | crawler_pkg/crawler.py:63-82 | the new visited set, the list after appending, and the returned product set are exactly those of `ScanLinks` from the old visited set; the caller's list keeps its old contents as a prefix |
| Crawler.ProductUrlCrawler.constructor | crawler_pkg/crawler.py:88-90 | the crawler keeps its domain list |
| Crawler.ProductUrlCrawler.CrawlDomain | crawler_pkg/crawler.py:92-112 | the loop returns exactly the product set of the specification run `CrawlResult`, and every returned URL is a product URL on the domain's authority |
| Crawler.ProductUrlCrawler.StartCrawling | crawler_pkg/crawler.py:114-122 | the result has exactly the input domains as keys, and each domain's value is its own independent crawl result, unaffected by the other domains (this relies on URL resolution never failing; see "## Left out") |
| Crawler.Zip | crawler_pkg/crawler.py:122 | the zipped map has exactly the domains as keys, and each key maps to the result at one of its positions |
| Crawler.ZipLastWins | crawler_pkg/crawler.py:122 | a domain that occurs more than once maps to the result at its last occurrence, as the dict comprehension keeps the last assignment |
| CrawlSpec.Fetch | crawler_pkg/crawler.py:106-108 | one fetch through the oracle: the page's hrefs when the fetch yields a non-empty body (the `if html_content:` branch), nothing otherwise |
| CrawlSpec.Init | crawler_pkg/crawler.py:99-101 | the start of a domain's crawl: the frontier is `[domain]`, and the visited and product sets are empty |
| CrawlSpec.Step | crawler_pkg/crawler.py:104-110 | one loop iteration: pop the front, fetch it, and on content scan its links against the root, appending new frontier URLs and merging the page's products |
| CrawlSpec.CrawlResult | crawler_pkg/crawler.py:112 | the product set a domain's crawl returns: that of the state in which the loop stops |
| CrawlSpec.StepProgress | crawler_pkg/crawler.py:103-110 | an iteration either marks visited some new URL from the finite set of URLs the pages can resolve to, or leaves the visited set alone and shortens the frontier; so the loop terminates |
| CrawlSpec.Run | crawler_pkg/crawler.py:103-112 | over the finite oracle the loop terminates, with an empty frontier |
| CrawlSpec.StepHistory | crawler_pkg/crawler.py:104-110 | an iteration fetches the front of the frontier, and the frontier loses its front and gains the page's new URLs at the back (first in, first out) |
| CrawlSpec.InitInv | crawler_pkg/crawler.py:99-101 | the initial state (only the root pending, nothing visited) satisfies the crawl invariant |
| CrawlSpec.StepPreservesInv | crawler_pkg/crawler.py:103-110 | an iteration keeps the invariant: after the root, no URL enters the frontier twice; every URL that entered is visited, same-domain and not a product; products are same-domain product URLs; the visited set is exactly those entries plus the products. It also logs the popped URL as fetched, keeps the history of entries append-only, and never loses a product |
| CrawlSpec.RunPreservesInv | crawler_pkg/crawler.py:103-112 | the invariant holds in the final state, which extends the history of frontier entries and keeps every product found so far |
| CrawlSpec.StepPreservesLinks | crawler_pkg/crawler.py:74-80 | an iteration keeps two invariants: every same-domain link of every fetched page with content is visited, and every visited URL is such a link |
| CrawlSpec.RunPreservesLinks | crawler_pkg/crawler.py:103-112 | both link invariants hold in the final state |
| CrawlSpec.StepPreservesEntries | crawler_pkg/crawler.py:76-80 | an iteration keeps every frontier entry after the root linked from a page fetched before it: the URLs it appends are links of the page it has just fetched |
| CrawlSpec.RunPreservesEntries | crawler_pkg/crawler.py:103-112 | every entry after the root is linked from an earlier fetch in the final state too |
| CrawlSpec.CrawlComplete | crawler_pkg/crawler.py:73-112 | in a finished crawl, a URL is collected if and only if it is a same-domain product URL that some fetched page links to, and it is fetched after the root if and only if it is a same-domain non-product URL that some fetched page links to; each fetch after the root is linked from a page fetched before it |
| CrawlSpec.PathFound | crawler_pkg/crawler.py:73-112 | the end of every chain of same-domain links from the root through non-product pages is fetched or collected |
| CrawlSpec.CrawlReachable | crawler_pkg/crawler.py:73-112 | a URL is fetched or collected if and only if it is reachable from the root along a chain of same-domain links through non-product pages: nothing reachable is missed and nothing unreachable is found |
| CrawlSpec.CrawlFacts | crawler_pkg/crawler.py:61-112 | in a finished crawl, the root is fetched first. No other URL is fetched twice, and each URL fetched after the root is same-domain and not a product (the root itself is fetched even when it matches a pattern). The root is fetched again exactly when some fetched page links to its exact string and it is not a product URL. Every product is a same-domain pattern match that is never fetched unless it is the root. There are at most one more fetch than the number of distinct URLs the pages resolve to |
| CrawlSpec.CrawlResultSound | crawler_pkg/crawler.py:75-78 | every URL in a domain's result matches a product pattern and has the same authority as the domain |
| CrawlSpec.RootWithoutContent | crawler_pkg/crawler.py:103-112 | when the root yields no content, the crawl ends after that single fetch with an empty result |
| CrawlExamples.BackLinkToRoot | crawler_pkg/crawler.py:99-110 | root → {item, about}, about → {foreign, root}: the result is {item}, the foreign link is dropped, about is fetched once, and the root twice |
| CrawlExamples.SelfLinkedRoot | crawler_pkg/crawler.py:61 | a root whose only link resolves to itself is fetched exactly twice and yields no products |

## Left out

- `Fetcher.fetch` (HTTP via aiohttp, the 10-second timeout, the User-Agent header, status checks and swallowed exceptions) is replaced by the oracle `Web`. A URL absent from the map stands for every case in which `if html_content:` fails: an error status, an exception, or an empty body.
- HTML parsing with BeautifulSoup and `find_all("a", href=True)` is replaced by the oracle's href sequence, in document order. `Parser.ParsePage` therefore takes the page's hrefs rather than its HTML.
- Crawler.Parser.ParsePage: does not model `urljoin` raising `ValueError` on some malformed hrefs (for instance `//[x`, an invalid IPv6 authority). In the code the exception is not caught in `parse_page` (`crawler_pkg/crawler.py:74`), so that domain's `crawl_domain` fails.
- Crawler.ProductUrlCrawler.StartCrawling: does not model the consequence of that exception. `asyncio.gather` (`crawler_pkg/crawler.py:120`, without `return_exceptions`) passes it on, so `start_crawling` returns no result for any domain. In the model `UrlLib.resolve` always returns a URL, so every domain gets a result.
- CrawlSpec.CrawlFacts: the oracle `Web` is static, so a second fetch of the root is assumed to return the same page as the first. The code fetches it from the network again, and the page may have changed in between. The same assumption underlies `SelfLinkedRoot` ("the second fetch adds nothing") and `BackLinkToRoot`.
- CrawlSpec.Run: termination holds because the oracle `Web` is a finite map. The loop at `crawler_pkg/crawler.py:103-110` does not terminate on a site that serves unboundedly many distinct same-domain links (for instance each page linking to `?page=n+1`); the model cannot express such a site.
- The internals of `urljoin` and `urlparse(...).netloc` are not modelled. They are the arbitrary functions `UrlLib.resolve` and `UrlLib.netloc`, so concrete facts such as "`http://x` and `https://x` have the same authority" are premises of the model rather than theorems.
- The `ClientSession` context and `asyncio.gather` concurrency are left out. The domains share no state, so `StartCrawling` crawls them one after another.
- Ordering of results is not modelled. `list(result)` lists a set in iteration order, which the source leaves unspecified, so results are modelled as sets.
- Logging, `save_results` (JSON file output), `main` and the `Config` values other than the pattern list are I/O and configuration only.
