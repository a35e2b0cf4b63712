/**
 * Small link graphs whose crawls are worked out completely, for any URL
 * library and any URLs with the stated properties.
 */
module CrawlExamples {
  import opened UrlUtils
  import opened PageLinks
  import opened CrawlSpec

  /**
   * The root links to a product page `item` and to a plain page `about`;
   * `about` links to a page on another domain and back to the root. The crawl
   * collects `item` alone, drops the foreign link, fetches `about` once, and
   * fetches the root a second time: the back-link resolves to the root's exact
   * string, which was never marked visited.
   */
  lemma BackLinkToRoot(lib: UrlLib, root: Url, item: Url, about: Url, foreign: Url)
    requires lib.resolve(root, item) == item && lib.resolve(root, about) == about
    requires lib.resolve(root, foreign) == foreign && lib.resolve(root, root) == root
    requires IsSameDomain(lib, root, item) && IsSameDomain(lib, root, about) && !IsSameDomain(lib, root, foreign)
    requires IsProductUrl(item, ProductPatterns)
    requires !IsProductUrl(about, ProductPatterns) && !IsProductUrl(root, ProductPatterns)
    requires about != root
    ensures var web := map[root := [item, about], about := [foreign, root]];
      var t := Run(lib, web, root, Init(root));
      t.products == {item} && t.fetched == [root, about, root]
  {
    var web := map[root := [item, about], about := [foreign, root]];
    var s0 := Init(root);
    var s1 := CrawlState([about], {item, about}, {item}, [root]);
    var s2 := CrawlState([root], {item, about, root}, {item}, [root, about]);
    var s3 := CrawlState([], {item, about, root}, {item}, [root, about, root]);
    assert item != about;
    assert [item, about][..1] == [item] && [item][..0] == [];
    assert ScanLinks(lib, root, {}, [item]) == LinkScan({item}, [], {item});
    assert ScanLinks(lib, root, {}, [item, about]) == LinkScan({item, about}, [about], {item});
    assert Step(lib, web, root, s0) == s1;
    assert [foreign, root][..1] == [foreign] && [foreign][..0] == [];
    assert ScanLinks(lib, root, {item, about}, [foreign]) == LinkScan({item, about}, [], {});
    assert ScanLinks(lib, root, {item, about}, [foreign, root]) == LinkScan({item, about, root}, [root], {});
    assert Step(lib, web, root, s1) == s2;
    assert ScanLinks(lib, root, {item, about, root}, [item]) == LinkScan({item, about, root}, [], {});
    assert ScanLinks(lib, root, {item, about, root}, [item, about]) == LinkScan({item, about, root}, [], {});
    assert Step(lib, web, root, s2) == s3;
    assert Run(lib, web, root, s2) == s3;
    assert Run(lib, web, root, s1) == s3;
  }

  /**
   * A root page whose only link resolves to the root itself is fetched twice,
   * and the second fetch adds nothing.
   */
  lemma SelfLinkedRoot(lib: UrlLib, root: Url, href: Href)
    requires lib.resolve(root, href) == root && !IsProductUrl(root, ProductPatterns)
    ensures var t := Run(lib, map[root := [href]], root, Init(root));
      t.fetched == [root, root] && t.products == {}
  {
    var web := map[root := [href]];
    var s1 := CrawlState([root], {root}, {}, [root]);
    var s2 := CrawlState([], {root}, {}, [root, root]);
    assert [href][..0] == [];
    assert ScanLinks(lib, root, {}, [href]) == LinkScan({root}, [root], {});
    assert Step(lib, web, root, Init(root)) == s1;
    assert ScanLinks(lib, root, {root}, [href]) == LinkScan({root}, [], {});
    assert Step(lib, web, root, s1) == s2;
    assert Run(lib, web, root, s1) == s2;
  }
}
