/**
 * URL helpers of the crawler: the same-domain test and the product-pattern
 * test. Reference resolution (section 5.2 of RFC 3986, `urljoin`) and
 * authority extraction (section 3.2 of RFC 3986, `urlparse(...).netloc`) are
 * library code outside this model; they enter as the two arbitrary total
 * functions of a `UrlLib`, and every result below holds for all of them.
 */
module UrlUtils {

  /** An absolute URL, compared as an exact string. */
  type Url = string

  /** The raw value of an anchor's `href` attribute. */
  type Href = string

  /** The URL library: resolution of an href against a base, and the authority of a URL. */
  datatype UrlLib = UrlLib(resolve: (Url, Href) -> Url, netloc: Url -> string)

  /** The configured product patterns. */
  const ProductPatterns: seq<string> := ["/product/", "/item/", "/p/", "/catalogue/"]

  /** Same domain: the two URLs have the same authority; the scheme plays no part. */
  predicate IsSameDomain(lib: UrlLib, baseUrl: Url, url: Url)
  {
    lib.netloc(baseUrl) == lib.netloc(url)
  }

  /** Same-domain is an equivalence relation on URLs. */
  lemma SameDomainIsEquivalence(lib: UrlLib, a: Url, b: Url, c: Url)
    ensures IsSameDomain(lib, a, a)
    ensures IsSameDomain(lib, a, b) <==> IsSameDomain(lib, b, a)
    ensures IsSameDomain(lib, a, b) && IsSameDomain(lib, b, c) ==> IsSameDomain(lib, a, c)
  {
  }

  /**
   * Same-domain looks at nothing but the authority of each URL: URLs with
   * equal authorities are interchangeable, whatever their scheme, path or query.
   */
  lemma SameDomainOnlyAuthority(lib: UrlLib, a: Url, a': Url, b: Url, b': Url)
    requires lib.netloc(a) == lib.netloc(a') && lib.netloc(b) == lib.netloc(b')
    ensures IsSameDomain(lib, a, b) == IsSameDomain(lib, a', b')
  {
  }

  /** `p` occurs in `s` as a contiguous, case-sensitive substring. */
  ghost predicate IsSubstring(p: string, s: string)
  {
    exists i :: 0 <= i <= |s| && p <= s[i..]
  }

  /** The substring test of the string `in` operator: `p in s`. */
  function Contains(s: string, p: string): bool
    decreases |s|
  {
    if p <= s then true
    else if s == [] then false
    else Contains(s[1..], p)
  }

  /** `Contains` decides exactly the substring relation. */
  lemma {:induction false} ContainsIffSubstring(s: string, p: string)
    ensures Contains(s, p) <==> IsSubstring(p, s)
    decreases |s|
  {
    if p <= s {
      assert s[0..] == s;
    } else if s != [] {
      SubstringOfTail(p, s);
      ContainsIffSubstring(s[1..], p);
    }
  }

  /** When `p` is not a prefix of a non-empty `s`, it occurs in `s` iff it occurs in `s[1..]`. */
  lemma SubstringOfTail(p: string, s: string)
    requires s != [] && !(p <= s)
    ensures IsSubstring(p, s) <==> IsSubstring(p, s[1..])
  {
    if IsSubstring(p, s[1..]) {
      var i :| 0 <= i <= |s[1..]| && p <= s[1..][i..];
      assert s[1..][i..] == s[i + 1..];
    }
    if IsSubstring(p, s) {
      var i :| 0 <= i <= |s| && p <= s[i..];
      assert i > 0 by { assert s[0..] == s; }
      assert s[1..][i - 1..] == s[i..];
    }
  }

  /**
   * The product test: some pattern occurs as a literal substring of the URL.
   * Patterns are tried in order and the first hit decides.
   */
  function IsProductUrl(url: Url, patterns: seq<string>): bool
  {
    if patterns == [] then false
    else Contains(url, patterns[0]) || IsProductUrl(url, patterns[1..])
  }

  /** A URL is a product URL exactly when one of the patterns is a substring of it. */
  lemma {:induction false} ProductUrlIffPatternOccurs(url: Url, patterns: seq<string>)
    ensures IsProductUrl(url, patterns) <==> exists k :: 0 <= k < |patterns| && IsSubstring(patterns[k], url)
    decreases |patterns|
  {
    if patterns != [] {
      ContainsIffSubstring(url, patterns[0]);
      ProductUrlIffPatternOccurs(url, patterns[1..]);
      if exists k :: 1 <= k < |patterns| && IsSubstring(patterns[k], url) {
        var k :| 1 <= k < |patterns| && IsSubstring(patterns[k], url);
        assert patterns[1..][k - 1] == patterns[k];
      }
      if exists k :: 0 <= k < |patterns| - 1 && IsSubstring(patterns[1..][k], url) {
        var k :| 0 <= k < |patterns| - 1 && IsSubstring(patterns[1..][k], url);
        assert patterns[k + 1] == patterns[1..][k];
      }
    }
  }

  /** With no patterns configured, no URL is a product URL. */
  lemma NoPatternsNoProducts(url: Url)
    ensures !IsProductUrl(url, [])
  {
  }
}
