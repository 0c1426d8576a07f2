/** The sitemap: every page listed twice, once at its English url and once
    under the "/es" prefix, both entries carrying the same English/Spanish
    alternates, the page's change frequency and priority, and one shared
    modification time. */
module Sitemap {

  datatype ChangeFrequency = Daily | Weekly | Monthly | Yearly

  datatype Page = Page(path: string, priority: real, changeFrequency: ChangeFrequency)

  /** `alternates.languages`. */
  datatype Languages = Languages(en: string, es: string)

  /** A sitemap entry; `lastModified` is the instant `new Date()` returned,
      passed in as a number. */
  datatype Entry = Entry(
    url: string, lastModified: int, changeFrequency: ChangeFrequency, priority: real,
    alternates: Languages)

  const BaseUrl := "https://adsensecalculator.online"

  const Pages: seq<Page> := [
    Page("", 1.0, Weekly),
    Page("/dashboard", 0.9, Daily),
    Page("/how-it-works", 0.8, Monthly),
    Page("/optimization-tips", 0.8, Monthly),
    Page("/faq", 0.7, Monthly),
    Page("/contact", 0.6, Monthly),
    Page("/privacy", 0.4, Yearly),
    Page("/terms", 0.4, Yearly)]

  function EnglishUrl(p: Page): string {
    BaseUrl + p.path
  }

  function SpanishUrl(p: Page): string {
    BaseUrl + "/es" + p.path
  }

  function Alternates(p: Page): Languages {
    Languages(EnglishUrl(p), SpanishUrl(p))
  }

  /** The loop of `sitemap`: for each page in order, the English entry then
      the Spanish one. */
  method Expand(pages: seq<Page>, lastModified: int) returns (sitemap: seq<Entry>)
    ensures |sitemap| == 2 * |pages|
    ensures forall i :: 0 <= i < |pages| ==>
      sitemap[2 * i] == Entry(EnglishUrl(pages[i]), lastModified, pages[i].changeFrequency, pages[i].priority, Alternates(pages[i]))
    ensures forall i :: 0 <= i < |pages| ==>
      sitemap[2 * i + 1] == Entry(SpanishUrl(pages[i]), lastModified, pages[i].changeFrequency, pages[i].priority, Alternates(pages[i]))
  {
    sitemap := [];
    var n := 0;
    while n < |pages|
      invariant 0 <= n <= |pages|
      invariant |sitemap| == 2 * n
      invariant forall i :: 0 <= i < n ==>
        sitemap[2 * i] == Entry(EnglishUrl(pages[i]), lastModified, pages[i].changeFrequency, pages[i].priority, Alternates(pages[i]))
      invariant forall i :: 0 <= i < n ==>
        sitemap[2 * i + 1] == Entry(SpanishUrl(pages[i]), lastModified, pages[i].changeFrequency, pages[i].priority, Alternates(pages[i]))
    {
      var page := pages[n];
      var english := Entry(BaseUrl + page.path, lastModified, page.changeFrequency, page.priority,
        Languages(BaseUrl + page.path, BaseUrl + "/es" + page.path));
      var spanish := Entry(BaseUrl + "/es" + page.path, lastModified, page.changeFrequency, page.priority,
        Languages(BaseUrl + page.path, BaseUrl + "/es" + page.path));
      sitemap := sitemap + [english] + [spanish];
      n := n + 1;
    }
  }

  /** `sitemap()`, given the current instant. */
  method Sitemap(now: int) returns (sitemap: seq<Entry>)
    ensures |sitemap| == 16
    ensures forall k :: 0 <= k < |sitemap| ==> sitemap[k].lastModified == now
    ensures forall i :: 0 <= i < |Pages| ==>
      sitemap[2 * i] == Entry(EnglishUrl(Pages[i]), now, Pages[i].changeFrequency, Pages[i].priority, Alternates(Pages[i]))
    ensures forall i :: 0 <= i < |Pages| ==>
      sitemap[2 * i + 1] == Entry(SpanishUrl(Pages[i]), now, Pages[i].changeFrequency, Pages[i].priority, Alternates(Pages[i]))
    ensures forall a, b :: 0 <= a < b < |sitemap| ==> sitemap[a].url != sitemap[b].url
  {
    sitemap := Expand(Pages, now);
    SiteUrlsDistinct(now, sitemap);
    forall k | 0 <= k < |sitemap| ensures sitemap[k].lastModified == now {
      var i := k / 2;
      var page := Pages[i];
      if k % 2 == 0 {
        assert sitemap[k] == Entry(EnglishUrl(page), now, page.changeFrequency, page.priority, Alternates(page));
      } else {
        assert sitemap[k] == Entry(SpanishUrl(page), now, page.changeFrequency, page.priority, Alternates(page));
      }
    }
  }

  /** The two entries of a page point at each other: the English entry's
      Spanish alternate is the Spanish entry's url and the other way round,
      and each entry lists itself under its own language. */
  lemma EntriesCrossReference(pages: seq<Page>, sitemap: seq<Entry>, lastModified: int, i: nat)
    requires |sitemap| == 2 * |pages| && i < |pages|
    requires sitemap[2 * i] == Entry(EnglishUrl(pages[i]), lastModified, pages[i].changeFrequency, pages[i].priority, Alternates(pages[i]))
    requires sitemap[2 * i + 1] == Entry(SpanishUrl(pages[i]), lastModified, pages[i].changeFrequency, pages[i].priority, Alternates(pages[i]))
    ensures sitemap[2 * i].alternates == sitemap[2 * i + 1].alternates
    ensures sitemap[2 * i].alternates.es == sitemap[2 * i + 1].url
    ensures sitemap[2 * i + 1].alternates.en == sitemap[2 * i].url
    ensures sitemap[2 * i].alternates.en == sitemap[2 * i].url
  {
  }

  predicate SpanishPrefixed(path: string) {
    |path| >= 3 && path[..3] == "/es"
  }

  lemma EnglishUrlInjective(p: Page, q: Page)
    ensures EnglishUrl(p) == EnglishUrl(q) ==> p.path == q.path
  {
    if EnglishUrl(p) == EnglishUrl(q) {
      assert EnglishUrl(p)[|BaseUrl|..] == p.path;
    }
  }

  lemma SpanishUrlInjective(p: Page, q: Page)
    ensures SpanishUrl(p) == SpanishUrl(q) ==> p.path == q.path
  {
    if SpanishUrl(p) == SpanishUrl(q) {
      assert SpanishUrl(p)[|BaseUrl| + 3..] == p.path;
    }
  }

  /** An English url is never a Spanish one, unless its path is itself
      under "/es". */
  lemma EnglishIsNotSpanish(p: Page, q: Page)
    requires !SpanishPrefixed(p.path)
    ensures EnglishUrl(p) != SpanishUrl(q)
  {
    assert EnglishUrl(p)[|BaseUrl|..] == p.path;
    assert SpanishUrl(q)[|BaseUrl|..] == "/es" + q.path;
  }

  /** A path whose third character is not 's' is not under "/es". */
  lemma NotSpanishByThirdChar(path: string)
    requires |path| < 3 || path[2] != 's'
    ensures !SpanishPrefixed(path)
  {
  }

  /** Pages with distinct paths, none of them already under "/es", give
      sitemap urls that are all distinct. */
  lemma UrlsDistinct(pages: seq<Page>, sitemap: seq<Entry>, lastModified: int)
    requires forall i, j :: 0 <= i < j < |pages| ==> pages[i].path != pages[j].path
    requires forall i :: 0 <= i < |pages| ==> !SpanishPrefixed(pages[i].path)
    requires |sitemap| == 2 * |pages|
    requires forall i :: 0 <= i < |pages| ==> sitemap[2 * i].url == EnglishUrl(pages[i])
    requires forall i :: 0 <= i < |pages| ==> sitemap[2 * i + 1].url == SpanishUrl(pages[i])
    ensures forall a, b :: 0 <= a < b < |sitemap| ==> sitemap[a].url != sitemap[b].url
  {
    forall a, b | 0 <= a < b < |sitemap| ensures sitemap[a].url != sitemap[b].url {
      var i, j := a / 2, b / 2;
      assert a == 2 * i + a % 2 && b == 2 * j + b % 2;
      assert a % 2 == b % 2 ==> i < j;
      EnglishUrlInjective(pages[i], pages[j]);
      SpanishUrlInjective(pages[i], pages[j]);
      EnglishIsNotSpanish(pages[i], pages[j]);
      EnglishIsNotSpanish(pages[j], pages[i]);
    }
  }

  /** The site's sixteen urls are all distinct. */
  lemma SiteUrlsDistinct(now: int, sitemap: seq<Entry>)
    requires |sitemap| == 16
    requires forall i :: 0 <= i < 8 ==> sitemap[2 * i].url == EnglishUrl(Pages[i]) && sitemap[2 * i + 1].url == SpanishUrl(Pages[i])
    ensures forall a, b :: 0 <= a < b < |sitemap| ==> sitemap[a].url != sitemap[b].url
  {
    var paths := ["", "/dashboard", "/how-it-works", "/optimization-tips", "/faq", "/contact", "/privacy", "/terms"];
    assert forall i :: 0 <= i < 8 ==> Pages[i].path == paths[i];
    forall i | 0 <= i < 8 ensures !SpanishPrefixed(paths[i]) {
      NotSpanishByThirdChar(paths[i]);
    }
    assert forall i, j :: 0 <= i < j < 8 ==> paths[i] != paths[j];
    UrlsDistinct(Pages, sitemap, now);
  }
}
