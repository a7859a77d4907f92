/**
 * An end-to-end run on a small site: there is no sitemap, and the start page
 * links to two pages on its own host and one page elsewhere.  The start page
 * lacks both security headers; the two linked pages are clean.
 */
module Scenario {
  import opened Util
  import opened Checks
  import opened Report
  import opened Discovery
  import opened Crawler

  const Seed := "http://example.test/"
  const PageA := "http://example.test/a"
  const PageB := "http://example.test/b"
  const Elsewhere := "http://other.test/"
  const SitemapXml := "http://example.test/sitemap.xml"

  /** `urlparse(u).netloc` for the four URLs of this site. */
  function HostOf(u: string): string
  {
    if u == Elsewhere then "other.test" else "example.test"
  }

  function CleanPage(): Response
  {
    Response({XContentTypeOptions, StrictTransportSecurity}, "", [], [], None)
  }

  function SiteWeb(): Web
  {
    map[Seed := Response({}, "", [], [PageA, PageB, Elsewhere], None),
        PageA := CleanPage(),
        PageB := CleanPage()]
  }

  /** Anchor crawling keeps the two same-host links, in page order, and drops the other host. */
  lemma SiteLinks()
    ensures DiscoverLinks(SiteWeb(), HostOf, Seed, {}) == [PageA, PageB]
  {
    var links := SiteWeb()[Seed].links;
    assert Fetch(SiteWeb(), Seed) == Some(SiteWeb()[Seed]);
    assert HostOf(Seed) == "example.test" && HostOf(Elsewhere) == "other.test";
    assert SameHost(links[2..], HostOf, "example.test") == [];
    assert SameHost(links[1..], HostOf, "example.test") == [PageB];
    assert SameHost(links, HostOf, "example.test") == [PageA, PageB];
    var none: set<string> := {};
    assert none + {PageA} == {PageA};
    assert [PageA, PageB][1..] == [PageB];
    assert Dedup([PageB], {PageA}) == [PageB];
    assert Dedup([PageA, PageB], none) == [PageA] + Dedup([PageB], none + {PageA});
  }

  /**
   * The whole run: the sitemap request fails, the two same-host pages are
   * scanned and are clean, and the start page, whose headers are missing,
   * is fetched for its links but never scanned, so the report is clean.
   */
  method RunOnSite() returns (targets: seq<string>, report: seq<string>)
    ensures targets == [PageA, PageB]
    ensures Seed !in targets && Elsewhere !in targets
    ensures PageFindings(SiteWeb(), Seed) != []
    ensures report == [NoVulnerabilitiesLine]
  {
    var sitemapUrls, findings;
    ghost var sitemapLog, sitemaps;
    sitemapUrls, sitemapLog, sitemaps, targets, findings, report := RunScan(SiteWeb(), HostOf, Seed, SitemapXml);
    SiteLinks();
    assert SiteWeb()[PageA] == CleanPage() && SiteWeb()[PageB] == CleanPage();
    assert PageFindings(SiteWeb(), PageA) == [];
    assert PageFindings(SiteWeb(), PageB) == [];
    ScanAllStep(SiteWeb(), targets, 0);
    ScanAllStep(SiteWeb(), targets, 1);
    assert targets[..0] == [] && targets[..2] == targets;
    assert ScanAll(SiteWeb(), targets) == [];
    assert CheckHttpHeaders({}, Seed) != [];
  }

  const PostsXml := "http://example.test/posts.xml"

  /**
   * The same pages behind a sitemap index: `/sitemap.xml` lists no page
   * itself and refers to `/posts.xml`, which lists both pages, one of them
   * twice.
   */
  function IndexedWeb(): Web
  {
    map[SitemapXml := Response({}, "", [], [], Some(SitemapDoc([], [Some(PostsXml)]))),
        PostsXml := Response({}, "", [], [], Some(SitemapDoc([Some(PageA), Some(PageB), Some(PageA)], []))),
        Seed := SiteWeb()[Seed],
        PageA := CleanPage(),
        PageB := CleanPage()]
  }

  /** The two sitemaps of this site: the index lists no page and refers to `/posts.xml`, which lists both pages. */
  lemma IndexedSitemaps()
    ensures PageLocs(IndexedWeb(), SitemapXml) == {} && NestedLocs(IndexedWeb(), SitemapXml) == {PostsXml}
    ensures PageLocs(IndexedWeb(), PostsXml) == {PageA, PageB} && NestedLocs(IndexedWeb(), PostsXml) == {}
  {
    var w := IndexedWeb();
    var entries := w[PostsXml].sitemap.value.urlLocs;
    LocsMembers(entries);
    assert Some(PageA) in entries && Some(PageB) in entries;
    LocsMembers(w[SitemapXml].sitemap.value.sitemapLocs);
    LocsMembers(w[SitemapXml].sitemap.value.urlLocs);
    assert Locs(w[PostsXml].sitemap.value.sitemapLocs) == [];
  }

  /**
   * On a web where `/sitemap.xml` refers to `/posts.xml` alone and
   * `/posts.xml` to no sitemap, every request grounded in `/sitemap.xml` is
   * one of the two.
   */
  lemma {:induction false} IndexedRequest(web: Web, log: seq<string>, k: nat)
    requires NestedLocs(web, SitemapXml) == {PostsXml} && NestedLocs(web, PostsXml) == {}
    requires Grounded(web, log, 0, {SitemapXml})
    requires k < |log|
    ensures log[k] in {SitemapXml, PostsXml}
    decreases k
  {
    if log[k] != SitemapXml {
      var m :| 0 <= m < k && log[k] in NestedLocs(web, log[m]);
      IndexedRequest(web, log, m);
      assert NestedLocs(web, log[m]) <= {PostsXml};
    }
  }

  /**
   * On a web where `/sitemap.xml` lists no page and refers to `/posts.xml`,
   * which lists the two pages and no sitemap, the sitemaps reached from
   * `/sitemap.xml` yield exactly the two pages.
   */
  lemma IndexedSitemapUrls(web: Web, urls: seq<string>, log: seq<string>, sitemaps: set<string>)
    requires PageLocs(web, SitemapXml) == {} && NestedLocs(web, SitemapXml) == {PostsXml}
    requires PageLocs(web, PostsXml) == {PageA, PageB} && NestedLocs(web, PostsXml) == {}
    requires |log| > 0 && log[0] == SitemapXml
    requires Grounded(web, log, 0, {SitemapXml}) && sitemaps == Elems(log)
    requires FoundIn(web, urls, sitemaps)
    requires Closed(web, sitemaps, Elems(urls), sitemaps)
    ensures Elems(urls) == {PageA, PageB}
  {
    assert SitemapXml in sitemaps;
    assert PostsXml in sitemaps;
    forall s | s in sitemaps
      ensures PageLocs(web, s) <= {PageA, PageB}
    {
      var k :| 0 <= k < |log| && log[k] == s;
      IndexedRequest(web, log, k);
    }
    forall u | u in urls
      ensures u in {PageA, PageB}
    {
      var s :| s in sitemaps && u in PageLocs(web, s);
    }
  }

  /**
   * The nested sitemap is followed: the run scans exactly the two pages it
   * lists, each once, and never falls back to the start page's links.
   */
  method RunOnIndexedSite() returns (targets: seq<string>)
    ensures Elems(targets) == {PageA, PageB}
    ensures NoDups(targets)
  {
    var sitemapUrls, findings, report;
    ghost var sitemapLog, sitemaps;
    sitemapUrls, sitemapLog, sitemaps, targets, findings, report := RunScan(IndexedWeb(), HostOf, Seed, SitemapXml);
    IndexedSitemaps();
    IndexedSitemapUrls(IndexedWeb(), sitemapUrls, sitemapLog, sitemaps);
    assert PageA in Elems(sitemapUrls);
  }
}
