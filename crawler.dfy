/**
 * The stateful half of app.py: the caller-owned sets `crawled_pages` and
 * `processed_sitemaps` and the shared `vulnerabilities` list, held by a
 * `Scanner` whose methods are `fetch_sitemap_urls`, `fetch_links_from_page`
 * and `scan_page`; and `main`'s discovery, scan and report, run one page
 * after another.
 */
module Crawler {
  import opened Util
  import opened Patterns
  import opened Checks
  import opened Report
  import opened Discovery

  /**
   * What `scan_page(url)` adds to the findings: nothing when the request
   * fails; otherwise the header findings, then the outdated-software
   * finding, then the form findings.
   */
  function PageFindings(web: Web, url: string): (r: seq<Finding>)
    ensures url !in web ==> r == []
    ensures forall f :: f in r ==> f.url == url
  {
    match Fetch(web, url)
    case None => []
    case Some(page) =>
      CheckHttpHeaders(page.headers, url) + IsOutdatedVersion(page.text, url) + CheckForms(page.forms, url)
  }

  /**
   * A fetched page reports nothing exactly when it has both security
   * headers, no outdated-version banner and only safe forms, and at most
   * two findings for its headers, one for its text and two per form.
   */
  lemma PageFindingsSpec(web: Web, url: string)
    ensures url in web ==>
      (PageFindings(web, url) == [] <==>
        && XContentTypeOptions in web[url].headers
        && StrictTransportSecurity in web[url].headers
        && !Matches(WordPress, web[url].text) && !Matches(Apache, web[url].text)
        && forall i :: 0 <= i < |web[url].forms| ==> SafeForm(web[url].forms[i]))
    ensures url in web ==>
      |PageFindings(web, url)| <= 3 + 2 * |web[url].forms|
  {
  }

  /** The findings of scanning `urls` one after another. */
  function ScanAll(web: Web, urls: seq<string>): seq<Finding>
  {
    FlatMap(u => PageFindings(web, u), urls)
  }

  /** Every finding of a scan names a scanned URL that could be fetched. */
  lemma {:induction false} ScanAllUrls(web: Web, urls: seq<string>)
    ensures forall f :: f in ScanAll(web, urls) ==> f.url in urls && f.url in web
  {
    if urls != [] {
      PageFindingsSpec(web, urls[0]);
      ScanAllUrls(web, urls[1..]);
      assert ScanAll(web, urls) == PageFindings(web, urls[0]) + ScanAll(web, urls[1..]);
      assert forall u :: u in urls[1..] ==> u in urls;
    }
  }

  /** Scanning one more URL appends that page's findings. */
  lemma ScanAllStep(web: Web, urls: seq<string>, i: int)
    requires 0 <= i < |urls|
    ensures ScanAll(web, urls[..i + 1]) == ScanAll(web, urls[..i]) + PageFindings(web, urls[i])
  {
    var f := u => PageFindings(web, u);
    FlatMapConcat(f, urls[..i], [urls[i]]);
    assert urls[..i + 1] == urls[..i] + [urls[i]];
    assert FlatMap(f, [urls[i]]) == f(urls[i]) + FlatMap(f, []);
  }

  class Scanner {
    /** The network, and `urlparse(u).netloc`. */
    const web: Web
    const netloc: string -> string

    var crawledPages: set<string>
    var processedSitemaps: set<string>
    var vulnerabilities: seq<Finding>

    /** Every sitemap request issued so far, in order. */
    ghost var sitemapRequests: seq<string>

    /** No sitemap is requested twice, and the processed set is exactly what was requested. */
    ghost predicate Valid()
      reads this
    {
      NoDups(sitemapRequests) && Elems(sitemapRequests) == processedSitemaps
    }

    /** The empty sets and list `main` starts from. */
    constructor (web: Web, netloc: string -> string)
      ensures Valid()
      ensures this.web == web && this.netloc == netloc
      ensures crawledPages == {} && processedSitemaps == {} && vulnerabilities == []
      ensures sitemapRequests == []
    {
      this.web := web;
      this.netloc := netloc;
      crawledPages := {};
      processedSitemaps := {};
      vulnerabilities := [];
      sitemapRequests := [];
    }

    /**
     * `fetch_sitemap_urls(sitemap_url, crawled_pages, processed_sitemaps)`.
     * A sitemap already processed gives nothing and changes nothing; any
     * other is marked processed before it is requested, so a failed request
     * still counts, and no sitemap is requested twice even when sitemap
     * indexes refer to each other. Every URL returned is a `<url>` location
     * of a sitemap read by this call, and every sitemap read by this call is
     * read to the end: its locations crawled, its nested sitemaps processed.
     */
    method FetchSitemapUrls(sitemapUrl: string) returns (urls: seq<string>)
      requires Valid()
      modifies this`crawledPages, this`processedSitemaps, this`sitemapRequests
      decreases KnownSitemaps(web) + {sitemapUrl} - processedSitemaps, 0
      ensures Valid()
      ensures sitemapUrl in processedSitemaps && old(processedSitemaps) <= processedSitemaps
      ensures old(sitemapRequests) <= sitemapRequests
      ensures sitemapUrl in old(processedSitemaps) ==>
        urls == [] && crawledPages == old(crawledPages)
        && processedSitemaps == old(processedSitemaps) && sitemapRequests == old(sitemapRequests)
      ensures sitemapUrl !in old(processedSitemaps) ==>
        |sitemapRequests| > |old(sitemapRequests)| && sitemapRequests[|old(sitemapRequests)|] == sitemapUrl
      ensures sitemapUrl !in old(processedSitemaps) ==>
        OwnSitemapUrls(web, sitemapUrl, old(crawledPages)) <= urls
      ensures SitemapAt(web, sitemapUrl).None? ==> urls == []
      ensures NoDups(urls)
      ensures forall u :: u in urls ==> u !in old(crawledPages)
      ensures crawledPages == old(crawledPages) + Elems(urls)
      ensures FoundIn(web, urls, processedSitemaps - old(processedSitemaps))
      ensures Closed(web, processedSitemaps - old(processedSitemaps), crawledPages, processedSitemaps)
      ensures Grounded(web, sitemapRequests, |old(sitemapRequests)|, {sitemapUrl})
    {
      urls := [];
      if sitemapUrl in processedSitemaps {
        return;
      }
      ElemsConcat(sitemapRequests, [sitemapUrl]);
      assert Elems([sitemapUrl]) == {sitemapUrl};
      NoDupsConcat(sitemapRequests, [sitemapUrl]);
      processedSitemaps := processedSitemaps + {sitemapUrl};
      sitemapRequests := sitemapRequests + [sitemapUrl];
      var doc := SitemapAt(web, sitemapUrl);
      if doc.None? {
        // RequestException, or the XML parser raised
        return;
      }

      urls := CollectUrlEntries(doc.value.urlLocs);
      DedupSpec(Locs(doc.value.urlLocs), old(crawledPages));
      assert PageLocs(web, sitemapUrl) == Elems(Locs(doc.value.urlLocs));
      assert FoundIn(web, urls, {sitemapUrl});

      ghost var processed0 := processedSitemaps;
      var more := FollowNestedSitemaps(sitemapUrl);
      GroundedNest(web, sitemapRequests, |old(sitemapRequests)|, sitemapUrl);
      NoDupsConcat(urls, more);
      FoundInConcat(web, urls, more, {sitemapUrl}, processedSitemaps - processed0,
                    processedSitemaps - old(processedSitemaps));
      assert Closed(web, {sitemapUrl}, crawledPages, processedSitemaps);
      ClosedCombine(web, {sitemapUrl}, processedSitemaps - processed0, processedSitemaps - old(processedSitemaps),
                    crawledPages, processedSitemaps, crawledPages, processedSitemaps);
      urls := urls + more;
    }

    /**
     * The `for sitemap in soup.find_all("sitemap")` loop of
     * `fetch_sitemap_urls`: every nested sitemap of the one at `parent` is
     * fetched in turn, and the URLs each contributes are appended.
     */
    method FollowNestedSitemaps(parent: string) returns (urls: seq<string>)
      requires Valid()
      requires SitemapAt(web, parent).Some?
      modifies this`crawledPages, this`processedSitemaps, this`sitemapRequests
      decreases KnownSitemaps(web) - processedSitemaps, 1
      ensures Valid()
      ensures old(processedSitemaps) <= processedSitemaps && old(sitemapRequests) <= sitemapRequests
      ensures NestedLocs(web, parent) <= processedSitemaps
      ensures NoDups(urls)
      ensures forall u :: u in urls ==> u !in old(crawledPages)
      ensures crawledPages == old(crawledPages) + Elems(urls)
      ensures FoundIn(web, urls, processedSitemaps - old(processedSitemaps))
      ensures Closed(web, processedSitemaps - old(processedSitemaps), crawledPages, processedSitemaps)
      ensures Grounded(web, sitemapRequests, |old(sitemapRequests)|, NestedLocs(web, parent))
    {
      urls := [];
      LocsMembers(SitemapAt(web, parent).value.sitemapLocs);
      var nested := SitemapAt(web, parent).value.sitemapLocs;
      var j := 0;
      while j < |nested|
        invariant 0 <= j <= |nested|
        invariant Valid()
        invariant old(processedSitemaps) <= processedSitemaps && old(sitemapRequests) <= sitemapRequests
        invariant NoDups(urls)
        invariant forall u :: u in urls ==> u !in old(crawledPages)
        invariant crawledPages == old(crawledPages) + Elems(urls)
        invariant FoundIn(web, urls, processedSitemaps - old(processedSitemaps))
        invariant Closed(web, processedSitemaps - old(processedSitemaps), crawledPages, processedSitemaps)
        invariant forall k :: 0 <= k < j && nested[k].Some? ==> nested[k].value in processedSitemaps
        invariant Grounded(web, sitemapRequests, |old(sitemapRequests)|, NestedLocs(web, parent))
      {
        if nested[j].Some? {
          NestedSitemapIsKnown(web, parent, j);
          ghost var processed0, crawled0, requests0 := processedSitemaps, crawledPages, sitemapRequests;
          var more := FetchSitemapUrls(nested[j].value);
          assert nested[j].value in NestedLocs(web, parent);
          GroundedExtend(web, requests0, sitemapRequests, |old(sitemapRequests)|,
                         NestedLocs(web, parent), {nested[j].value});
          NoDupsConcat(urls, more);
          FoundInConcat(web, urls, more, processed0 - old(processedSitemaps),
                        processedSitemaps - processed0, processedSitemaps - old(processedSitemaps));
          ClosedCombine(web, processed0 - old(processedSitemaps), processedSitemaps - processed0,
                        processedSitemaps - old(processedSitemaps),
                        crawled0, processed0, crawledPages, processedSitemaps);
          urls := urls + more;
        }
        j := j + 1;
      }
      assert NestedLocs(web, parent) == Elems(Locs(nested));
    }

    /**
     * The `for loc in soup.find_all("url")` loop of `fetch_sitemap_urls`:
     * each location not yet crawled is collected and marked crawled.
     */
    method CollectUrlEntries(entries: seq<Option<string>>) returns (urls: seq<string>)
      modifies this`crawledPages
      ensures urls == Dedup(Locs(entries), old(crawledPages))
      ensures crawledPages == old(crawledPages) + Elems(urls)
    {
      urls := [];
      ghost var seen := crawledPages;
      var i := 0;
      while i < |entries|
        invariant 0 <= i <= |entries|
        invariant urls + Dedup(Locs(entries[i..]), crawledPages) == Dedup(Locs(entries), seen)
        invariant crawledPages == seen + Elems(urls)
      {
        var loc := entries[i];
        LocsLoopStep(entries, i, crawledPages, urls, Dedup(Locs(entries), seen));
        if loc.Some? && loc.value !in crawledPages {
          ElemsConcat(urls, [loc.value]);
          assert Elems([loc.value]) == {loc.value};
          urls := urls + [loc.value];
          crawledPages := crawledPages + {loc.value};
        }
        i := i + 1;
      }
      assert entries[|entries|..] == [];
    }

    /**
     * `fetch_links_from_page(base_url, crawled_pages)`: the page's new
     * same-host links, each added to the crawled set as it is found.
     */
    method FetchLinksFromPage(baseUrl: string) returns (urls: seq<string>)
      modifies this`crawledPages
      ensures urls == DiscoverLinks(web, netloc, baseUrl, old(crawledPages))
      ensures crawledPages == old(crawledPages) + Elems(urls)
    {
      urls := [];
      var response := Fetch(web, baseUrl);
      if response.None? {
        return;
      }
      var links := response.value.links;
      var host := netloc(baseUrl);
      ghost var seen := crawledPages;
      var i := 0;
      while i < |links|
        invariant 0 <= i <= |links|
        invariant urls + Dedup(SameHost(links[i..], netloc, host), crawledPages)
                  == Dedup(SameHost(links, netloc, host), seen)
        invariant crawledPages == seen + Elems(urls)
      {
        var link := links[i];
        SameHostLoopStep(links, i, netloc, host, crawledPages, urls, Dedup(SameHost(links, netloc, host), seen));
        if netloc(link) == host && link !in crawledPages {
          ElemsConcat(urls, [link]);
          assert Elems([link]) == {link};
          urls := urls + [link];
          crawledPages := crawledPages + {link};
        }
        i := i + 1;
      }
      assert links[|links|..] == [];
    }

    /** `scan_page(url, ...)`: one request, then the three checks' findings appended in order. */
    method ScanPage(url: string)
      modifies this`vulnerabilities
      ensures vulnerabilities == old(vulnerabilities) + PageFindings(web, url)
    {
      var response := Fetch(web, url);
      if response.None? {
        return;
      }
      var page := response.value;
      vulnerabilities := vulnerabilities + CheckHttpHeaders(page.headers, url);
      vulnerabilities := vulnerabilities + IsOutdatedVersion(page.text, url);
      vulnerabilities := vulnerabilities + CheckForms(page.forms, url);
    }

    /**
     * `main`'s `executor.submit(crawl_worker, url)` for every URL, run one
     * page after another: the findings of each page in turn.
     */
    method ScanPages(targets: seq<string>)
      modifies this`vulnerabilities
      ensures vulnerabilities == old(vulnerabilities) + ScanAll(web, targets)
    {
      for i := 0 to |targets|
        invariant vulnerabilities == old(vulnerabilities) + ScanAll(web, targets[..i])
      {
        ScanAllStep(web, targets, i);
        AppendAssoc(old(vulnerabilities), ScanAll(web, targets[..i]), PageFindings(web, targets[i]));
        ScanPage(targets[i]);
      }
      assert targets[..|targets|] == targets;
    }
  }

  /**
   * `main` after reading the start URL: sitemap discovery from
   * `sitemapUrl` (the source's `urljoin(start_url, "/sitemap.xml")`), where
   * `sitemapLog` lists the sitemaps requested, each once, every one after
   * the first named by a `<sitemap>` of an earlier one; `sitemaps`, the
   * sitemaps read, are closed under nesting; and the sitemap URLs are
   * exactly the `<url>` locations found in them;
   * anchor crawling of the start page only when the sitemap gave nothing,
   * a scan of every discovered URL, and the report.
   */
  method RunScan(web: Web, netloc: string -> string, startUrl: string, sitemapUrl: string)
    returns (sitemapUrls: seq<string>, ghost sitemapLog: seq<string>, ghost sitemaps: set<string>,
             targets: seq<string>, findings: seq<Finding>, report: seq<string>)
    ensures OwnSitemapUrls(web, sitemapUrl, {}) <= sitemapUrls
    ensures |sitemapLog| > 0 && sitemapLog[0] == sitemapUrl
    ensures NoDups(sitemapLog) && sitemaps == Elems(sitemapLog)
    ensures Grounded(web, sitemapLog, 0, {sitemapUrl})
    ensures sitemapUrl in sitemaps
    ensures FoundIn(web, sitemapUrls, sitemaps)
    ensures Closed(web, sitemaps, Elems(sitemapUrls), sitemaps)
    ensures SitemapAt(web, sitemapUrl).None? ==> sitemapUrls == []
    ensures sitemapUrls != [] ==> targets == sitemapUrls
    ensures sitemapUrls == [] ==> targets == DiscoverLinks(web, netloc, startUrl, {})
    ensures NoDups(targets)
    ensures findings == ScanAll(web, targets)
    ensures report == GenerateReport(findings)
  {
    var scanner := new Scanner(web, netloc);
    sitemapUrls := scanner.FetchSitemapUrls(sitemapUrl);
    sitemaps := scanner.processedSitemaps;
    sitemapLog := scanner.sitemapRequests;
    assert scanner.crawledPages == Elems(sitemapUrls);
    if sitemapUrls != [] {
      targets := sitemapUrls;
    } else {
      assert Elems(sitemapUrls) == {};
      assert scanner.crawledPages == {};
      targets := scanner.FetchLinksFromPage(startUrl);
      assert targets == DiscoverLinks(scanner.web, scanner.netloc, startUrl, {});
    }
    assert scanner.vulnerabilities == [];
    scanner.ScanPages(targets);
    assert [] + ScanAll(web, targets) == ScanAll(web, targets);
    findings := scanner.vulnerabilities;
    report := GenerateReport(findings);
  }
}
