/**
 * The network as the scanner sees it, and the URL-discovery results of
 * `fetch_sitemap_urls` (app.py:35-68) and `fetch_links_from_page`
 * (app.py:70-90) stated as functions of that network.
 *
 * A GET is a lookup in a map from URL to the parsed response; a URL that is
 * not in the map is one whose request raised `RequestException` (connection
 * or DNS failure, timeout, or a non-2xx status caught by `raise_for_status`).
 */
module Discovery {
  import opened Util
  import opened Checks

  /**
   * A response parsed as an XML sitemap: the `<loc>` child of every `<url>`
   * element and of every `<sitemap>` element, in document order, already
   * stripped; `None` where the element has no `<loc>`.
   */
  datatype SitemapDoc = SitemapDoc(urlLocs: seq<Option<string>>, sitemapLocs: seq<Option<string>>)

  /**
   * A successful response: its header names, its text, its `<form>`
   * elements, the targets of its `<a href>` elements resolved against the
   * request URL, and its reading as a sitemap (`None` when the XML parser
   * raised).
   */
  datatype Response = Response(
    headers: set<string>,
    text: string,
    forms: seq<Form>,
    links: seq<string>,
    sitemap: Option<SitemapDoc>)

  type Web = map<string, Response>

  /** `requests.get(url)` followed by `raise_for_status()`. */
  function Fetch(web: Web, url: string): Option<Response>
  {
    if url in web then Some(web[url]) else None
  }

  /** The parsed sitemap at `url`, if the request and the XML parse both succeed. */
  function SitemapAt(web: Web, url: string): Option<SitemapDoc>
  {
    if url in web then web[url].sitemap else None
  }

  /** The `<loc>` texts that are present, in order. */
  function Locs(entries: seq<Option<string>>): seq<string>
  {
    if entries == [] then []
    else (if entries[0].Some? then [entries[0].value] else []) + Locs(entries[1..])
  }

  lemma {:induction false} LocsMembers(entries: seq<Option<string>>)
    ensures forall u :: u in Locs(entries) <==> Some(u) in entries
  {
    if entries != [] {
      LocsMembers(entries[1..]);
      assert forall i :: 1 <= i < |entries| ==> entries[i] == entries[1..][i - 1];
    }
  }

  /**
   * The `<url>` entries one sitemap contributes itself when it is read with
   * `seen` already crawled: its locations not yet crawled, first occurrence
   * only, in document order.
   */
  function OwnSitemapUrls(web: Web, url: string, seen: set<string>): (r: seq<string>)
    ensures NoDups(r)
    ensures forall u :: u in r <==> u !in seen && SitemapAt(web, url).Some? && Some(u) in SitemapAt(web, url).value.urlLocs
  {
    match SitemapAt(web, url)
    case None => []
    case Some(doc) =>
      LocsMembers(doc.urlLocs);
      DedupSpec(Locs(doc.urlLocs), seen);
      Dedup(Locs(doc.urlLocs), seen)
  }

  /**
   * One turn of the `<url>` loop keeps "collected so far, then what the rest
   * of the entries will add" equal to the whole sitemap's contribution.
   */
  lemma LocsLoopStep(entries: seq<Option<string>>, i: int, seen: set<string>, urls: seq<string>, total: seq<string>)
    requires 0 <= i < |entries|
    requires urls + Dedup(Locs(entries[i..]), seen) == total
    ensures entries[i].Some? && entries[i].value !in seen ==>
      (urls + [entries[i].value]) + Dedup(Locs(entries[i + 1..]), seen + {entries[i].value}) == total
    ensures !(entries[i].Some? && entries[i].value !in seen) ==>
      urls + Dedup(Locs(entries[i + 1..]), seen) == total
  {
    assert entries[i..][0] == entries[i] && entries[i..][1..] == entries[i + 1..];
    var rest := Locs(entries[i + 1..]);
    if entries[i].Some? {
      var v := entries[i].value;
      assert Locs(entries[i..]) == [v] + rest;
      assert ([v] + rest)[0] == v && ([v] + rest)[1..] == rest;
      if v !in seen {
        var d := Dedup(rest, seen + {v});
        assert urls + ([v] + d) == (urls + [v]) + d;
      }
    } else {
      assert Locs(entries[i..]) == [] + rest == rest;
    }
  }

  /** Every sitemap URL some sitemap of the web refers to: the candidates for a nested fetch. */
  ghost function KnownSitemaps(web: Web): set<string>
  {
    set r, j | r in web.Values && r.sitemap.Some? && 0 <= j < |r.sitemap.value.sitemapLocs|
                 && r.sitemap.value.sitemapLocs[j].Some?
      :: r.sitemap.value.sitemapLocs[j].value
  }

  lemma NestedSitemapIsKnown(web: Web, url: string, j: int)
    requires SitemapAt(web, url).Some?
    requires 0 <= j < |SitemapAt(web, url).value.sitemapLocs|
    requires SitemapAt(web, url).value.sitemapLocs[j].Some?
    ensures SitemapAt(web, url).value.sitemapLocs[j].value in KnownSitemaps(web)
  {
    assert web[url] in web.Values;
  }

  /** The `<url><loc>` locations of the sitemap at `url`; none when it cannot be fetched or parsed. */
  function PageLocs(web: Web, url: string): set<string>
  {
    match SitemapAt(web, url)
    case None => {}
    case Some(doc) => Elems(Locs(doc.urlLocs))
  }

  /** The `<sitemap><loc>` locations of the sitemap at `url`; none when it cannot be fetched or parsed. */
  function NestedLocs(web: Web, url: string): set<string>
  {
    match SitemapAt(web, url)
    case None => {}
    case Some(doc) => Elems(Locs(doc.sitemapLocs))
  }

  /** Every URL of `urls` is a `<url><loc>` of one of `sitemaps`. */
  ghost predicate FoundIn(web: Web, urls: seq<string>, sitemaps: set<string>)
  {
    forall u :: u in urls ==> exists s :: s in sitemaps && u in PageLocs(web, s)
  }

  /**
   * Every sitemap of `sitemaps` has been read to the end: its `<url>`
   * locations are all crawled and its `<sitemap>` locations all processed.
   */
  ghost predicate Closed(web: Web, sitemaps: set<string>, crawled: set<string>, processed: set<string>)
  {
    forall s :: s in sitemaps ==> PageLocs(web, s) <= crawled && NestedLocs(web, s) <= processed
  }

  lemma FoundInConcat(web: Web, a: seq<string>, b: seq<string>, sa: set<string>, sb: set<string>, s: set<string>)
    requires FoundIn(web, a, sa) && FoundIn(web, b, sb) && sa <= s && sb <= s
    ensures FoundIn(web, a + b, s)
  {
  }

  /** Reading more only grows the sets, so a closed part stays closed and parts combine. */
  lemma ClosedCombine(web: Web, a: set<string>, b: set<string>, c: set<string>,
                      crawled0: set<string>, processed0: set<string>, crawled: set<string>, processed: set<string>)
    requires Closed(web, a, crawled0, processed0) && crawled0 <= crawled && processed0 <= processed
    requires Closed(web, b, crawled, processed) && c <= a + b
    ensures Closed(web, c, crawled, processed)
  {
  }

  /**
   * Every request of `log` from position `start` on is one of `roots` or a
   * `<sitemap><loc>` of a sitemap requested earlier, from `start` on: the
   * requests are reachable from `roots` through nested sitemaps.
   */
  ghost predicate Grounded(web: Web, log: seq<string>, start: nat, roots: set<string>)
  {
    forall k :: start <= k < |log| ==>
      log[k] in roots || exists m :: start <= m < k && log[k] in NestedLocs(web, log[m])
  }

  /** Requests grounded in the nested sitemaps of the one requested at `start` are grounded in it. */
  lemma GroundedNest(web: Web, log: seq<string>, start: nat, root: string)
    requires start < |log| && log[start] == root
    requires Grounded(web, log, start + 1, NestedLocs(web, root))
    ensures Grounded(web, log, start, {root})
  {
    forall k | start <= k < |log| && log[k] !in {root}
      ensures exists m :: start <= m < k && log[k] in NestedLocs(web, log[m])
    {
      if log[k] in NestedLocs(web, root) {
        assert start <= start < k && log[k] in NestedLocs(web, log[start]);
      }
    }
  }

  /** A grounded log extended by requests grounded in a subset of its roots stays grounded. */
  lemma GroundedExtend(web: Web, log0: seq<string>, log: seq<string>, start: nat,
                       roots: set<string>, more: set<string>)
    requires log0 <= log && start <= |log0|
    requires Grounded(web, log0, start, roots)
    requires Grounded(web, log, |log0|, more) && more <= roots
    ensures Grounded(web, log, start, roots)
  {
    forall k | start <= k < |log| && log[k] !in roots
      ensures exists m :: start <= m < k && log[k] in NestedLocs(web, log[m])
    {
      if k < |log0| {
        assert log0[k] == log[k];
        var m :| start <= m < k && log0[k] in NestedLocs(web, log0[m]);
        assert log0[m] == log[m];
      }
    }
  }

  /** The links of `links` whose host is `host`, in order. */
  function SameHost(links: seq<string>, netloc: string -> string, host: string): seq<string>
  {
    if links == [] then []
    else (if netloc(links[0]) == host then [links[0]] else []) + SameHost(links[1..], netloc, host)
  }

  lemma {:induction false} SameHostMembers(links: seq<string>, netloc: string -> string, host: string)
    ensures forall u :: u in SameHost(links, netloc, host) <==> u in links && netloc(u) == host
  {
    if links != [] {
      SameHostMembers(links[1..], netloc, host);
      assert forall i :: 1 <= i < |links| ==> links[i] == links[1..][i - 1];
    }
  }

  /** One turn of the `<a>` loop, in the manner of `LocsLoopStep`. */
  lemma SameHostLoopStep(links: seq<string>, i: int, netloc: string -> string, host: string,
                         seen: set<string>, urls: seq<string>, total: seq<string>)
    requires 0 <= i < |links|
    requires urls + Dedup(SameHost(links[i..], netloc, host), seen) == total
    ensures netloc(links[i]) == host && links[i] !in seen ==>
      (urls + [links[i]]) + Dedup(SameHost(links[i + 1..], netloc, host), seen + {links[i]}) == total
    ensures !(netloc(links[i]) == host && links[i] !in seen) ==>
      urls + Dedup(SameHost(links[i + 1..], netloc, host), seen) == total
  {
    assert links[i..][0] == links[i] && links[i..][1..] == links[i + 1..];
    var rest := SameHost(links[i + 1..], netloc, host);
    if netloc(links[i]) == host {
      assert SameHost(links[i..], netloc, host) == [links[i]] + rest;
      assert ([links[i]] + rest)[0] == links[i] && ([links[i]] + rest)[1..] == rest;
      if links[i] !in seen {
        var d := Dedup(rest, seen + {links[i]});
        assert urls + ([links[i]] + d) == (urls + [links[i]]) + d;
      }
    } else {
      assert SameHost(links[i..], netloc, host) == [] + rest == rest;
    }
  }

  /**
   * What `fetch_links_from_page(base, crawled)` returns: nothing when the
   * request fails; otherwise the page's links on the base URL's host that
   * are not yet crawled, each once, in page order.
   */
  function DiscoverLinks(web: Web, netloc: string -> string, base: string, seen: set<string>): (r: seq<string>)
    ensures NoDups(r)
    ensures forall u :: u in r ==> netloc(u) == netloc(base) && u !in seen
    ensures forall u :: u in r <==> base in web && u in web[base].links && netloc(u) == netloc(base) && u !in seen
    ensures base !in web ==> r == []
  {
    match Fetch(web, base)
    case None => []
    case Some(page) =>
      SameHostMembers(page.links, netloc, netloc(base));
      DedupSpec(SameHost(page.links, netloc, netloc(base)), seen);
      Dedup(SameHost(page.links, netloc, netloc(base)), seen)
  }
}
