# Website vulnerability crawler — a Dafny model

The crawler (`app.py`) takes a start URL, discovers the pages of the site —
from `/sitemap.xml`, following nested sitemap indexes, or, when that yields
nothing, from the same-host `<a href>` links of the start page — fetches each
page, runs three heuristics on it (missing security headers, insecure forms,
outdated-software banners in the text) and prints a numbered report.

This project models that logic with the network replaced by a map from URL to
an already-parsed response (`Discovery.Web`): a URL absent from the map is a
request that raised `RequestException`. Each response carries the views the
program takes of it: header names, text, forms, resolved anchor links, and
its reading as a sitemap (the `<loc>` of each `<url>` and `<sitemap>`
element, or `None` when the XML parser raised). `urlparse(...).netloc` is a
parameter of the model (`netloc: string -> string`), and so is the sitemap
URL that `main` builds with `urljoin(start_url, "/sitemap.xml")`.

Modules:

- `Checks` (checks.dfy): `check_http_headers`, `check_forms` and
  `is_outdated_version` as pure functions returning their findings in the
  source's order.
- `Patterns` (patterns.dfy): the two fixed regular expressions of
  `is_outdated_version`. They are written once as a declarative predicate
  (`Matches`: some substring is keyword, whitespace, optional `v`, major digit,
  `.`, digit) and once as a matcher (`Search`), and `SearchIsMatches` proves
  the two agree.
- `Report` (report.dfy): `generate_report` as the list of lines it prints,
  with Python's `str(int)` as `Decimal` and its inverse.
- `Discovery` (discovery.dfy): the web, and the results of sitemap and anchor
  discovery as functions of it.
- `Crawler` (crawler.dfy): class `Scanner` holds `crawled_pages`,
  `processed_sitemaps` and the shared `vulnerabilities` list. Its methods
  `FetchSitemapUrls` (with its `<url>` loop in `CollectUrlEntries` and its
  `<sitemap>` loop in `FollowNestedSitemaps`, which calls it back for each
  nested sitemap), `FetchLinksFromPage` and `ScanPage` change them in place. `RunScan` is `main`: it runs the
  discovery and the fallback, scans every URL one after another, and builds
  the report. A ghost log `sitemapRequests` records every sitemap request, so
  that "no sitemap is fetched twice" can be stated. The two sitemap
  methods terminate because the set of sitemap URLs that the web mentions, minus
  those already processed, shrinks with every nested call.
- `Scenario` (scenario.dfy): end-to-end runs on a small site, once without
  a sitemap and once behind a sitemap index.

When the sitemap yields nothing, the start page is fetched to read its links.
`main` scans only the discovered URLs (app.py:134-148), so the start page is
scanned only if the sitemap lists it or, in the fallback, it links to itself.
`Scenario.RunOnSite` shows a clean report although the start page lacks both
security headers.

## Model

| member | source | states |
|---|---|---|
| `Checks.CheckHttpHeaders` | app.py:8-14 | one finding per missing header; none iff both `X-Content-Type-Options` and `Strict-Transport-Security` are present; the X-Content-Type-Options finding comes first, the HSTS one last; every finding carries the page URL |
| `Checks.FormFindings` | app.py:19-22 | exactly one finding per failed test (missing or empty action, method other than POST), so at most two; none iff it has a non-empty action and its method lower-cases to `post`; the missing-action finding comes first, the non-POST one last |
| `Checks.CheckForms` | app.py:16-23 | exactly one finding per failed test over all forms, so at most two per form, all for the page URL, and none iff every form is safe |
| `Checks.CheckFormsConcat` | app.py:18-22 | findings come in form order: checking `a + b` gives the findings of `a` followed by those of `b` |
| `Checks.IsPostExamples` | app.py:21 | `POST` in any case passes the method test; a missing method and `GET` fail it |
| `Checks.CheckFormsExamples` | app.py:16-23 | an empty action with `GET` gives exactly the two findings in order; a real action with `Post` gives none |
| `Checks.IsOutdatedVersion` | app.py:25-33 | at most one finding, exactly one iff the WordPress or the Apache pattern matches the text, and it is the generic message for the page URL |
| `Checks.OutdatedExamples` | app.py:25-33 | "WordPress 3.9" gives one finding and "WordPress 6.2" none |
| `Checks.OutdatedBannerForms` | app.py:27-28 | case and the `v` prefix are free ("wordpress\tV4.0" is reported); "Apache 2.4.58" is reported; "Apache/2.2" is not, since whitespace must follow the keyword |
| `Patterns.SkipSpaces` | app.py:27-28 | `\s+` takes the whole whitespace run: every character before the result is whitespace and the one at the result is not |
| `Patterns.Search` | app.py:31 | `pattern.search(text)` as a scan of every start position with a greedy whitespace run; its meaning is fixed by `SearchIsMatches` |
| `Patterns.SearchIsMatches` | app.py:27-31 | the matcher finds a match iff the regular expression matches some substring of the text |
| `Patterns.AnySearch` | app.py:30-33 | the loop over the patterns succeeds iff some pattern of the list matches |
| `Report.Decimal` | app.py:121 | `str(i)` is a non-empty string of decimal digits that starts with `0` only for zero |
| `Report.DecimalRoundTrip` | app.py:121 | reading back the digits of `str(i)` gives `i` |
| `Report.NumberedLines` | app.py:120-121 | one line per finding, the k-th numbered `first + k` and formatted `"{i}. {msg} (URL: {url})"` |
| `Report.GenerateReport` | app.py:115-121 | an empty list gives exactly "No vulnerabilities found!"; otherwise the heading and then one line per finding, numbered from 1 in list order |
| `Report.ReportNumbering` | app.py:120-121 | the number that opens report line `k + 1` reads back as `k + 1` |
| `Util.DedupSpec` | app.py:50-56 | the add-if-not-seen loop keeps exactly the candidates not seen before, each once |
| `Discovery.LocsMembers` | app.py:50-53 | the collected locations are exactly the `<url>` entries that have a `<loc>` |
| `Discovery.OwnSitemapUrls` | app.py:50-56 | the `<url>` locations a sitemap contributes are duplicate-free, not yet crawled, and every uncrawled location of the sitemap is among them; a sitemap that cannot be fetched or parsed contributes none |
| `Discovery.LocsLoopStep` | app.py:50-56 | one turn of the `<url>` loop keeps the collected prefix plus what is left equal to the sitemap's whole contribution |
| `Discovery.NestedSitemapIsKnown` | app.py:58-62 | every nested `<sitemap><loc>` is one of the sitemap URLs the web mentions, so the termination measure covers it |
| `Discovery.SameHostMembers` | app.py:84 | the host filter keeps exactly the links whose netloc is the base URL's |
| `Discovery.SameHostLoopStep` | app.py:81-86 | one turn of the anchor loop keeps the collected prefix plus what is left equal to the page's whole contribution |
| `Discovery.DiscoverLinks` | app.py:70-90 | the anchor links returned are duplicate-free, all on the base URL's host, none already crawled, and every such link of the page is among them; a failed request gives none |
| `Crawler.PageFindings` | app.py:92-113 | what `scan_page` appends: nothing for a page that cannot be fetched, and only findings about the page itself |
| `Crawler.PageFindingsSpec` | app.py:100-113 | a fetched page has at most 3 + 2 per form findings, and none iff it has both headers, no outdated banner and only safe forms |
| `Crawler.ScanAllUrls` | app.py:140-148 | every finding of a scan names a scanned URL that could be fetched |
| `Crawler.ScanAllStep` | app.py:145-148 | scanning one more URL appends exactly that page's findings |
| `Util.FlatMapConcat` | app.py:146-148 | the findings of scanning two lists of URLs in turn are those of the first list followed by those of the second |
| `Crawler.Scanner.constructor` | app.py:125-127 | a run starts with no crawled page, no processed sitemap, no finding and no sitemap request |
| `Crawler.Scanner.FetchSitemapUrls` | app.py:35-68 | a processed sitemap gives `[]` and changes nothing; otherwise the URL is marked processed and requested first, even if the request then fails; no sitemap is ever requested twice; both sets only grow; the URLs returned are duplicate-free and new; the crawled set grows by exactly them; the sitemap's own `<url>` entries come first; every URL returned is a `<url><loc>` of a sitemap this call read; every sitemap this call read has all its `<url>` locations crawled and all its `<sitemap>` locations processed; the sitemaps it requests are `sitemapUrl` first and then only ones named by a `<sitemap><loc>` of a sitemap it requested earlier |
| `Crawler.Scanner.FollowNestedSitemaps` | app.py:58-62 | every nested `<sitemap><loc>` ends up processed; the URLs appended are duplicate-free, new, crawled, and each a `<url><loc>` of a sitemap read by the loop, and every sitemap it read is read to the end; every sitemap it requests is a nested `<loc>` of `parent` or of a sitemap it requested earlier; no sitemap is requested twice |
| `Crawler.Scanner.CollectUrlEntries` | app.py:50-56 | the `<url>` loop returns the sitemap's new locations in document order and marks exactly those crawled |
| `Crawler.Scanner.FetchLinksFromPage` | app.py:70-90 | returns exactly `DiscoverLinks` for the crawled set on entry, and the crawled set grows by exactly the links returned |
| `Crawler.Scanner.ScanPage` | app.py:92-113 | the findings list grows by the page's header, outdated-software and form findings, in that order, and by nothing if the request fails; nothing else changes |
| `Crawler.Scanner.ScanPages` | app.py:140-148 | scanning a list of URLs appends the findings of each page in list order |
| `Crawler.RunScan` | app.py:123-150 | anchor crawling of the start page happens only when sitemap discovery returned nothing; a missing sitemap returns nothing; the sitemap requests are `/sitemap.xml` first and then only sitemaps named by a `<sitemap><loc>` of an earlier request, each once; the sitemaps read contain every sitemap nested in one of them, and the sitemap URLs are exactly `<url>` locations of those sitemaps, all of them included; the scanned URLs are duplicate-free; the findings are those of the scanned pages in order; the report is `GenerateReport` of them |
| `Scenario.SiteLinks` | app.py:81-86 | on the example site, anchor crawling keeps the two same-host links in page order and drops the other host |
| `Scenario.IndexedSitemaps` | app.py:50-62 | on the indexed example site `/sitemap.xml` lists no page and refers to `/posts.xml` alone, which lists the two pages and no sitemap |
| `Scenario.IndexedRequest` | app.py:58-62 | on such a site every sitemap request reachable from `/sitemap.xml` is `/sitemap.xml` or `/posts.xml` |
| `Scenario.IndexedSitemapUrls` | app.py:50-62 | on such a site the sitemaps reached from `/sitemap.xml`, read to the end, yield exactly the two pages |
| `Scenario.RunOnIndexedSite` | app.py:130-150 | behind a sitemap index, the run follows the nested sitemap and scans exactly its two pages, each once |
| `Scenario.RunOnSite` | app.py:130-150 | on the example site the run scans exactly the two linked pages, never the start page or the other host, and reports no vulnerabilities |

## Left out

- HTTP: `requests.get`, timeouts and `raise_for_status` are a lookup in the web map. Every failure is one outcome, with no distinction between status codes and transport errors.
- Parsing: BeautifulSoup's XML and HTML parsing, `.text.strip()` and `urljoin` are not modelled. Responses arrive already parsed, with stripped `<loc>` texts and resolved links. A parse error is modelled only for the sitemap reading, where `except Exception` catches it; the HTML parser is taken never to raise.
- `urlparse(...).netloc` is a parameter of the model. Every property about hosts holds for any such function.
- Header names: the case-insensitive lookup of `requests`' header dictionary is not modelled. Headers are a set of names and membership is taken as given. Header values are never examined, as in the source.
- Patterns.IsDigit: `\d` in the WordPress pattern also matches non-ASCII decimal digits in Python; the model accepts only `0`-`9`.
- Patterns.CaselessEq: case-insensitive matching covers ASCII case and U+017F for `s`, which are the only characters Python treats as equal to the letters of `wordpress` and `apache`.
- Checks.Lower: only ASCII letters are lowered. For the comparison with `post` this is exact, because no other character lowers to `p`, `o`, `s` or `t`.
- Concurrency: the thread pool, the lock and the interleaving of different pages' `extend` calls are not modelled. Pages are scanned one after another in discovery order. In the source, `scan_page` takes the lock separately for each of its three `extend` calls. The concurrent program can therefore interleave the finding groups of different pages. Within one page, the headers, outdated-software and forms groups keep that order.
- Deep recursion: a sitemap chain deep enough to raise `RecursionError` is not modelled; the model's recursion has no depth limit.
- Console I/O: `input()` and the progress and error `print`s are dropped. The report is returned as its lines.
