/** The research agent: scraping a list of URLs with the crawler, extracting links from a
    web-search reply, and shaping everything into one research record. The crawler and the
    search call are inputs; every failure of theirs becomes text in the record. */
module Researcher {
  import opened Common

  /** What one crawl of a URL gives back. */
  datatype Crawl =
    | Page(text: string)       // the crawler returned text ("" is as falsy as nothing)
    | Blank                    // the crawler returned nothing
    | Raises(message: string)  // the crawler raised

  /** The crawler, as a function of the URL. */
  type Crawler = string -> Crawl

  /** One entry of the search reply's `organic` list. */
  datatype Item =
    | Dict(link: Option<string>)  // a JSON object; `link` is its "link" member, if any
    | NotADict                    // any other JSON value

  /** The `organic` member of the decoded search reply. */
  datatype Organic =
    | Missing                 // no "organic" member (also a list reply, or a string reply without "organic")
    | NotAList                // "organic" is present but is not a list
    | Items(items: seq<Item>)

  /** How the web-search call ends. */
  datatype SearchReply =
    | RequestFailed(message: string)    // a RequestException: transport error or a 4xx/5xx status
    | UndecodableJson(message: string)  // a json.JSONDecodeError that is not a RequestException
    | Decoded(organic: Organic)         // the reply body was read
    | Malformed(message: string)        // any other exception while reading the reply body,
                                        // such as a null or number reply, or a string reply
                                        // that contains "organic"

  /** Everything outside the agent that research depends on. `fault` is an exception
      escaping the body of `research` itself, before it records any source. */
  datatype Environment = Environment(search: SearchReply, crawl: Crawler, fault: Option<string>)

  /** The record `research` returns: its keys topic, content, timestamp and sources. */
  datatype ResearchResult = ResearchResult(topic: string, content: string, timestamp: string, sources: seq<string>)

  /** Whether the crawl of a URL produced data that is kept. */
  predicate Yields(c: Crawl) {
    c.Page? && c.text != ""
  }

  /** The header put in front of each scraped page. */
  function SourceHeader(url: string): string {
    "--- Source: " + url + " ---\n\n"
  }

  /** The contribution of one URL to the list of scraped pages. */
  function EntryOf(crawl: Crawler, url: string): (r: seq<string>)
    ensures |r| <= 1
    ensures r != [] <==> Yields(crawl(url))
    ensures r != [] ==> r[0] == SourceHeader(url) + crawl(url).text
  {
    if Yields(crawl(url)) then [SourceHeader(url) + crawl(url).text] else []
  }

  /** The list `_process_urls` builds: one entry per URL whose crawl gave data, in order. */
  function Entries(crawl: Crawler, urls: seq<string>): (r: seq<string>)
    ensures |r| <= |urls|
    ensures forall k :: 0 <= k < |r| ==> r[k] != ""
    decreases |urls|
  {
    if urls == [] then [] else EntryOf(crawl, urls[0]) + Entries(crawl, urls[1..])
  }

  /** The value `_process_urls` returns: the entries joined by blank lines, or None. */
  function Scrape(crawl: Crawler, urls: seq<string>): (s: Option<string>)
    ensures urls == [] ==> s == None
    ensures s.Some? ==> s.value != "" && Entries(crawl, urls) != [] && Entries(crawl, urls)[0] <= s.value
  {
    var entries := Entries(crawl, urls);
    if entries == [] then None else Some(Join(entries, "\n\n"))
  }

  /** `_process_urls`: crawl every URL in order; a crawl that raises or returns nothing
      is skipped and the loop goes on with the next URL. */
  method ProcessUrls(crawl: Crawler, urls: seq<string>) returns (r: Option<string>)
    ensures r == Scrape(crawl, urls)
  {
    var contents: seq<string> := [];
    for i := 0 to |urls|
      invariant contents == Entries(crawl, urls[..i])
    {
      var url := urls[i];
      ghost var before := contents;
      match crawl(url) {
        case Page(scrapedData) =>
          if scrapedData != "" {
            contents := contents + [SourceHeader(url) + scrapedData];
          }
        case Blank =>
        case Raises(_) =>
      }
      assert contents == before + EntryOf(crawl, url);
      EntriesSnoc(crawl, urls, i);
    }
    assert urls[..|urls|] == urls;
    r := if contents != [] then Some(Join(contents, "\n\n")) else None;
  }

  /** Scraping a concatenation of URL lists is the concatenation of the scrapes: the
      entries keep the order of the URLs. */
  lemma {:induction false} EntriesAppend(crawl: Crawler, a: seq<string>, b: seq<string>)
    ensures Entries(crawl, a + b) == Entries(crawl, a) + Entries(crawl, b)
    decreases |a|
  {
    if a == [] {
      assert a + b == b;
    } else {
      assert (a + b)[0] == a[0];
      assert (a + b)[1..] == a[1..] + b;
      EntriesAppend(crawl, a[1..], b);
    }
  }

  /** One more URL of the list adds its entry, if any, at the end. */
  lemma EntriesSnoc(crawl: Crawler, urls: seq<string>, i: nat)
    requires i < |urls|
    ensures Entries(crawl, urls[..i + 1]) == Entries(crawl, urls[..i]) + EntryOf(crawl, urls[i])
  {
    EntriesAppend(crawl, urls[..i], [urls[i]]);
    EntriesOne(crawl, urls[i]);
    assert urls[..i + 1] == urls[..i] + [urls[i]];
  }

  lemma EntriesOne(crawl: Crawler, url: string)
    ensures Entries(crawl, [url]) == EntryOf(crawl, url)
  {
    assert [url][1..] == [];
  }

  /** A URL whose crawl raises or returns nothing is swallowed: the URLs around it are
      scraped exactly as if it were not there. */
  lemma SkippedUrl(crawl: Crawler, before: seq<string>, url: string, after: seq<string>)
    requires !Yields(crawl(url))
    ensures Entries(crawl, before + [url] + after) == Entries(crawl, before) + Entries(crawl, after)
  {
    EntriesAppend(crawl, before + [url], after);
    EntriesAppend(crawl, before, [url]);
    EntriesOne(crawl, url);
  }

  /** A URL whose crawl gives data contributes exactly its headed page, between the
      entries of the URLs before it and those after it. */
  lemma KeptUrl(crawl: Crawler, before: seq<string>, url: string, after: seq<string>)
    requires Yields(crawl(url))
    ensures Entries(crawl, before + [url] + after)
         == Entries(crawl, before) + [SourceHeader(url) + crawl(url).text] + Entries(crawl, after)
  {
    EntriesAppend(crawl, before + [url], after);
    EntriesAppend(crawl, before, [url]);
    EntriesOne(crawl, url);
  }

  /** `_process_urls` returns None exactly when no URL produced data. */
  lemma {:induction false} ScrapeNoneIff(crawl: Crawler, urls: seq<string>)
    ensures Scrape(crawl, urls) == None <==> forall i :: 0 <= i < |urls| ==> !Yields(crawl(urls[i]))
    decreases |urls|
  {
    if urls != [] {
      ScrapeNoneIff(crawl, urls[1..]);
      assert forall i :: 1 <= i < |urls| ==> urls[i] == urls[1..][i - 1];
    }
  }

  /** When `_process_urls` returns text, that text is not empty and starts with the headed
      page of the first URL that produced data. */
  lemma ScrapeStartsWithFirstPage(crawl: Crawler, before: seq<string>, url: string, after: seq<string>)
    requires forall i :: 0 <= i < |before| ==> !Yields(crawl(before[i]))
    requires Yields(crawl(url))
    ensures Scrape(crawl, before + [url] + after).Some?
    ensures SourceHeader(url) + crawl(url).text <= Scrape(crawl, before + [url] + after).value
  {
    ScrapeNoneIff(crawl, before);
    KeptUrl(crawl, before, url, after);
  }

  /** `[item.get('link') for item in organic if isinstance(item, dict) and item.get('link')]`. */
  function Links(items: seq<Item>): (r: seq<string>)
    ensures |r| <= |items|
    ensures forall k :: 0 <= k < |r| ==> r[k] != ""
    decreases |items|
  {
    if items == [] then []
    else
      var head := if items[0].Dict? && HasText(items[0].link) then [items[0].link.value] else [];
      head + Links(items[1..])
  }

  /** The URLs to scrape taken from the search reply: none unless `organic` is a list. */
  function ExtractLinks(organic: Organic): (r: seq<string>)
    ensures !organic.Items? ==> r == []
  {
    if organic.Items? then Links(organic.items) else []
  }

  /** Links are extracted item by item, in the order of the items. */
  lemma {:induction false} LinksAppend(a: seq<Item>, b: seq<Item>)
    ensures Links(a + b) == Links(a) + Links(b)
    decreases |a|
  {
    if a == [] {
      assert a + b == b;
    } else {
      assert (a + b)[0] == a[0];
      assert (a + b)[1..] == a[1..] + b;
      LinksAppend(a[1..], b);
    }
  }

  /** A string is an extracted link exactly when some item is an object whose link is
      that (non-empty) string. */
  lemma {:induction false} LinksMember(items: seq<Item>, x: string)
    ensures x in Links(items) <==> x != "" && exists i :: 0 <= i < |items| && items[i] == Dict(Some(x))
    decreases |items|
  {
    if items != [] {
      LinksMember(items[1..], x);
      assert forall i :: 1 <= i < |items| ==> items[i] == items[1..][i - 1];
      if x != "" && items[0] == Dict(Some(x)) {
        assert x in Links(items);
      }
      if x in Links(items) && x !in Links(items[1..]) {
        assert items[0] == Dict(Some(x));
      }
    }
  }

  /** What `_search_and_analyze` returns: (content, sources). */
  datatype Found = Found(content: string, sources: seq<string>)

  /** `_search_and_analyze`: search for the topic, scrape the links found, and collapse
      every failure into an explanatory content string. */
  function SearchAndAnalyze(topic: string, search: SearchReply, crawl: Crawler): (r: Found)
    ensures r.content != ""
    ensures r.sources == [] || (search.Decoded? && r.sources == ExtractLinks(search.organic))
  {
    match search
    case RequestFailed(e) => Found("Error calling Serper API: " + e, [])
    case UndecodableJson(e) => Found("Error decoding Serper API response: " + e, [])
    case Malformed(e) =>
      // raised before anything was scraped: `scraped_content or ...` is the message
      Found("Unexpected error during search/analysis: " + e, [])
    case Decoded(organic) =>
      var urlsToScrape := ExtractLinks(organic);
      if urlsToScrape == [] then
        Found("Serper search for '" + topic + "' did not return valid URLs.", [])
      else
        var foundSources := urlsToScrape;
        match Scrape(crawl, foundSources)
        case None =>
          Found("Crawl4AI failed to extract content from the found URLs for '" + topic + "'.", foundSources)
        case Some(scrapedContent) =>
          JoinedEntriesNotEmpty(crawl, foundSources);
          Found(scrapedContent, foundSources)
  }

  /** Joined scraped pages are never the empty string. */
  lemma JoinedEntriesNotEmpty(crawl: Crawler, urls: seq<string>)
    ensures Scrape(crawl, urls).Some? ==> Scrape(crawl, urls).value != ""
  {
  }

  /** A search that finds no link reports it and gives no sources. */
  lemma SearchWithoutLinks(topic: string, organic: Organic, crawl: Crawler)
    requires ExtractLinks(organic) == []
    ensures SearchAndAnalyze(topic, Decoded(organic), crawl)
         == Found("Serper search for '" + topic + "' did not return valid URLs.", [])
  {
  }

  /** A search whose links all fail to scrape reports it but keeps the links as sources. */
  lemma SearchScrapeFails(topic: string, organic: Organic, crawl: Crawler)
    requires ExtractLinks(organic) != []
    requires forall i :: 0 <= i < |ExtractLinks(organic)| ==> !Yields(crawl(ExtractLinks(organic)[i]))
    ensures SearchAndAnalyze(topic, Decoded(organic), crawl)
         == Found("Crawl4AI failed to extract content from the found URLs for '" + topic + "'.", ExtractLinks(organic))
  {
    ScrapeNoneIff(crawl, ExtractLinks(organic));
  }

  /** A search with at least one scraped link gives the scraped text and all the links. */
  lemma SearchSucceeds(topic: string, organic: Organic, crawl: Crawler)
    requires exists i :: 0 <= i < |ExtractLinks(organic)| && Yields(crawl(ExtractLinks(organic)[i]))
    ensures Scrape(crawl, ExtractLinks(organic)).Some?
    ensures SearchAndAnalyze(topic, Decoded(organic), crawl)
         == Found(Scrape(crawl, ExtractLinks(organic)).value, ExtractLinks(organic))
  {
    ScrapeNoneIff(crawl, ExtractLinks(organic));
  }

  /** The `urls` argument is used only when it is truthy (present and not empty). */
  function UrlsGiven(urls: Option<seq<string>>): seq<string> {
    if HasItems(urls) then urls.value else []
  }

  /** `research`: scrape the given URLs, or search and scrape when none are given;
      `now` stands for the timestamp taken from the clock. */
  function Research(topic: string, urls: Option<seq<string>>, env: Environment, now: string): (r: ResearchResult)
    ensures r.topic == topic && r.timestamp == now
    ensures r.content != ""
  {
    var (content, sourcesUsed) :=
      if env.fault.Some? then
        // the handler: the URLs if given, else what was gathered before the exception,
        // which is nothing, since no statement of the body raises after a source is set
        ("Unexpected error during research: " + env.fault.value, UrlsGiven(urls))
      else if HasItems(urls) then
        var scraped := Scrape(env.crawl, urls.value);
        JoinedEntriesNotEmpty(env.crawl, urls.value);
        (if HasText(scraped) then scraped.value else "Failed to process provided URLs.", urls.value)
      else
        var found := SearchAndAnalyze(topic, env.search, env.crawl);
        (found.content, found.sources);
    ResearchResult(topic, content, now, sourcesUsed)
  }

  /** With URLs given, the sources are exactly those URLs, and the content is their
      scrape or the failure notice. */
  lemma ResearchWithUrls(topic: string, urls: seq<string>, env: Environment, now: string)
    requires urls != [] && env.fault == None
    ensures Research(topic, Some(urls), env, now).sources == urls
    ensures Research(topic, Some(urls), env, now).content
         == (if Scrape(env.crawl, urls).Some? then Scrape(env.crawl, urls).value else "Failed to process provided URLs.")
  {
    JoinedEntriesNotEmpty(env.crawl, urls);
  }

  /** Without URLs, the sources are the links of a decoded search reply and nothing
      otherwise; each failure of the search call becomes its own message, and a scrape of
      the found links becomes the content. */
  lemma ResearchBySearch(topic: string, urls: Option<seq<string>>, env: Environment, now: string)
    requires !HasItems(urls) && env.fault == None
    ensures var r := Research(topic, urls, env, now);
            r.sources == if env.search.Decoded? then ExtractLinks(env.search.organic) else []
    ensures env.search.RequestFailed? ==>
              Research(topic, urls, env, now).content == "Error calling Serper API: " + env.search.message
    ensures env.search.UndecodableJson? ==>
              Research(topic, urls, env, now).content == "Error decoding Serper API response: " + env.search.message
    ensures env.search.Malformed? ==>
              Research(topic, urls, env, now).content == "Unexpected error during search/analysis: " + env.search.message
    ensures env.search.Decoded? && Scrape(env.crawl, ExtractLinks(env.search.organic)).Some? ==>
              Research(topic, urls, env, now).content == Scrape(env.crawl, ExtractLinks(env.search.organic)).value
  {
  }

  /** An exception inside `research` becomes its content; the sources are the given URLs,
      or none when the URLs were not given. */
  lemma ResearchFault(topic: string, urls: Option<seq<string>>, env: Environment, now: string)
    requires env.fault.Some?
    ensures Research(topic, urls, env, now).content == "Unexpected error during research: " + env.fault.value
    ensures Research(topic, urls, env, now).sources == UrlsGiven(urls)
  {
  }
}
