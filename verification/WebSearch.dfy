/**
  OpenWebUI search sources (codec/websearch_inject.go): deduplicated URLs with
  their titles, and the text footer built from them.
 */
module WebSearch {
  import opened Types
  import opened Distinct

  // ----- sources -----

  datatype Metadata = Metadata(title: string, source: string)

  datatype Source = Source(kind: string, urls: seq<string>, metadata: seq<Metadata>)

  function AllMetadata(sources: seq<Source>): seq<Metadata> {
    if sources == [] then [] else AllMetadata(sources[..|sources| - 1]) + sources[|sources| - 1].metadata
  }

  function SearchUrls(sources: seq<Source>): seq<string> {
    if sources == [] then []
    else
      var s := sources[|sources| - 1];
      SearchUrls(sources[..|sources| - 1]) + if s.kind == "web_search" then s.urls else []
  }

  /** The last non-empty title recorded for this URL, or "". */
  function LastTitle(metadata: seq<Metadata>, url: string): string {
    if metadata == [] then ""
    else
      var m := metadata[|metadata| - 1];
      if m.source == url && m.source != "" && m.title != "" then m.title
      else LastTitle(metadata[..|metadata| - 1], url)
  }

  function Titled(urls: seq<string>, metadata: seq<Metadata>): seq<WebSearchResult> {
    seq(|urls|, i requires 0 <= i < |urls| => WebSearchResult(urls[i], LastTitle(metadata, urls[i])))
  }

  /** What a sources event means; the empty list stands for "not a sources event". */
  function Parsed(sources: seq<Source>): seq<WebSearchResult> {
    Titled(FirstSeen(SearchUrls(sources)), AllMetadata(sources))
  }

  /** Go's map lookup, with "" for a missing key. */
  function Lookup(m: map<string, string>, key: string): string {
    if key in m then m[key] else ""
  }

  method ParseOpenWebUISources(sources: seq<Source>) returns (results: seq<WebSearchResult>)
    ensures results == Parsed(sources)
  {
    var titleByURL := CollectTitles(sources);
    var seen: set<string> := {};
    results := [];
    for i := 0 to |sources|
      invariant Listed(results, seen, SearchUrls(sources[..i]), titleByURL)
    {
      assert sources[..i + 1][..i] == sources[..i];
      if sources[i].kind == "web_search" {
        results, seen := ListUrls(results, seen, SearchUrls(sources[..i]), sources[i].urls, titleByURL);
      } else {
        assert SearchUrls(sources[..i]) + [] == SearchUrls(sources[..i]);
      }
    }
    assert sources[..|sources|] == sources;
    forall i | 0 <= i < |results| ensures results[i] == Parsed(sources)[i] {
      assert Lookup(titleByURL, results[i].url) == LastTitle(AllMetadata(sources), results[i].url);
    }
  }

  /** The results and the seen set after processing the URLs in `done`. */
  ghost predicate Listed(results: seq<WebSearchResult>, seen: set<string>, done: seq<string>,
      titles: map<string, string>) {
    && (forall u :: u in seen <==> u in done)
    && |results| == |FirstSeen(done)|
    && forall i :: 0 <= i < |results| ==>
        results[i] == WebSearchResult(FirstSeen(done)[i], Lookup(titles, FirstSeen(done)[i]))
  }

  method ListUrls(before: seq<WebSearchResult>, seenBefore: set<string>, ghost done: seq<string>,
                  urls: seq<string>, titleByURL: map<string, string>)
    returns (results: seq<WebSearchResult>, seen: set<string>)
    requires Listed(before, seenBefore, done, titleByURL)
    ensures Listed(results, seen, done + urls, titleByURL)
  {
    results, seen := before, seenBefore;
    assert done + urls[..0] == done;
    for j := 0 to |urls|
      invariant Listed(results, seen, done + urls[..j], titleByURL)
    {
      var u := urls[j];
      FirstSeenSnoc(done + urls[..j], u);
      assert done + urls[..j + 1] == done + urls[..j] + [u];
      if u !in seen {
        seen := seen + {u};
        results := results + [WebSearchResult(u, Lookup(titleByURL, u))];
      }
    }
    assert urls[..|urls|] == urls;
  }

  method CollectTitles(sources: seq<Source>) returns (titleByURL: map<string, string>)
    ensures forall u :: Lookup(titleByURL, u) == LastTitle(AllMetadata(sources), u)
  {
    titleByURL := map[];
    for i := 0 to |sources|
      invariant TitlesOf(titleByURL, AllMetadata(sources[..i]))
    {
      assert sources[..i + 1][..i] == sources[..i];
      titleByURL := NoteTitles(titleByURL, AllMetadata(sources[..i]), sources[i].metadata);
    }
    assert sources[..|sources|] == sources;
  }

  ghost predicate TitlesOf(titles: map<string, string>, done: seq<Metadata>) {
    forall u :: Lookup(titles, u) == LastTitle(done, u)
  }

  method NoteTitles(before: map<string, string>, ghost done: seq<Metadata>, metadata: seq<Metadata>)
    returns (titleByURL: map<string, string>)
    requires TitlesOf(before, done)
    ensures TitlesOf(titleByURL, done + metadata)
  {
    titleByURL := before;
    assert done + metadata[..0] == done;
    for j := 0 to |metadata|
      invariant TitlesOf(titleByURL, done + metadata[..j])
    {
      var m := metadata[j];
      assert done + metadata[..j + 1] == done + metadata[..j] + [m];
      assert (done + metadata[..j] + [m])[..|done| + j] == done + metadata[..j];
      if m.source != "" && m.title != "" {
        titleByURL := titleByURL[m.source := m.title];
      }
    }
    assert metadata[..|metadata|] == metadata;
  }

  /**
    The parsed list holds exactly the distinct web_search URLs in first-seen order,
    each with the last non-empty title recorded for it.
   */
  lemma ParsedSources(sources: seq<Source>)
    ensures var urls, results := SearchUrls(sources), Parsed(sources);
            && (forall u :: u in urls <==> exists i :: 0 <= i < |results| && results[i].url == u)
            && (forall i :: 0 <= i < |results| ==> results[i].title == LastTitle(AllMetadata(sources), results[i].url))
            && (forall i, j :: 0 <= i < j < |results| ==>
                  && results[i].url in urls && results[j].url in urls
                  && IndexOf(urls, results[i].url) < IndexOf(urls, results[j].url))
  {
    var urls, results := SearchUrls(sources), Parsed(sources);
    FirstSeenIsDedup(urls);
    hide SearchUrls, FirstSeen, AllMetadata, LastTitle, IndexOf;
    forall u | u in urls ensures exists i :: 0 <= i < |results| && results[i].url == u {
      var i :| 0 <= i < |FirstSeen(urls)| && FirstSeen(urls)[i] == u;
      assert results[i].url == u;
    }
    forall i | 0 <= i < |results| ensures results[i].url in urls {
      assert results[i].url == FirstSeen(urls)[i];
    }
  }

  // ----- the footer -----

  function Decimal(n: nat): string {
    (if n < 10 then "" else Decimal(n / 10)) + [('0' as int + n % 10) as char]
  }

  function FooterLine(number: nat, r: WebSearchResult): string {
    "\n[" + Decimal(number) + "] " + (if r.title != "" then r.title + " \U{2014} " else "") + r.url
  }

  function FooterLines(results: seq<WebSearchResult>): string {
    if results == [] then ""
    else FooterLines(results[..|results| - 1]) + FooterLine(|results|, results[|results| - 1])
  }

  function Footer(results: seq<WebSearchResult>): string {
    if results == [] then "" else "\n\n---\nSources:" + FooterLines(results)
  }

  method FooterLineOf(number: nat, r: WebSearchResult) returns (line: string)
    ensures line == FooterLine(number, r)
  {
    if r.title != "" {
      line := "\n[" + Decimal(number) + "] " + (r.title + " \U{2014} ") + r.url;
    } else {
      line := "\n[" + Decimal(number) + "] " + "" + r.url;
    }
  }

  method FormatWebSearchFooter(results: seq<WebSearchResult>) returns (footer: string)
    ensures footer == Footer(results)
  {
    if |results| == 0 {
      return "";
    }
    footer := "\n\n---\nSources:";
    for i := 0 to |results|
      invariant footer == "\n\n---\nSources:" + FooterLines(results[..i])
    {
      var line := FooterLineOf(i + 1, results[i]);
      footer := footer + line;
      assert results[..i + 1][..i] == results[..i];
    }
    assert results[..|results|] == results;
  }
}
