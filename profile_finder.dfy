/** The LinkedIn sourcing agent: a Google Custom Search for
    `site:linkedin.com/in/` pages, paged ten results at a time from start
    1, 11 and 21, turned into candidates whose name is read off the profile
    URL; a fixed two-profile list stands in when the credentials are missing
    or nothing is found. The search service is a parameter. */
module ProfileFinder {
  import opened Wrappers
  import opened Candidates
  import PyStr

  // ---------------------------------------------------------------------
  // The name in a profile URL
  // ---------------------------------------------------------------------

  /** The profile's path segment: after the first "/in/", up to the next
      "/in/", then up to the first "/", then up to the first "?". */
  function NameSegment(url: string): string
    requires PyStr.Find(url, "/in/") >= 0
  {
    PyStr.Before(PyStr.Before(PyStr.Before(PyStr.After(url, "/in/"), "/in/"), "/"), "?")
  }

  /** Cutting at the next "/in/" changes nothing: the segment is the text
      after the first "/in/" up to the first "/" or "?", whichever comes
      first, and it holds neither character. */
  lemma NameSegmentShape(url: string)
    requires PyStr.Find(url, "/in/") >= 0
    ensures NameSegment(url) == PyStr.Before(PyStr.Before(PyStr.After(url, "/in/"), "/"), "?")
    ensures var seg := NameSegment(url);
            var rest := PyStr.After(url, "/in/");
            |seg| <= |rest| && seg == rest[..|seg|]
            && forall i :: 0 <= i < |seg| ==> seg[i] != '/' && seg[i] != '?'
  {
    var rest := PyStr.After(url, "/in/");
    PyStr.BeforeBefore(rest, "/in/", "/");
    var a := PyStr.Before(rest, "/");
    PyStr.BeforeHasNoSep(rest, '/');
    PyStr.BeforeHasNoSep(a, '?');
    var seg := PyStr.Before(a, "?");
    assert seg == rest[..|seg|] by {
      assert a == rest[..|a|] && seg == a[..|seg|];
    }
  }

  /** `_extract_name_from_url`: "Unknown" when the URL has no "/in/";
      otherwise the segment with '-' and '_' turned into spaces, in title
      case. */
  function ExtractNameFromUrl(url: string): (name: string)
    ensures PyStr.Find(url, "/in/") < 0 ==> name == "Unknown"
  {
    if PyStr.Find(url, "/in/") < 0 then "Unknown"
    else PyStr.Title(PyStr.ReplaceChar(PyStr.ReplaceChar(NameSegment(url), '-', ' '), '_', ' '))
  }

  /** The name read from a URL with "/in/" has the segment's length, and
      its characters are the segment's, with '-' and '_' shown as spaces, a
      letter upper-cased at the start of each word and lower-cased inside
      one. */
  lemma ExtractNameAt(url: string, i: int)
    requires PyStr.Find(url, "/in/") >= 0
    requires 0 <= i < |NameSegment(url)|
    ensures var seg := NameSegment(url);
            var c := if seg[i] == '-' || seg[i] == '_' then ' ' else seg[i];
            var wordStart := i == 0 || !PyStr.IsCased(seg[i - 1]);
            |ExtractNameFromUrl(url)| == |seg|
            && ExtractNameFromUrl(url)[i] ==
                 if !PyStr.IsCased(c) then c
                 else if wordStart then PyStr.UpperChar(c) else PyStr.LowerChar(c)
  {
    var seg := NameSegment(url);
    var spaced := PyStr.ReplaceChar(PyStr.ReplaceChar(seg, '-', ' '), '_', ' ');
    PyStr.TitleAt(spaced, i);
  }

  /** The name holds no '/', '?', '-' or '_'. */
  lemma ExtractNameClean(url: string)
    ensures forall i :: 0 <= i < |ExtractNameFromUrl(url)| ==>
              ExtractNameFromUrl(url)[i] !in {'/', '?', '-', '_'}
  {
    if PyStr.Find(url, "/in/") >= 0 {
      NameSegmentShape(url);
      forall i | 0 <= i < |ExtractNameFromUrl(url)|
        ensures ExtractNameFromUrl(url)[i] !in {'/', '?', '-', '_'}
      {
        ExtractNameAt(url, 0);
        ExtractNameAt(url, i);
      }
    }
  }

  // ---------------------------------------------------------------------
  // The search
  // ---------------------------------------------------------------------

  /** The fields of a search hit that are read; a hit always has a link. */
  datatype Item = Item(link: string, snippet: Option<string>, title: Option<string>)

  /** One `cse().list(q, cx, num, start)` call. */
  datatype PageRequest = PageRequest(query: string, num: int, start: int)

  const PerPage: int := 10

  /** The search service: the items of a page, or None when the call
      raises. */
  type Search = PageRequest -> Option<seq<Item>>

  function Join(words: seq<string>, sep: string): string {
    if words == [] then "" else if |words| == 1 then words[0] else words[0] + sep + Join(words[1..], sep)
  }

  function Query(keywords: seq<string>): string {
    "site:linkedin.com/in/ " + Join(keywords, " ")
  }

  /** The candidate made from one hit. */
  function FromItem(item: Item): (c: Candidate)
    ensures c.name == Some(ExtractNameFromUrl(item.link)) && c.linkedinUrl == Some(item.link)
    ensures c.headline == Some(item.snippet.GetOr("No headline available"))
    ensures c.title == Some(item.title.GetOr("")) && c.experienceYears.None?
  {
    Candidate(Some(ExtractNameFromUrl(item.link)), Some(item.link),
              Some(item.snippet.GetOr("No headline available")), Some(item.title.GetOr("")), None)
  }

  /** `found` holds the candidates made from the first `n` hits of `all`
      (all of them when there are fewer), in order. */
  predicate FirstHits(found: seq<Candidate>, all: seq<Item>, n: int) {
    |found| == |PyStr.SliceTo(all, n)|
    && forall k :: 0 <= k < |found| ==> found[k] == FromItem(all[k])
  }

  /** `_static_data`: two fixed profiles, without a title. */
  function StaticData(): (cs: seq<Candidate>)
    ensures |cs| == 2 && forall i :: 0 <= i < 2 ==> cs[i].name.Some? && cs[i].linkedinUrl.Some? && cs[i].title.None?
  {
    [Candidate(Some("John Doe"), Some("https://linkedin.com/in/johndoe"), Some("Senior Backend Engineer"), None, None),
     Candidate(Some("Jane Smith"), Some("https://linkedin.com/in/janesmith"), Some("Software Engineer"), None, None)]
  }

  /** The number of items a page returned (0 when the call raised). */
  function PageSize(search: Search, p: PageRequest): nat {
    if search(p).Some? then |search(p).value| else 0
  }

  /** All items of the requested pages, in order; None when a call raised. */
  function Replies(search: Search, pages: seq<PageRequest>): Option<seq<Item>> {
    if pages == [] then Some([])
    else
      var before := Replies(search, pages[..|pages| - 1]);
      var last := search(pages[|pages| - 1]);
      if before.None? || last.None? then None else Some(before.value + last.value)
  }

  /** Requesting one more page adds its items at the end. */
  lemma RepliesSnoc(search: Search, pages: seq<PageRequest>, p: PageRequest)
    ensures Replies(search, pages + [p]) ==
              if Replies(search, pages).None? || search(p).None? then None
              else Some(Replies(search, pages).value + search(p).value)
  {
    assert (pages + [p])[..|pages|] == pages;
  }

  /** The inner loop of the search: the hits of one page are added until
      `numResults` candidates are known. */
  method AppendHits(found: seq<Candidate>, ghost before: seq<Item>, items: seq<Item>, numResults: int)
    returns (found': seq<Candidate>)
    requires FirstHits(found, before, numResults) && |before| < numResults
    ensures FirstHits(found', before + items, numResults)
  {
    found' := found;
    var i := 0;
    while i < |items| && |found'| < numResults
      invariant 0 <= i <= |items|
      invariant |found'| == |before| + i <= numResults
      invariant forall k :: 0 <= k < |found'| ==> found'[k] == FromItem((before + items)[k])
    {
      found' := found' + [FromItem(items[i])];
      i := i + 1;
    }
  }

  /** The requests of a search: page k starts at 1 + 10k and asks for
      between 1 and 10 results. */
  predicate WellPaged(pages: seq<PageRequest>, query: string) {
    |pages| <= 3 && forall k :: 0 <= k < |pages| ==>
      pages[k].query == query && pages[k].start == 1 + PerPage * k && 1 <= pages[k].num <= PerPage
  }

  /** One more well-formed request keeps the requests well paged. */
  lemma WellPagedSnoc(pages: seq<PageRequest>, query: string, p: PageRequest)
    requires WellPaged(pages, query) && |pages| < 3
    requires p.query == query && p.start == 1 + PerPage * |pages| && 1 <= p.num <= PerPage
    ensures WellPaged(pages + [p], query)
  {
  }

  /** Every requested page came back full. */
  predicate AllFull(search: Search, pages: seq<PageRequest>) {
    forall k :: 0 <= k < |pages| ==> PageSize(search, pages[k]) >= PerPage
  }

  /** Adding a page after full pages keeps every page but the last full. */
  lemma FullPagesSnoc(search: Search, pages: seq<PageRequest>, p: PageRequest)
    requires AllFull(search, pages)
    ensures forall k :: 0 <= k < |pages + [p]| - 1 ==> PageSize(search, (pages + [p])[k]) >= PerPage
    ensures PageSize(search, p) >= PerPage ==> AllFull(search, pages + [p])
  {
  }

  /** How many items the pages returned, a raising call counting none. */
  function HitCount(search: Search, pages: seq<PageRequest>): nat {
    if pages == [] then 0 else HitCount(search, pages[..|pages| - 1]) + PageSize(search, pages[|pages| - 1])
  }

  /** When no call raised, the items gathered are as many as the pages
      returned. */
  lemma {:induction false} RepliesCount(search: Search, pages: seq<PageRequest>)
    requires Replies(search, pages).Some?
    ensures |Replies(search, pages).value| == HitCount(search, pages)
    decreases |pages|
  {
    if pages != [] {
      RepliesCount(search, pages[..|pages| - 1]);
    }
  }

  /** `min(per_page, num_results - len(candidates))` with `known`
      candidates. */
  function Wanted(numResults: int, known: int): int {
    if PerPage < numResults - known then PerPage else numResults - known
  }

  /** Each page asked for the hits still missing, at most a page: page k
      follows the items of the pages before it. */
  predicate AskedForMissing(search: Search, pages: seq<PageRequest>, numResults: int) {
    forall k :: 0 <= k < |pages| ==> pages[k].num == Wanted(numResults, HitCount(search, pages[..k]))
  }

  /** A request for the hits missing after the pages so far keeps every
      request asking for the missing hits. */
  lemma AskedSnoc(search: Search, pages: seq<PageRequest>, p: PageRequest, numResults: int)
    requires AskedForMissing(search, pages, numResults)
    requires p.num == Wanted(numResults, HitCount(search, pages))
    ensures AskedForMissing(search, pages + [p], numResults)
  {
    forall k | 0 <= k < |pages| + 1
      ensures (pages + [p])[k].num == Wanted(numResults, HitCount(search, (pages + [p])[..k]))
    {
      if k < |pages| {
        assert (pages + [p])[..k] == pages[..k];
      } else {
        assert (pages + [p])[..k] == pages;
      }
    }
  }

  class LinkedInSourcingAgent {
    /** Set once when the agent is built: no API key or no engine id. */
    const useStatic: bool

    constructor (apiKey: Option<string>, searchEngineId: Option<string>)
      ensures useStatic <==> apiKey.None? || apiKey.value == [] || searchEngineId.None? || searchEngineId.value == []
    {
      useStatic := apiKey.None? || apiKey.value == [] || searchEngineId.None? || searchEngineId.value == [];
    }

    /** `search_linkedin`. `pages` records the calls made. Without
        credentials: the static list, no calls. Otherwise pages of
        `start` 1, 11, 21 are fetched while fewer than `numResults`
        candidates are known and every page so far was full; the result is
        the first `numResults` hits as candidates, or the static list when
        there are none. A raising call makes the search raise (None). */
    method SearchLinkedIn(keywords: seq<string>, numResults: int, search: Search)
      returns (r: Option<seq<Candidate>>, ghost pages: seq<PageRequest>)
      ensures useStatic ==> r == Some(StaticData()) && pages == []
      ensures !useStatic ==> WellPaged(pages, Query(keywords)) && AskedForMissing(search, pages, numResults)
      ensures !useStatic ==> (r.None? <==> Replies(search, pages).None?)
      ensures !useStatic && r.Some? ==>
                var all := Replies(search, pages).value;
                (r.value == StaticData() && PyStr.SliceTo(all, numResults) == [])
                || (FirstHits(r.value, all, numResults) && r.value != [])
      ensures !useStatic && r.Some? ==> StoppedRightly(search, pages, numResults)
      ensures r.Some? ==> r.value == StaticData() || 1 <= |r.value| <= numResults
    {
      if useStatic {
        return Some(StaticData()), [];
      }
      var found;
      found, pages := FetchPages(Query(keywords), numResults, search);
      if found.None? {
        return None, pages;
      }
      r := Some(if found.value != [] then found.value else StaticData());
    }
  }

  /** Why the paging stopped: every page but the last was full, and the
      last was short, or enough hits were known, or three pages were
      fetched. */
  predicate StoppedRightly(search: Search, pages: seq<PageRequest>, numResults: int) {
    && Replies(search, pages).Some?
    && (forall k :: 0 <= k < |pages| - 1 ==> PageSize(search, pages[k]) >= PerPage)
    && (|Replies(search, pages).value| >= numResults || |pages| == 3
        || (pages != [] && PageSize(search, pages[|pages| - 1]) < PerPage))
  }

  /** What holds between two pages of the search: the pages asked for so
      far are well formed and all came back full, and `found` holds the
      first hits of their items. */
  predicate Fetching(search: Search, query: string, numResults: int,
                     pages: seq<PageRequest>, found: seq<Candidate>)
  {
    && WellPaged(pages, query)
    && Replies(search, pages).Some?
    && FirstHits(found, Replies(search, pages).value, numResults)
    && (pages != [] ==> numResults >= 1)
    && AllFull(search, pages)
    && AskedForMissing(search, pages, numResults)
  }

  /** One turn of the paging loop: ask for the next page, for at most the
      hits still missing, and add its items to `found`. */
  method FetchPage(query: string, numResults: int, search: Search, start: int, found: seq<Candidate>,
                   ghost pages: seq<PageRequest>)
    returns (items: Option<seq<Item>>, found': seq<Candidate>, ghost pages': seq<PageRequest>)
    requires Fetching(search, query, numResults, pages, found)
    requires start == 1 + PerPage * |pages| && |pages| < 3 && |found| < numResults
    ensures |pages'| == |pages| + 1 && pages'[..|pages|] == pages && WellPaged(pages', query)
    ensures pages'[|pages|].num == Wanted(numResults, |found|) && AskedForMissing(search, pages', numResults)
    ensures items == search(pages'[|pages|])
    ensures items.None? <==> Replies(search, pages').None?
    ensures items.Some? ==>
              FirstHits(found', Replies(search, pages').value, numResults)
              && (forall k :: 0 <= k < |pages| ==> PageSize(search, pages'[k]) >= PerPage)
              && (|items.value| >= PerPage ==> Fetching(search, query, numResults, pages', found'))
  {
    var request := PageRequest(query, if PerPage < numResults - |found| then PerPage else numResults - |found|, start);
    items := search(request);
    ghost var all := Replies(search, pages).value;
    RepliesCount(search, pages);
    AskedSnoc(search, pages, request, numResults);
    RepliesSnoc(search, pages, request);
    WellPagedSnoc(pages, query, request);
    FullPagesSnoc(search, pages, request);
    pages' := pages + [request];
    assert pages'[..|pages|] == pages;
    found' := found;
    if items.Some? {
      found' := AppendHits(found, all, items.value, numResults);
    }
  }

  /** The paging loop of `search_linkedin`. */
  method FetchPages(query: string, numResults: int, search: Search)
    returns (r: Option<seq<Candidate>>, ghost pages: seq<PageRequest>)
    ensures WellPaged(pages, query) && AskedForMissing(search, pages, numResults)
    ensures r.None? <==> Replies(search, pages).None?
    ensures r.Some? ==> FirstHits(r.value, Replies(search, pages).value, numResults)
                        && StoppedRightly(search, pages, numResults)
                        && (r.value == [] || |r.value| <= numResults)
  {
    pages := [];
    var found: seq<Candidate> := [];
    var start := 1;
    while |found| < numResults && start <= 30
      invariant start == 1 + PerPage * |pages| && |pages| <= 3
      invariant Fetching(search, query, numResults, pages, found)
      decreases 31 - start
    {
      var items;
      items, found, pages := FetchPage(query, numResults, search, start, found, pages);
      if items.None? {
        return None, pages;
      }
      if |items.value| < PerPage {
        break;
      }
      start := start + PerPage;
    }
    r := Some(found);
  }
}
