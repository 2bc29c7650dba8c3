/**
 * The Wikipedia tool: `search:<term>` lists the titles the encyclopedia
 * returns for a term, `read:<title>` gives one article's title, summary and
 * address. The encyclopedia itself is a parameter (`Library`): what it
 * answers for a term or a title, including the errors it raises.
 */
module WikipediaTool {
  import opened Text
  import opened Tools

  /** What `wikipedia.search(term, results=5)` does: return titles or raise. */
  datatype SearchOutcome = Titles(titles: seq<string>) | SearchRaised(message: string)

  /**
   * What `wikipedia.page(title)` followed by `wikipedia.summary(title)` does:
   * give a page, or raise a DisambiguationError with its options, a
   * PageError, or any other exception.
   */
  datatype PageOutcome =
    | Page(title: string, url: string, summary: string)
    | Ambiguous(options: seq<string>)
    | Missing
    | PageRaised(message: string)

  datatype Library = Library(search: string -> SearchOutcome, read: string -> PageOutcome)

  /** A query names a search or an article, or neither. */
  datatype Request = Search(term: string) | Read(title: string) | Unprefixed

  const NoArticles: string := "No Wikipedia articles found."
  const SearchHeader: string := "Found these articles:"
  const AmbiguousHeader: string := "This title is ambiguous. Did you mean:"
  const NotFound: string := "No Wikipedia article found with title: "
  const BadPrefix: string := "Error: Query must start with 'search:' or 'read:'"

  /** Python's `min` on two integers. */
  function Min(a: int, b: int): int {
    if a <= b then a else b
  }

  /** How `run` reads its query: the prefix, then the rest with surrounding space stripped. */
  function ParseRequest(query: string): (r: Request)
    ensures r.Search? <==> StartsWith(query, "search:")
    ensures r.Read? <==> !StartsWith(query, "search:") && StartsWith(query, "read:")
    ensures r.Search? ==> r.term == Strip(query[7..])
    ensures r.Read? ==> r.title == Strip(query[5..])
  {
    if StartsWith(query, "search:") then Search(Strip(query[7..]))
    else if StartsWith(query, "read:") then Read(Strip(query[5..]))
    else Unprefixed
  }

  /** `[f"- {item}" for item in items]`. */
  function Bullets(items: seq<string>): (r: seq<string>)
    ensures |r| == |items|
    ensures forall k :: 0 <= k < |r| ==> r[k] == "- " + items[k]
  {
    if items == [] then [] else ["- " + items[0]] + Bullets(items[1..])
  }

  /** A header line and then one bulleted line per item. */
  function Listing(header: string, items: seq<string>): (r: string)
    ensures StartsWith(r, header + "\n")
    ensures items == [] ==> r == header + "\n"
  {
    var r := header + "\n" + Join(Bullets(items), "\n");
    assert r[..|header| + 1] == header + "\n";
    r
  }

  /** The answer to a search. */
  function SearchReport(outcome: SearchOutcome): (r: ToolResult)
    ensures r.success <==> outcome.Titles?
    ensures outcome == Titles([]) ==> r.result == NoArticles
    ensures outcome.SearchRaised? ==> r.result == "Error: " + outcome.message
  {
    match outcome
    case SearchRaised(message) => Failed("Error: " + message)
    case Titles(titles) =>
      if titles == [] then Succeeded(NoArticles)
      else Succeeded(Listing(SearchHeader, titles))
  }

  /** The answer to a request for the article `title`. */
  function ReadReport(title: string, outcome: PageOutcome): (r: ToolResult)
    ensures r.success <==> outcome.Page?
    ensures outcome == Missing ==> r.result == NotFound + title
    ensures outcome.Ambiguous? ==> StartsWith(r.result, AmbiguousHeader + "\n")
    ensures outcome.PageRaised? ==> r.result == "Error: " + outcome.message
  {
    match outcome
    case Page(pageTitle, url, summary) =>
      Succeeded("Title: " + pageTitle + "\n\nSummary:\n" + summary + "\n\nFull URL: " + url)
    case Ambiguous(options) =>
      Failed(Listing(AmbiguousHeader, options[..Min(5, |options|)]))
    case Missing =>
      Failed(NotFound + title)
    case PageRaised(message) =>
      Failed("Error: " + message)
  }

  /** `WikipediaTool.run(query)` against the encyclopedia `lib`. */
  function Run(query: string, lib: Library): (r: ToolResult)
    ensures StartsWith(query, "search:") ==> r == SearchReport(lib.search(Strip(query[7..])))
    ensures !StartsWith(query, "search:") && StartsWith(query, "read:") ==>
      r == ReadReport(Strip(query[5..]), lib.read(Strip(query[5..])))
    ensures !StartsWith(query, "search:") && !StartsWith(query, "read:") ==> r == Failed(BadPrefix)
    ensures r.success ==> StartsWith(query, "search:") || StartsWith(query, "read:")
    ensures !r.success ==>
      || r.result == BadPrefix
      || StartsWith(r.result, "Error: ")
      || StartsWith(r.result, NotFound)
      || StartsWith(r.result, AmbiguousHeader + "\n")
  {
    match ParseRequest(query)
    case Search(term) => SearchReport(lib.search(term))
    case Read(title) => ReadReport(title, lib.read(title))
    case Unprefixed => Failed(BadPrefix)
  }

  // ---------------------------------------------------------------- properties

  /** `search:<rest>` searches for `rest` with its surrounding blanks removed. */
  lemma SearchQuery(rest: string, lib: Library)
    ensures ParseRequest("search:" + rest) == Search(Strip(rest))
    ensures Run("search:" + rest, lib) == SearchReport(lib.search(Strip(rest)))
  {
    var q := "search:" + rest;
    assert StartsWith(q, "search:") && q[7..] == rest;
  }

  /** `read:<rest>` reads the article `rest` with its surrounding blanks removed. */
  lemma ReadQuery(rest: string, lib: Library)
    ensures ParseRequest("read:" + rest) == Read(Strip(rest))
    ensures Run("read:" + rest, lib) == ReadReport(Strip(rest), lib.read(Strip(rest)))
  {
    var q := "read:" + rest;
    assert !StartsWith(q, "search:") by { assert q[0] != "search:"[0]; }
    assert StartsWith(q, "read:") && q[5..] == rest;
  }

  /** A term written between blanks after `search:` is the term searched for. */
  lemma SearchTermStripped(pre: string, term: string, post: string)
    requires AllSpace(pre) && AllSpace(post)
    requires term == [] || (!IsSpace(term[0]) && !IsSpace(term[|term| - 1]))
    ensures ParseRequest("search:" + pre + term + post) == Search(term)
  {
    var q := "search:" + pre + term + post;
    assert StartsWith(q, "search:");
    assert q[7..] == pre + term + post;
    StripSurrounded(pre, term, post);
  }

  /** A title written between blanks after `read:` is the title read. */
  lemma ReadTitleStripped(pre: string, title: string, post: string)
    requires AllSpace(pre) && AllSpace(post)
    requires title == [] || (!IsSpace(title[0]) && !IsSpace(title[|title| - 1]))
    ensures ParseRequest("read:" + pre + title + post) == Read(title)
  {
    var q := "read:" + pre + title + post;
    assert !StartsWith(q, "search:") by { assert q[0] != "search:"[0]; }
    assert StartsWith(q, "read:");
    assert q[5..] == pre + title + post;
    StripSurrounded(pre, title, post);
  }

  /** No item holds a line break. */
  predicate OneLineEach(items: seq<string>) {
    forall k :: 0 <= k < |items| ==> '\n' !in items[k]
  }

  /** A header then one line per item: the lines of the text read back as exactly those. */
  lemma ListingLines(header: string, items: seq<string>)
    requires '\n' !in header && items != []
    requires OneLineEach(items)
    ensures Split(Listing(header, items), '\n') == [header] + Bullets(items)
  {
    var lines := [header] + Bullets(items);
    assert lines[1..] == Bullets(items);
    assert Join(lines, "\n") == header + "\n" + Join(Bullets(items), "\n");
    forall k | 0 <= k < |lines|
      ensures '\n' !in lines[k]
    {
      if k > 0 {
        assert lines[k] == "- " + items[k - 1];
      }
    }
    SplitOfJoin(lines, '\n');
  }

  /** Neither listing header holds a line break. */
  lemma HeadersSingleLine()
    ensures '\n' !in SearchHeader && '\n' !in AmbiguousHeader
  {
  }

  /** A search that finds titles lists each of them, in order, one per line under the header. */
  lemma SearchListsTitles(titles: seq<string>)
    requires titles != []
    requires OneLineEach(titles)
    ensures SearchReport(Titles(titles)).success
    ensures Split(SearchReport(Titles(titles)).result, '\n') == [SearchHeader] + Bullets(titles)
  {
    HeadersSingleLine();
    ListingLines(SearchHeader, titles);
  }

  /**
   * An ambiguous title fails and lists the first five options at most, in
   * order, one per line under the header.
   */
  lemma AmbiguousListsFirstFive(title: string, options: seq<string>)
    requires options != []
    requires OneLineEach(options)
    ensures !ReadReport(title, Ambiguous(options)).success
    ensures var lines := Split(ReadReport(title, Ambiguous(options)).result, '\n');
      && lines == [AmbiguousHeader] + Bullets(options[..Min(5, |options|)])
      && |lines| <= 6
  {
    HeadersSingleLine();
    ListingLines(AmbiguousHeader, options[..Min(5, |options|)]);
  }

  /**
   * An article's answer opens with its title line and closes with its address
   * line; between them come a blank line, `Summary:`, the summary's own lines
   * and another blank line.
   */
  lemma PageReportLines(title: string, pageTitle: string, url: string, summary: string)
    requires '\n' !in pageTitle && '\n' !in url
    ensures var lines := Split(ReadReport(title, Page(pageTitle, url, summary)).result, '\n');
      && |lines| >= 2
      && lines[0] == "Title: " + pageTitle
      && lines[|lines| - 1] == "Full URL: " + url
    ensures Split(ReadReport(title, Page(pageTitle, url, summary)).result, '\n')
         == ["Title: " + pageTitle, "", "Summary:"] + Split(summary, '\n') + ["", "Full URL: " + url]
  {
    ArticleLines(pageTitle, url, summary);
    ArticleSplit(pageTitle, url, summary);
  }

  /** The answer's text as its lines joined by newlines, innermost last. */
  lemma ArticleText(pageTitle: string, url: string, summary: string)
    ensures "Title: " + pageTitle + "\n\nSummary:\n" + summary + "\n\nFull URL: " + url
         == ("Title: " + pageTitle) + ['\n'] + ([] + ['\n'] + ("Summary:" + ['\n'] + (summary + ['\n'] + ([] + ['\n'] + ("Full URL: " + url)))))
  {
    assert "\n\nSummary:\n" == ['\n'] + ([] + ['\n'] + ("Summary:" + ['\n']));
    assert "\n\nFull URL: " == ['\n'] + ([] + ['\n'] + "Full URL: ");
  }

  lemma ArticleSplit(pageTitle: string, url: string, summary: string)
    requires '\n' !in pageTitle && '\n' !in url
    ensures Split("Title: " + pageTitle + "\n\nSummary:\n" + summary + "\n\nFull URL: " + url, '\n')
         == ["Title: " + pageTitle, "", "Summary:"] + Split(summary, '\n') + ["", "Full URL: " + url]
  {
    ArticleText(pageTitle, url, summary);
    LinesAround("Title: " + pageTitle, "Summary:", summary, "Full URL: " + url);
  }

  /** The lines of `head`, a blank line, `name`, the body's lines, a blank line and `tail`. */
  lemma LinesAround(head: string, name: string, body: string, tail: string)
    requires '\n' !in head && '\n' !in name && '\n' !in tail
    ensures Split(head + ['\n'] + ([] + ['\n'] + (name + ['\n'] + (body + ['\n'] + ([] + ['\n'] + tail)))), '\n')
         == [head, "", name] + Split(body, '\n') + ["", tail]
  {
    var e: string := [];
    var last := e + ['\n'] + tail;
    var middle := body + ['\n'] + last;
    var titled := name + ['\n'] + middle;
    var blank := e + ['\n'] + titled;
    SplitAfter(e, '\n', tail);
    SplitWithoutSeparator(tail, '\n');
    assert Split(last, '\n') == [e, tail];
    SplitConcat(body, '\n', last);
    SplitAfter(name, '\n', middle);
    SplitAfter(e, '\n', titled);
    SplitAfter(head, '\n', blank);
    Assemble(head, name, Split(body, '\n'), tail);
  }

  lemma Assemble(head: string, name: string, lines: seq<string>, tail: string)
    ensures [head] + ([[]] + ([name] + (lines + [[], tail]))) == [head, [], name] + lines + [[], tail]
  {
  }


  lemma Regroup(a: string, b: string, c: string, d: string, e: string, f: string, sep: char)
    ensures a + ([sep] + b) + c + (d + [sep] + e) + f == a + [sep] + (b + c + d) + [sep] + (e + f)
  {
  }

  lemma ArticleLines(pageTitle: string, url: string, summary: string)
    requires '\n' !in pageTitle && '\n' !in url
    ensures var lines := Split("Title: " + pageTitle + "\n\nSummary:\n" + summary + "\n\nFull URL: " + url, '\n');
      && |lines| >= 2
      && lines[0] == "Title: " + pageTitle
      && lines[|lines| - 1] == "Full URL: " + url
  {
    var head := "Title: " + pageTitle;
    assert "\n\nSummary:\n" == ['\n'] + "\nSummary:\n";
    assert "\n\nFull URL: " == "\n" + ['\n'] + "Full URL: ";
    Regroup(head, "\nSummary:\n", summary, "\n", "Full URL: ", url, '\n');
    OuterLines(head, "\nSummary:\n" + summary + "\n", "Full URL: " + url, '\n');
  }
}
