/** The extractors of the SEO analyser. Each reads the parsed page and writes a report made of
    fixed line formats, one line per element found, or a fixed sentinel text when nothing is found. */
module SeoAnalysis {
  import opened Seqs
  import opened Text
  import opened Dom

  const NoTitleFound := "No title found"
  const NoDescriptionFound := "No meta description found"
  const NoKeywordsFound := "No meta keywords found"
  const NoAltText := "No alt text"
  const NoViewportFound := "No viewport meta tag found"
  /** How Python formats the `None` that `get` returns for a missing attribute. */
  const PyNone := "None"
  const LocalhostPrefix := "http://localhost"

  const TitleQuery := Tag("title")
  const DescriptionQuery := TagWithAttr("meta", "name", "description")
  const KeywordsQuery := TagWithAttr("meta", "name", "keywords")
  const ViewportQuery := TagWithAttr("meta", "name", "viewport")
  const ImageQuery := Tag("img")
  const LinkQuery := TagHasAttr("a", "href")
  const StructuredDataQuery := TagWithAttr("script", "type", "application/ld+json")

  // ---------------------------------------------------------------------------
  // Meta tags and viewport: the first match, or a sentinel.
  // ---------------------------------------------------------------------------

  /** The first match of `q` exists and has no `content` attribute, so reading it raises. */
  predicate MissingContent(doc: Document, q: Query) {
    var found := FindAll(doc, q);
    found != [] && "content" !in found[0].attrs
  }

  /** What a content line shows: the first match's `content`, or the sentinel when nothing matches. */
  function ContentField(doc: Document, q: Query, sentinel: string): string
    requires !MissingContent(doc, q)
  {
    var found := FindAll(doc, q);
    if found == [] then sentinel else found[0].attrs["content"]
  }

  /** What the title line shows: `soup.title.string` of the first `<title>`, printed `None` when
      it has no single string child, or the sentinel when the page has no title. */
  function TitleField(doc: Document): (r: string)
    ensures FindAll(doc, TitleQuery) == [] ==> r == NoTitleFound
    ensures FindAll(doc, TitleQuery) != [] ==>
              r == match FindAll(doc, TitleQuery)[0].onlyString case Some(t) => t case None => PyNone
  {
    FindIsFirstOfFindAll(doc, TitleQuery);
    match Find(doc, TitleQuery)
    case None => NoTitleFound
    case Some(t) => match t.onlyString case Some(text) => text case None => PyNone
  }

  /** `tag['content'] if tag else sentinel`, applied to the result of `find`. */
  function ContentOrSentinel(found: Option<Element>, sentinel: string): (r: Result<string>)
    ensures found.None? ==> r == Ok(sentinel)
    ensures found.Some? ==> (r.Err? <==> "content" !in found.value.attrs)
    ensures r.Err? ==> r.error == KeyError("content")
    ensures found.Some? && r.Ok? ==> r.value == found.value.attrs["content"]
  {
    match found
    case None => Ok(sentinel)
    case Some(e) => Subscript(e, "content")
  }

  lemma {:induction false} ContentOrSentinelOfFind(doc: Document, q: Query, sentinel: string)
    ensures ContentOrSentinel(Find(doc, q), sentinel).Err? <==> MissingContent(doc, q)
    ensures ContentOrSentinel(Find(doc, q), sentinel).Err? ==>
      ContentOrSentinel(Find(doc, q), sentinel).error == KeyError("content")
    ensures ContentOrSentinel(Find(doc, q), sentinel).Ok? ==>
      ContentOrSentinel(Find(doc, q), sentinel).value == ContentField(doc, q, sentinel)
  {
    FindIsFirstOfFindAll(doc, q);
  }

  /** `analyze_meta_tags`: three lines, Title, Meta Description, Meta Keywords, each from the
      first matching element or its sentinel; a matching `<meta>` without `content` raises. */
  function AnalyzeMetaTags(doc: Document): (r: Result<string>)
    ensures r.Err? <==> MissingContent(doc, DescriptionQuery) || MissingContent(doc, KeywordsQuery)
    ensures r.Err? ==> r.error == KeyError("content")
    ensures r.Ok? ==> r.value == Unlines([
                        "Title: " + TitleField(doc),
                        "Meta Description: " + ContentField(doc, DescriptionQuery, NoDescriptionFound),
                        "Meta Keywords: " + ContentField(doc, KeywordsQuery, NoKeywordsFound)])
  {
    ContentOrSentinelOfFind(doc, DescriptionQuery, NoDescriptionFound);
    ContentOrSentinelOfFind(doc, KeywordsQuery, NoKeywordsFound);
    var title := TitleField(doc);
    match ContentOrSentinel(Find(doc, DescriptionQuery), NoDescriptionFound)
    case Err(e) => Err(e)
    case Ok(description) =>
      match ContentOrSentinel(Find(doc, KeywordsQuery), NoKeywordsFound)
      case Err(e) => Err(e)
      case Ok(keywords) =>
        Ok(Unlines(["Title: " + title, "Meta Description: " + description, "Meta Keywords: " + keywords]))
  }

  /** Read back, the meta-tag report is exactly three lines in the order Title, Meta Description,
      Meta Keywords. */
  lemma {:induction false} MetaTagsThreeLines(doc: Document)
    requires !MissingContent(doc, DescriptionQuery) && !MissingContent(doc, KeywordsQuery)
    requires NoNewline(TitleField(doc))
    requires NoNewline(ContentField(doc, DescriptionQuery, NoDescriptionFound))
    requires NoNewline(ContentField(doc, KeywordsQuery, NoKeywordsFound))
    ensures AnalyzeMetaTags(doc).Ok?
    ensures Lines(AnalyzeMetaTags(doc).value) == [
              "Title: " + TitleField(doc),
              "Meta Description: " + ContentField(doc, DescriptionQuery, NoDescriptionFound),
              "Meta Keywords: " + ContentField(doc, KeywordsQuery, NoKeywordsFound)]
  {
    var title := TitleField(doc);
    var description := ContentField(doc, DescriptionQuery, NoDescriptionFound);
    var keywords := ContentField(doc, KeywordsQuery, NoKeywordsFound);
    NoNewlineAppend("Title: ", title);
    NoNewlineAppend("Meta Description: ", description);
    NoNewlineAppend("Meta Keywords: ", keywords);
    var ls := ["Title: " + title, "Meta Description: " + description, "Meta Keywords: " + keywords];
    assert forall k :: 0 <= k < |ls| ==> NoNewline(ls[k]);
    LinesOfUnlines(ls);
  }

  /** `analyze_viewport`: one line from the first `<meta name="viewport">`, or the sentinel;
      a match without `content` raises. */
  function AnalyzeViewport(doc: Document): (r: Result<string>)
    ensures r.Err? <==> MissingContent(doc, ViewportQuery)
    ensures r.Err? ==> r.error == KeyError("content")
    ensures r.Ok? ==> r.value == Unlines(["Viewport: " + ContentField(doc, ViewportQuery, NoViewportFound)])
  {
    ContentOrSentinelOfFind(doc, ViewportQuery, NoViewportFound);
    match ContentOrSentinel(Find(doc, ViewportQuery), NoViewportFound)
    case Err(e) => Err(e)
    case Ok(content) =>
      assert Unlines(["Viewport: " + content]) == "Viewport: " + content + "\n" + Unlines([]);
      Ok("Viewport: " + content + "\n")
  }

  lemma {:induction false} ViewportOneLine(doc: Document)
    requires !MissingContent(doc, ViewportQuery)
    requires NoNewline(ContentField(doc, ViewportQuery, NoViewportFound))
    ensures AnalyzeViewport(doc).Ok?
    ensures Lines(AnalyzeViewport(doc).value) == ["Viewport: " + ContentField(doc, ViewportQuery, NoViewportFound)]
    ensures FindAll(doc, ViewportQuery) == [] ==> AnalyzeViewport(doc).value == "Viewport: " + NoViewportFound + "\n"
  {
    var line := "Viewport: " + ContentField(doc, ViewportQuery, NoViewportFound);
    NoNewlineAppend("Viewport: ", ContentField(doc, ViewportQuery, NoViewportFound));
    LinesOfUnlines([line]);
    assert Unlines([line]) == line + "\n" + Unlines([]);
  }

  // ---------------------------------------------------------------------------
  // Headings: every h1, then every h2, ..., then every h6.
  // ---------------------------------------------------------------------------

  type Level = l: nat | 1 <= l <= 6 witness 1

  function Digit(d: nat): char
    requires d <= 9
  {
    (d + '0' as int) as char
  }

  /** The tag name of a heading level: `h1` to `h6`. */
  function HeadingTag(level: Level): string {
    ['h', Digit(level)]
  }

  datatype Heading = Heading(level: Level, text: string)

  function HeadingLine(h: Heading): string {
    ['H', Digit(h.level)] + ": " + h.text
  }

  function HeadingLines(hs: seq<Heading>): (ls: seq<string>)
    ensures |ls| == |hs|
  {
    seq(|hs|, k requires 0 <= k < |hs| => HeadingLine(hs[k]))
  }

  lemma {:induction false} HeadingLinesAppend(a: seq<Heading>, b: seq<Heading>)
    ensures HeadingLines(a + b) == HeadingLines(a) + HeadingLines(b)
  {
  }

  /** Headings of the given level, one per element, with each element's text. */
  function HeadingsOf(found: seq<Element>, level: Level): (hs: seq<Heading>)
    ensures |hs| == |found|
    ensures forall k :: 0 <= k < |hs| ==> hs[k].level == level
  {
    seq(|found|, k requires 0 <= k < |found| => Heading(level, found[k].text))
  }

  /** The headings of one level, in document order. */
  function LevelHeadings(doc: Document, level: Level): (hs: seq<Heading>)
    ensures |hs| == |FindAll(doc, Tag(HeadingTag(level)))|
    ensures forall k :: 0 <= k < |hs| ==> hs[k].level == level
  {
    HeadingsOf(FindAll(doc, Tag(HeadingTag(level))), level)
  }

  /** The headings of levels 1 to `n`, grouped by level. */
  function HeadingsUpTo(doc: Document, n: nat): seq<Heading>
    requires n <= 6
  {
    if n == 0 then [] else HeadingsUpTo(doc, n - 1) + LevelHeadings(doc, n)
  }

  function AllHeadings(doc: Document): seq<Heading> {
    HeadingsUpTo(doc, 6)
  }

  /** `analyze_headings`: for each level from 1 to 6, one `H<level>: <text>` line per element. */
  method AnalyzeHeadings(doc: Document) returns (r: string)
    ensures r == Unlines(HeadingLines(AllHeadings(doc)))
  {
    r := "";
    for i := 1 to 7
      invariant r == Unlines(HeadingLines(HeadingsUpTo(doc, i - 1)))
    {
      var headers := FindAll(doc, Tag(HeadingTag(i)));
      r := AppendHeadingLines(r, headers, i);
      HeadingsUpToStep(doc, i);
    }
  }

  /** The inner loop of `analyze_headings`: one line per element of one level, appended to `r0`. */
  method AppendHeadingLines(r0: string, headers: seq<Element>, level: Level) returns (r: string)
    ensures r == r0 + Unlines(HeadingLines(HeadingsOf(headers, level)))
  {
    r := r0;
    ghost var lines := HeadingLines(HeadingsOf(headers, level));
    assert r0 + Unlines(lines[..0]) == r0;
    for k := 0 to |headers|
      invariant r == r0 + Unlines(lines[..k])
    {
      var line := HeadingLine(Heading(level, headers[k].text));
      assert line == lines[k];
      UnlinesPrefixStep(lines, k);
      assert r0 + (Unlines(lines[..k]) + line + "\n") == r0 + Unlines(lines[..k]) + line + "\n";
      r := r + line + "\n";
    }
    assert lines[..|headers|] == lines;
  }

  /** The report of levels 1 to `n` is the report of levels 1 to `n - 1` followed by level `n`'s lines. */
  lemma {:induction false} HeadingsUpToStep(doc: Document, n: Level)
    ensures Unlines(HeadingLines(HeadingsUpTo(doc, n))) ==
            Unlines(HeadingLines(HeadingsUpTo(doc, n - 1))) + Unlines(HeadingLines(LevelHeadings(doc, n)))
  {
    HeadingLinesAppend(HeadingsUpTo(doc, n - 1), LevelHeadings(doc, n));
    UnlinesAppend(HeadingLines(HeadingsUpTo(doc, n - 1)), HeadingLines(LevelHeadings(doc, n)));
  }

  /** An element whose tag is `h1` to `h6`. */
  predicate IsHeading(e: Element) {
    |e.tag| == 2 && e.tag[0] == 'h' && '1' <= e.tag[1] <= '6'
  }

  function LevelOf(e: Element): Level
    requires IsHeading(e)
  {
    e.tag[1] as int - '0' as int
  }

  function HeadingAtMost(n: nat): Element -> bool {
    (e: Element) => IsHeading(e) && LevelOf(e) <= n
  }

  function AtLevel(level: Level): Heading -> bool {
    (h: Heading) => h.level == level
  }

  lemma {:induction false} HeadingTagMatches(e: Element, level: Level)
    ensures Matches(Tag(HeadingTag(level)), e) <==> IsHeading(e) && LevelOf(e) == level
  {
  }

  lemma {:induction false} HeadingsUpToLevels(doc: Document, n: nat)
    requires n <= 6
    ensures forall k :: 0 <= k < |HeadingsUpTo(doc, n)| ==> HeadingsUpTo(doc, n)[k].level <= n
    ensures forall p, q :: 0 <= p < q < |HeadingsUpTo(doc, n)| ==>
              HeadingsUpTo(doc, n)[p].level <= HeadingsUpTo(doc, n)[q].level
  {
    if n > 0 {
      HeadingsUpToLevels(doc, n - 1);
    }
  }

  /** Every line of level i comes before every line of level j when i < j. */
  lemma {:induction false} HeadingsGroupedByLevel(doc: Document)
    ensures forall p, q :: 0 <= p < q < |AllHeadings(doc)| ==>
              AllHeadings(doc)[p].level <= AllHeadings(doc)[q].level
  {
    HeadingsUpToLevels(doc, 6);
  }

  lemma {:induction false} HeadingsUpToAtLevel(doc: Document, n: nat, level: Level)
    requires n <= 6
    ensures Filter(HeadingsUpTo(doc, n), AtLevel(level)) == if level <= n then LevelHeadings(doc, level) else []
  {
    if n == 0 {
      assert HeadingsUpTo(doc, n) == [];
    } else {
      var front := HeadingsUpTo(doc, n - 1);
      var last := LevelHeadings(doc, n);
      assert HeadingsUpTo(doc, n) == front + last;
      HeadingsUpToAtLevel(doc, n - 1, level);
      FilterAppend(front, last, AtLevel(level));
      if n == level {
        FilterAll(last, AtLevel(level));
      } else {
        FilterNone(last, AtLevel(level));
      }
    }
  }

  /** Within one level, the lines are that level's elements in document order. */
  lemma {:induction false} HeadingsWithinLevel(doc: Document, level: Level)
    ensures |Filter(AllHeadings(doc), AtLevel(level))| == |FindAll(doc, Tag(HeadingTag(level)))|
    ensures forall k :: 0 <= k < |Filter(AllHeadings(doc), AtLevel(level))| ==>
              Filter(AllHeadings(doc), AtLevel(level))[k] == Heading(level, FindAll(doc, Tag(HeadingTag(level)))[k].text)
  {
    HeadingsUpToAtLevel(doc, 6, level);
  }

  lemma {:induction false} HeadingsUpToCount(doc: Document, n: nat)
    requires n <= 6
    ensures |HeadingsUpTo(doc, n)| == |Filter(doc, HeadingAtMost(n))|
  {
    if n == 0 {
      FilterNone(doc, HeadingAtMost(0));
    } else {
      HeadingsUpToCount(doc, n - 1);
      forall e: Element ensures HeadingAtMost(n)(e) <==> HeadingAtMost(n - 1)(e) || Matcher(Tag(HeadingTag(n)))(e) {
        HeadingTagMatches(e, n);
      }
      forall e: Element ensures !(HeadingAtMost(n - 1)(e) && Matcher(Tag(HeadingTag(n)))(e)) {
        HeadingTagMatches(e, n);
      }
      FilterSplitCount(doc, HeadingAtMost(n), HeadingAtMost(n - 1), Matcher(Tag(HeadingTag(n))));
    }
  }

  /** One heading per `h1`..`h6` element; a page without headings gives the empty report. */
  lemma {:induction false} HeadingsCount(doc: Document)
    ensures |AllHeadings(doc)| == |Filter(doc, IsHeading)|
    ensures Unlines(HeadingLines(AllHeadings(doc))) == "" <==> Filter(doc, IsHeading) == []
  {
    HeadingsUpToCount(doc, 6);
    FilterCongruent(doc, HeadingAtMost(6), IsHeading);
  }

  lemma {:induction false} HeadingsUpToNoNewline(doc: Document, n: nat)
    requires n <= 6
    requires forall e :: e in doc && IsHeading(e) ==> NoNewline(e.text)
    ensures forall k :: 0 <= k < |HeadingsUpTo(doc, n)| ==> NoNewline(HeadingLine(HeadingsUpTo(doc, n)[k]))
  {
    if n > 0 {
      HeadingsUpToNoNewline(doc, n - 1);
      FindAllMembers(doc, Tag(HeadingTag(n)));
      var found := FindAll(doc, Tag(HeadingTag(n)));
      forall k | 0 <= k < |found| ensures NoNewline(found[k].text) {
        assert found[k] in found;
        HeadingTagMatches(found[k], n);
      }
    }
  }

  /** Read back, the headings report has one line per heading element, grouped by level. */
  lemma {:induction false} HeadingsReportLines(doc: Document)
    requires forall e :: e in doc && IsHeading(e) ==> NoNewline(e.text)
    ensures Lines(Unlines(HeadingLines(AllHeadings(doc)))) == HeadingLines(AllHeadings(doc))
    ensures |Lines(Unlines(HeadingLines(AllHeadings(doc))))| == |Filter(doc, IsHeading)|
  {
    HeadingsUpToNoNewline(doc, 6);
    LinesOfUnlines(HeadingLines(AllHeadings(doc)));
    HeadingsCount(doc);
  }

  // ---------------------------------------------------------------------------
  // Images: one line per <img>.
  // ---------------------------------------------------------------------------

  /** `img.get('src')` as an f-string prints it: the value, or `None` when absent. */
  function Src(e: Element): (r: string)
    ensures "src" in e.attrs ==> r == e.attrs["src"]
    ensures "src" !in e.attrs ==> r == PyNone
  {
    if "src" in e.attrs then e.attrs["src"] else PyNone
  }

  /** `alt_text if alt_text else "No alt text"`: an absent or empty `alt` falls back. */
  function AltShown(e: Element): (r: string)
    ensures r != ""
    ensures "alt" in e.attrs && e.attrs["alt"] != "" ==> r == e.attrs["alt"]
    ensures "alt" !in e.attrs || e.attrs["alt"] == "" ==> r == NoAltText
  {
    if "alt" in e.attrs && e.attrs["alt"] != "" then e.attrs["alt"] else NoAltText
  }

  function ImageLine(e: Element): string {
    "Image: " + Src(e) + ", Alt Text: " + AltShown(e)
  }

  function ImageLines(images: seq<Element>): (ls: seq<string>)
    ensures |ls| == |images|
  {
    seq(|images|, k requires 0 <= k < |images| => ImageLine(images[k]))
  }

  /** `analyze_images`. */
  method AnalyzeImages(doc: Document) returns (r: string)
    ensures r == Unlines(ImageLines(FindAll(doc, ImageQuery)))
    ensures r == "" <==> FindAll(doc, ImageQuery) == []
  {
    r := "";
    var images := FindAll(doc, ImageQuery);
    ghost var lines := ImageLines(images);
    for k := 0 to |images|
      invariant r == Unlines(lines[..k])
    {
      var img := images[k];
      var altText := if "alt" in img.attrs then Some(img.attrs["alt"]) else None;
      var src := if "src" in img.attrs then img.attrs["src"] else PyNone;
      var shown := if altText.Some? && altText.value != "" then altText.value else NoAltText;
      assert src == Src(img) && shown == AltShown(img);
      var line := "Image: " + src + ", Alt Text: " + shown;
      assert line == ImageLine(img) == lines[k];
      UnlinesPrefixStep(lines, k);
      r := r + line + "\n";
    }
    assert lines[..|images|] == lines;
  }

  /** Read back, the images report has one line per `<img>` in document order, showing the alt
      text, or "No alt text" when it is absent or empty. */
  lemma {:induction false} ImagesReportLines(doc: Document)
    requires forall e :: e in doc && e.tag == "img" ==> NoNewline(Src(e)) && NoNewline(AltShown(e))
    ensures |Lines(Unlines(ImageLines(FindAll(doc, ImageQuery))))| == |FindAll(doc, ImageQuery)|
    ensures forall k :: 0 <= k < |FindAll(doc, ImageQuery)| ==>
              var e := FindAll(doc, ImageQuery)[k];
              Lines(Unlines(ImageLines(FindAll(doc, ImageQuery))))[k] ==
                "Image: " + Src(e) + ", Alt Text: " +
                (if "alt" !in e.attrs || e.attrs["alt"] == "" then NoAltText else e.attrs["alt"])
  {
    var images := FindAll(doc, ImageQuery);
    FindAllMembers(doc, ImageQuery);
    forall k | 0 <= k < |images| ensures NoNewline(ImageLines(images)[k]) {
      assert images[k] in images;
    }
    LinesOfUnlines(ImageLines(images));
  }

  // ---------------------------------------------------------------------------
  // Links: internal and external, by a prefix test.
  // ---------------------------------------------------------------------------

  /** `href.startswith('http://localhost') or href.startswith('/')`. */
  predicate IsInternal(href: string): (b: bool)
    ensures b <==> (|href| >= |LocalhostPrefix| && href[..|LocalhostPrefix|] == LocalhostPrefix)
                   || (|href| >= 1 && href[0] == '/')
  {
    LocalhostPrefix <= href || "/" <= href
  }

  predicate IsExternal(href: string) {
    !IsInternal(href)
  }

  /** The `href` of every `<a>` that has one, in document order. */
  function Hrefs(doc: Document): (hs: seq<string>)
    ensures |hs| == |FindAll(doc, LinkQuery)|
  {
    var links := FindAll(doc, LinkQuery);
    FindAllMembers(doc, LinkQuery);
    seq(|links|, k requires 0 <= k < |links| => assert links[k] in links; links[k].attrs["href"])
  }

  lemma {:induction false} HrefAt(doc: Document, k: nat)
    requires k < |FindAll(doc, LinkQuery)|
    ensures "href" in FindAll(doc, LinkQuery)[k].attrs
    ensures Hrefs(doc)[k] == FindAll(doc, LinkQuery)[k].attrs["href"]
  {
    FindAllMembers(doc, LinkQuery);
    assert FindAll(doc, LinkQuery)[k] in FindAll(doc, LinkQuery);
  }

  function InternalLinks(doc: Document): seq<string> {
    Filter(Hrefs(doc), IsInternal)
  }

  function ExternalLinks(doc: Document): seq<string> {
    Filter(Hrefs(doc), IsExternal)
  }

  function LinksLines(doc: Document): seq<string> {
    ["Internal Links: " + ListRepr(InternalLinks(doc)), "External Links: " + ListRepr(ExternalLinks(doc))]
  }

  /** `analyze_links`. */
  method AnalyzeLinks(doc: Document) returns (r: string)
    ensures r == Unlines(LinksLines(doc))
  {
    r := "";
    var internalLinks, externalLinks := SplitLinks(doc);
    var internalLine := "Internal Links: " + ListRepr(internalLinks);
    var externalLine := "External Links: " + ListRepr(externalLinks);
    assert LinksLines(doc) == [internalLine, externalLine];
    assert Unlines([internalLine, externalLine]) == internalLine + "\n" + Unlines([externalLine]);
    assert Unlines([externalLine]) == externalLine + "\n" + Unlines([]);
    r := r + internalLine + "\n";
    assert r == internalLine + "\n";
    r := r + externalLine + "\n";
  }

  /** The loop of `analyze_links`: each `href` is appended to the internal or the external list. */
  method SplitLinks(doc: Document) returns (internalLinks: seq<string>, externalLinks: seq<string>)
    ensures internalLinks == InternalLinks(doc)
    ensures externalLinks == ExternalLinks(doc)
  {
    internalLinks, externalLinks := [], [];
    var links := FindAll(doc, LinkQuery);
    ghost var hrefs := Hrefs(doc);
    for k := 0 to |links|
      invariant internalLinks == Filter(hrefs[..k], IsInternal)
      invariant externalLinks == Filter(hrefs[..k], IsExternal)
    {
      HrefAt(doc, k);
      var href := links[k].attrs["href"];
      assert hrefs[..k + 1] == hrefs[..k] + [href];
      FilterSnoc(hrefs[..k], href, IsInternal);
      FilterSnoc(hrefs[..k], href, IsExternal);
      if IsInternal(href) {
        internalLinks := internalLinks + [href];
      } else {
        externalLinks := externalLinks + [href];
      }
    }
    assert hrefs[..|links|] == hrefs;
  }

  /** Every `<a>` with an `href` lands in exactly one list; each list keeps document order and holds
      exactly the hrefs of its kind. */
  lemma {:induction false} LinksPartition(doc: Document)
    ensures |InternalLinks(doc)| + |ExternalLinks(doc)| == |FindAll(doc, LinkQuery)|
    ensures multiset(InternalLinks(doc)) + multiset(ExternalLinks(doc)) == multiset(Hrefs(doc))
    ensures forall h :: h in InternalLinks(doc) <==> h in Hrefs(doc) && IsInternal(h)
    ensures forall h :: h in ExternalLinks(doc) <==> h in Hrefs(doc) && !IsInternal(h)
    ensures IsSubsequence(InternalLinks(doc), Hrefs(doc))
    ensures IsSubsequence(ExternalLinks(doc), Hrefs(doc))
  {
    FilterPartition(Hrefs(doc), IsInternal, IsExternal);
    FilterMembers(Hrefs(doc), IsInternal);
    FilterMembers(Hrefs(doc), IsExternal);
    FilterIsSubsequence(Hrefs(doc), IsInternal);
    FilterIsSubsequence(Hrefs(doc), IsExternal);
  }

  /** The links report is always exactly two lines, Internal then External. */
  lemma {:induction false} LinksTwoLines(doc: Document)
    ensures Lines(Unlines(LinksLines(doc))) == LinksLines(doc)
    ensures |Lines(Unlines(LinksLines(doc)))| == 2
  {
    var internalLine := "Internal Links: " + ListRepr(InternalLinks(doc));
    var externalLine := "External Links: " + ListRepr(ExternalLinks(doc));
    NoNewlineAppend("Internal Links: ", ListRepr(InternalLinks(doc)));
    NoNewlineAppend("External Links: ", ListRepr(ExternalLinks(doc)));
    assert LinksLines(doc) == [internalLine, externalLine];
    LinesOfUnlines([internalLine, externalLine]);
  }

  /** The prefix test: protocol-relative and localhost URLs are internal; the empty string,
      relative paths and other hosts are external. */
  lemma {:induction false} LinkClassification()
    ensures IsInternal("/about") && IsInternal("//cdn.example.com/app.js")
    ensures IsInternal("http://localhost") && IsInternal("http://localhost:8000/page")
    ensures !IsInternal("") && !IsInternal("about.html") && !IsInternal("https://x.com")
    ensures !IsInternal("https://localhost/") && !IsInternal("HTTP://localhost")
  {
    assert "/" <= "/about";
    assert "/" <= "//cdn.example.com/app.js";
    assert LocalhostPrefix <= "http://localhost:8000/page";
    assert "https://x.com"[4] != LocalhostPrefix[4];
    assert "about.html"[0] != LocalhostPrefix[0] && "about.html"[0] != '/';
    assert "https://localhost/"[4] != LocalhostPrefix[4];
    assert "HTTP://localhost"[0] != LocalhostPrefix[0];
  }

  // ---------------------------------------------------------------------------
  // Structured data: one line per JSON-LD script.
  // ---------------------------------------------------------------------------

  function StructuredDataLines(scripts: seq<Element>): (ls: seq<string>)
    ensures |ls| == |scripts|
  {
    seq(|scripts|, k requires 0 <= k < |scripts| => "Structured Data: " + scripts[k].text)
  }

  /** `analyze_structured_data`. */
  method AnalyzeStructuredData(doc: Document) returns (r: string)
    ensures r == Unlines(StructuredDataLines(FindAll(doc, StructuredDataQuery)))
    ensures r == "" <==> FindAll(doc, StructuredDataQuery) == []
  {
    r := "";
    var structuredData := FindAll(doc, StructuredDataQuery);
    ghost var lines := StructuredDataLines(structuredData);
    for k := 0 to |structuredData|
      invariant r == Unlines(lines[..k])
    {
      var line := "Structured Data: " + structuredData[k].text;
      UnlinesPrefixStep(lines, k);
      r := r + line + "\n";
    }
    assert lines[..|structuredData|] == lines;
  }

  /** Read back, one `Structured Data:` line per JSON-LD script, in document order. */
  lemma {:induction false} StructuredDataReportLines(doc: Document)
    requires forall e :: e in doc && Matches(StructuredDataQuery, e) ==> NoNewline(e.text)
    ensures |Lines(Unlines(StructuredDataLines(FindAll(doc, StructuredDataQuery))))| == |FindAll(doc, StructuredDataQuery)|
    ensures forall k :: 0 <= k < |FindAll(doc, StructuredDataQuery)| ==>
              Lines(Unlines(StructuredDataLines(FindAll(doc, StructuredDataQuery))))[k] ==
                "Structured Data: " + FindAll(doc, StructuredDataQuery)[k].text
  {
    var scripts := FindAll(doc, StructuredDataQuery);
    FindAllMembers(doc, StructuredDataQuery);
    forall k | 0 <= k < |scripts| ensures NoNewline(StructuredDataLines(scripts)[k]) {
      assert scripts[k] in scripts;
    }
    LinesOfUnlines(StructuredDataLines(scripts));
  }

  // ---------------------------------------------------------------------------
  // Worked examples.
  // ---------------------------------------------------------------------------

  /** A description `<meta>` without `content` makes the meta-tag extractor raise. */
  lemma {:induction false} MetaTagsKeyErrorExample()
    ensures AnalyzeMetaTags([Element("meta", map["name" := "description"], "", None)]) == Err(KeyError("content"))
  {
  }

  /** A page with none of the searched elements gives the three sentinels. */
  lemma {:induction false} MetaTagsEmptyPage()
    ensures AnalyzeMetaTags([]) == Ok(Unlines(["Title: " + NoTitleFound,
                                               "Meta Description: " + NoDescriptionFound,
                                               "Meta Keywords: " + NoKeywordsFound]))
  {
  }

  /** An empty `<title></title>` has no string child, so the title line prints `None`. */
  lemma {:induction false} EmptyTitleExample()
    ensures TitleField([Element("title", map[], "", None)]) == PyNone
  {
  }

  /** A title written over several lines is printed as written, newlines included. */
  lemma {:induction false} UntrimmedTitleExample()
    ensures TitleField([Element("title", map[], "Home", Some("\n Home\n"))]) == "\n Home\n"
  {
  }

  /** A page whose `<h2>` comes before its `<h1>`. */
  function MixedLevels(first: string, second: string): Document {
    [Element("h2", map[], first, Some(first)), Element("h1", map[], second, Some(second))]
  }

  lemma {:induction false} MixedLevelsAt(first: string, second: string, l: Level)
    ensures LevelHeadings(MixedLevels(first, second), l) ==
      if l == 1 then [Heading(1, second)] else if l == 2 then [Heading(2, first)] else []
  {
    var doc := MixedLevels(first, second);
    HeadingTagMatches(doc[0], l);
    HeadingTagMatches(doc[1], l);
    assert doc == [doc[0]] + [doc[1]];
    FilterAppend([doc[0]], [doc[1]], Matcher(Tag(HeadingTag(l))));
  }

  /** The `h1` is reported first although the `h2` comes first in the page: the lines are
      `H1: <second>`, then `H2: <first>`. */
  lemma {:induction false} HeadingsOrderExample(first: string, second: string)
    ensures AllHeadings(MixedLevels(first, second)) == [Heading(1, second), Heading(2, first)]
  {
    var doc := MixedLevels(first, second);
    var both := [Heading(1, second), Heading(2, first)];
    MixedLevelsAt(first, second, 1);
    assert HeadingsUpTo(doc, 1) == [] + [Heading(1, second)] == [Heading(1, second)];
    MixedLevelsAt(first, second, 2);
    assert HeadingsUpTo(doc, 2) == [Heading(1, second)] + [Heading(2, first)] == both;
    MixedLevelsAt(first, second, 3);
    assert HeadingsUpTo(doc, 3) == both + [] == both;
    MixedLevelsAt(first, second, 4);
    assert HeadingsUpTo(doc, 4) == both + [] == both;
    MixedLevelsAt(first, second, 5);
    assert HeadingsUpTo(doc, 5) == both + [] == both;
    MixedLevelsAt(first, second, 6);
    assert HeadingsUpTo(doc, 6) == both + [] == both;
  }

  /** The lines of that report. */
  lemma {:induction false} HeadingsOrderLines(first: string, second: string)
    ensures HeadingLines(AllHeadings(MixedLevels(first, second))) == ["H1: " + second, "H2: " + first]
  {
    HeadingsOrderExample(first, second);
    var hs := [Heading(1, second), Heading(2, first)];
    assert Digit(1) == '1' && Digit(2) == '2';
    assert HeadingLine(hs[0]) == "H1: " + second;
    assert HeadingLine(hs[1]) == "H2: " + first;
  }
}
