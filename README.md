# SEO page analyser — verified model of the extractors and the keyword ranking

The analyser reads one parsed HTML page and writes one text report per concern:

- page metadata (title, description, keywords);
- headings;
- images;
- links;
- JSON-LD structured data;
- the viewport setting;
- the ten most relevant terms of the page.

This project models those extractors and the sort-and-cut step of the term ranking in Dafny.
It proves what each report contains, in what order, and what happens in the error case.

## How the model is organised

- `seqs.dfy` (module `Seqs`): keeping the elements that satisfy a predicate (`Filter`).
  - Facts about it: membership, concatenation, partition into two complementary parts,
    order preservation (`IsSubsequence`).
- `text.dfy` (module `Text`): reports as lines.
  - `Unlines` builds a report: each line followed by `\n`.
  - `Lines` reads a report back; `LinesOfUnlines` is the round trip.
  - `PyRepr` and `ListRepr` model Python's `repr` of a string and of a list of strings, as an
    f-string prints a list (`['a', 'b']`).
- `dom.dfy` (module `Dom`): the parsed page as BeautifulSoup is used here.
  - A `Document` is the sequence of its elements in document order. Each element has a tag name,
    an attribute map, its text as `get_text(strip=True)` gives it, and its `.string`: the single
    string child as written, or `None` when the element has no child or several.
  - `FindAll` is `find_all` and `Find` is `find`. They search by tag name, by tag name plus an
    exact attribute value, and by tag name plus the presence of an attribute (`href=True`).
  - `Subscript` is `tag['content']`. It yields `Err(KeyError("content"))` when the attribute is missing.
- `seo_analysis.dfy` (module `SeoAnalysis`): the six extractors.
  - `analyze_meta_tags` and `analyze_viewport` do not loop, so they are functions returning a
    `Result`.
  - `analyze_headings`, `analyze_images`, `analyze_links` and `analyze_structured_data` build their
    report in a loop, so they are methods with loops. Each is proved equal to a reference
    function: the `Unlines` of a list of line values.
  - Lemmas then state what the reread report holds: how many lines, which element each line
    comes from, in what order, and the fallbacks.
- `term_ranking.dfy` (module `TermRanking`): the tail of `analyze_tfidf`.
  - `SortByScoreDesc` is an in-place insertion sort over an `array<TermScore>`. It is proved equal
    to the reference `StableSortDesc` of the old contents.
  - The reference is proved sorted, a permutation, and stable. Stable means that among equal
    scores the vocabulary order is kept.
  - It is also proved unique (`StableSortUnique`). So any stable descending sort gives the same
    list, Python's `list.sort(key=..., reverse=True)` included.
  - `TopTerms` pairs names with scores, sorts, and keeps the first ten.

Headings follow the code: every `h1`, then every `h2`, and so on up to `h6`. This is grouping by
level, not document order across levels. `HeadingsOrderExample` shows it: a page with an `<h2>`
before an `<h1>` reports the `H1` line first.

## Model

| member | source | states |
|---|---|---|
| Dom.FindAll | seo_analysis.py:80 | `find_all` (here and at lines 73, 91 and 125) returns at most as many elements as the page has, all taken from the page in document order |
| Dom.Find | seo_analysis.py:61 | `find` returns an element of the page that matches the query, or nothing when no element matches |
| Dom.FindAllMembers | seo_analysis.py:80 | `find_all` returns exactly the matching elements of the page |
| Dom.FindIsFirstOfFindAll | seo_analysis.py:61-66 | `find` is the first element of `find_all`, or nothing when that list is empty |
| Dom.Subscript | seo_analysis.py:62 | `tag[attr]` (here and at lines 66, 92 and 132) succeeds exactly when the attribute is present, gives its value, and otherwise raises `KeyError` naming the attribute |
| SeoAnalysis.ContentOrSentinel | seo_analysis.py:62 | `x['content'] if x else sentinel` (here and at lines 66 and 132): the sentinel when nothing was found; otherwise `KeyError('content')` exactly when the element lacks `content`, else its value |
| SeoAnalysis.TitleField | seo_analysis.py:58 | the title shown is the first `<title>`'s `.string` as written, `None` when it has no child or several, or `No title found` when the page has no title |
| SeoAnalysis.EmptyTitleExample | seo_analysis.py:58-59 | an empty `<title></title>` prints `Title: None` |
| SeoAnalysis.UntrimmedTitleExample | seo_analysis.py:58-59 | a title written over several lines is printed with its newlines and spaces |
| SeoAnalysis.ContentOrSentinelOfFind | seo_analysis.py:62 | `tag['content'] if tag else sentinel` raises `KeyError('content')` exactly when the first match lacks `content`; otherwise it gives that content, or the sentinel when nothing matches |
| SeoAnalysis.AnalyzeMetaTags | seo_analysis.py:56-68 | raises `KeyError('content')` iff the first description or keywords `<meta>` lacks `content`; otherwise the report is the Title, Meta Description and Meta Keywords lines, each from the first match or its sentinel |
| SeoAnalysis.MetaTagsThreeLines | seo_analysis.py:59-67 | read back, the meta-tag report is exactly three lines in the order Title, Meta Description, Meta Keywords |
| SeoAnalysis.MetaTagsKeyErrorExample | seo_analysis.py:61-62 | a description `<meta>` without `content` makes the extractor raise `KeyError('content')` |
| SeoAnalysis.MetaTagsEmptyPage | seo_analysis.py:58-67 | a page with no title and no meta tags gives the three sentinel lines |
| SeoAnalysis.AnalyzeViewport | seo_analysis.py:130-133 | raises `KeyError('content')` iff the first viewport `<meta>` lacks `content`; otherwise one `Viewport:` line with its content or the sentinel |
| SeoAnalysis.ViewportOneLine | seo_analysis.py:131-133 | read back, the viewport report is one line; without a viewport `<meta>` it is `Viewport: No viewport meta tag found` |
| SeoAnalysis.AnalyzeHeadings | seo_analysis.py:70-76 | the report equals the lines `H<level>: <text>` of all headings, levels 1 to 6 in turn |
| SeoAnalysis.AppendHeadingLines | seo_analysis.py:74-75 | the inner loop appends one `H<level>: <text>` line per element of one level, in document order, to the report so far |
| SeoAnalysis.HeadingsGroupedByLevel | seo_analysis.py:72-75 | the levels of the reported headings never decrease: all H1 lines come before all H2 lines, and so on |
| SeoAnalysis.HeadingsWithinLevel | seo_analysis.py:73-75 | the headings reported at one level are that level's elements, in document order, with their texts |
| SeoAnalysis.HeadingsCount | seo_analysis.py:70-76 | one heading per `h1`..`h6` element; the report is empty iff the page has no heading |
| SeoAnalysis.HeadingsReportLines | seo_analysis.py:75 | read back, the headings report has one line per heading element |
| SeoAnalysis.HeadingsOrderExample | seo_analysis.py:72-75 | for an `<h2>` followed by an `<h1>`, the `h1` heading is reported first |
| SeoAnalysis.HeadingsOrderLines | seo_analysis.py:75 | for the same page, the lines are `H1: <h1 text>`, then `H2: <h2 text>` |
| SeoAnalysis.AnalyzeImages | seo_analysis.py:78-85 | the report is one line per `<img>` in document order; it is empty iff the page has no image |
| SeoAnalysis.Src | seo_analysis.py:83-84 | `img.get('src')` as printed: the `src` value, or `None` when it is absent |
| SeoAnalysis.AltShown | seo_analysis.py:82-84 | the alt text shown is never empty: the `alt` value when present and non-empty, otherwise `No alt text` |
| SeoAnalysis.ImagesReportLines | seo_analysis.py:82-84 | read back, line k is `Image: <src or None>, Alt Text: <alt>`, with `No alt text` when `alt` is missing or empty |
| SeoAnalysis.HrefAt | seo_analysis.py:91-92 | every `<a>` that `find_all('a', href=True)` returns has an `href`, and the k-th href is read from the k-th link |
| SeoAnalysis.IsInternal | seo_analysis.py:93 | an href is internal exactly when its first 16 characters are `http://localhost` or its first character is `/` |
| SeoAnalysis.SplitLinks | seo_analysis.py:89-96 | the append loop ends with the internal hrefs and the external hrefs, each in document order |
| SeoAnalysis.AnalyzeLinks | seo_analysis.py:87-100 | the report is the Internal Links and External Links lines, each showing the hrefs of its kind as a Python list |
| SeoAnalysis.LinksPartition | seo_analysis.py:91-96 | every href lands in exactly one list, each list holds exactly the hrefs of its kind, and both keep document order |
| SeoAnalysis.LinksTwoLines | seo_analysis.py:98-99 | read back, the links report is always exactly two lines, Internal then External |
| SeoAnalysis.LinkClassification | seo_analysis.py:93 | the prefix test: `/…` and `http://localhost…` are internal; `https://localhost/`, `HTTP://localhost`, relative paths and the empty href are external |
| SeoAnalysis.AnalyzeStructuredData | seo_analysis.py:123-128 | the report is one `Structured Data:` line per JSON-LD script in document order; it is empty iff there is none |
| SeoAnalysis.StructuredDataReportLines | seo_analysis.py:125-127 | read back, line k is `Structured Data: ` followed by the text of the k-th JSON-LD script |
| Text.PyRepr | seo_analysis.py:98-99 | each listed href is quoted like Python's `repr`: the same quote at both ends, double quotes exactly when the text holds a single quote and no double quote, and never a newline |
| Text.ListRepr | seo_analysis.py:98-99 | the printed list never contains a newline; the empty list prints as `[]` |
| Text.PyReprPlain | seo_analysis.py:98-99 | text of plain printable characters is printed between single quotes, unchanged |
| TermRanking.WordScores | seo_analysis.py:118 | the k-th pair is the k-th feature name with the k-th score, one pair per feature name |
| TermRanking.StableSortSorted | seo_analysis.py:119 | the reference sort is in non-increasing score order |
| TermRanking.StableSortPerm | seo_analysis.py:119 | the reference sort is a permutation of its input |
| TermRanking.StableSortStable | seo_analysis.py:119 | among pairs of one score, the sorted list keeps the input order |
| TermRanking.StableSortUnique | seo_analysis.py:119 | any sorted arrangement that keeps the input order among equal scores is the reference sort |
| TermRanking.InsertBackSorted | seo_analysis.py:119 | inserting a pair into a sorted list keeps it sorted |
| TermRanking.InsertBackStable | seo_analysis.py:119 | insertion puts the new pair after every earlier pair of the same score |
| TermRanking.InsertAt | seo_analysis.py:119 | one step of the in-place sort: the prefix up to `i` becomes the prefix with `a[i]` inserted; the rest of the array is untouched |
| TermRanking.SortByScoreDesc | seo_analysis.py:119 | the array after the in-place sort is the reference sort of its old contents |
| TermRanking.TopTerms | seo_analysis.py:118-121 | the result is the first ten pairs of the reference sort of the (term, score) pairs, or all of them when there are fewer |
| TermRanking.TopTenShape | seo_analysis.py:121 | the result has min(10, n) pairs, in non-increasing score order, each an input pair |
| TermRanking.TopTenHighest | seo_analysis.py:119-121 | no pair left out scores above a pair that was kept |
| TermRanking.TopTenStable | seo_analysis.py:119-121 | the kept pairs of one score are the first pairs of that score in vocabulary order |

## Left out

- `fetch_page` and `analyze_load_time` (seo_analysis.py:52-54, 102-108): they use the network and the clock. The model starts from a parsed page.
- How the TF-IDF scores are computed (seo_analysis.py:111-116): this is scikit-learn. The scores come in as `real` values, one per vocabulary term.
- Floating point: scores are exact reals. NaN, and its effect on Python's sort, are not modelled.
- HTML parsing and nesting: a page is a flat sequence of elements in document order. An element's stripped text and its `.string` are given with it; the whitespace rules of `get_text(strip=True)` and how `.string` is found among nested children are not modelled.
- Multi-valued attributes such as `class` are not modelled; only single-valued attributes are searched here.
- `Text.PyRepr`: non-ASCII characters are printed as themselves. Python escapes the non-printable ones, for example `\x85` and `\u2028`.
- `TermRanking.TopTerms`: requires at least as many scores as feature names. The vectorizer always returns equally many.
- `TermRanking.SortByScoreDesc`: this is an insertion sort, not Python's Timsort. `StableSortUnique` shows that both give the same list.
- `SeoAnalysis.MetaTagsThreeLines`, `SeoAnalysis.ViewportOneLine`, `SeoAnalysis.HeadingsReportLines`, `SeoAnalysis.ImagesReportLines`, `SeoAnalysis.StructuredDataReportLines`: these read the report back as lines, so they require the shown texts to contain no newline. Each report itself is stated for any text.
- The `PDF` class, the cover page, the percentage formatting of scores (`{score:.2%}`) and `main` (seo_analysis.py:9-50, 135 onwards): these are layout and input/output.
