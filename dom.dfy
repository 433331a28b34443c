/** The parsed page, seen the way the extractors query it: a flat sequence of elements in
    document order, each with a tag name, its attributes, its trimmed text and its `.string`. */
module Dom {
  import opened Seqs

  /** `text` is `get_text(strip=True)`. `onlyString` is BeautifulSoup's `.string`: the element's
      single string child as written, not trimmed, or `None` when it has no child or several. */
  datatype Element = Element(tag: string, attrs: map<string, string>, text: string, onlyString: Option<string>)

  type Document = seq<Element>

  /** The three kinds of search the extractors make: by tag name alone (`find_all('img')`),
      by tag name and an exact attribute value (`attrs={'name': 'description'}`), and by tag
      name and the presence of an attribute (`href=True`). */
  datatype Query =
    | Tag(name: string)
    | TagWithAttr(name: string, attr: string, value: string)
    | TagHasAttr(name: string, attr: string)

  predicate Matches(q: Query, e: Element) {
    match q
    case Tag(n) => e.tag == n
    case TagWithAttr(n, a, v) => e.tag == n && a in e.attrs && e.attrs[a] == v
    case TagHasAttr(n, a) => e.tag == n && a in e.attrs
  }

  function Matcher(q: Query): Element -> bool {
    (e: Element) => Matches(q, e)
  }

  /** `find_all`: every matching element, in document order; it only ever returns page elements,
      in the page's order. */
  function FindAll(doc: Document, q: Query): (r: seq<Element>)
    ensures |r| <= |doc|
    ensures IsSubsequence(r, doc)
  {
    FilterIsSubsequence(doc, Matcher(q));
    Filter(doc, Matcher(q))
  }

  /** `find`: the first matching element, if any. */
  function Find(doc: Document, q: Query): (r: Option<Element>)
    ensures r.Some? ==> r.value in doc && Matches(q, r.value)
    ensures r.None? ==> forall k :: 0 <= k < |doc| ==> !Matches(q, doc[k])
  {
    if doc == [] then None
    else if Matches(q, doc[0]) then Some(doc[0])
    else Find(doc[1..], q)
  }

  datatype Option<T> = None | Some(value: T)

  /** The one failure the extractors can raise: reading an attribute the element lacks. */
  datatype Error = KeyError(key: string)

  datatype Result<T> = Ok(value: T) | Err(error: Error)

  /** `tag[attr]`: the attribute's value, or a `KeyError` naming it. */
  function Subscript(e: Element, attr: string): (r: Result<string>)
    ensures r.Ok? <==> attr in e.attrs
    ensures r.Ok? ==> r.value == e.attrs[attr]
    ensures r.Err? ==> r.error == KeyError(attr)
  {
    if attr in e.attrs then Ok(e.attrs[attr]) else Err(KeyError(attr))
  }

  /** Every element `find_all` returns matches, and every matching element is returned. */
  lemma {:induction false} FindAllMembers(doc: Document, q: Query)
    ensures forall e :: e in FindAll(doc, q) <==> e in doc && Matches(q, e)
  {
    FilterMembers(doc, Matcher(q));
  }

  /** `find` is the head of `find_all`: the two searches agree. */
  lemma {:induction false} FindIsFirstOfFindAll(doc: Document, q: Query)
    ensures Find(doc, q) == if FindAll(doc, q) == [] then None else Some(FindAll(doc, q)[0])
    decreases |doc|
  {
    if doc != [] {
      FindIsFirstOfFindAll(doc[1..], q);
    }
  }
}
