/** The slice of the page's document that the configuration helpers read:
    elements in document order, each with an id, its `data-*` attributes (by
    their `dataset` property names), its `offsetHeight` and the top of its
    bounding box. */
module Dom {
  import opened Wrappers

  datatype Element = Element(id: string, dataset: map<string, string>, offsetHeight: nat, top: real)

  type Document = seq<Element>

  /** The position of the first element whose id is `id`; the empty id never
      matches, as with the browser's lookup. */
  function FirstWithId(doc: Document, id: string): (r: Option<nat>)
    ensures r.Some? ==> r.value < |doc| && doc[r.value].id == id && id != ""
    ensures r.Some? ==> forall j :: 0 <= j < r.value ==> doc[j].id != id
    ensures r.None? ==> id == "" || forall j :: 0 <= j < |doc| ==> doc[j].id != id
  {
    if doc == [] || id == "" then None
    else if doc[0].id == id then Some(0)
    else
      match FirstWithId(doc[1..], id)
      case None => None
      case Some(k) => Some(k + 1)
  }

  /** `document.getElementById(id)`. */
  function GetElementById(doc: Document, id: string): (r: Option<Element>)
    ensures r.Some? <==> id != "" && exists j :: 0 <= j < |doc| && doc[j].id == id
    ensures r.Some? ==> r.value.id == id && r.value in doc
  {
    match FirstWithId(doc, id)
    case None => None
    case Some(k) => Some(doc[k])
  }

  /** Among elements sharing an id, the lookup finds the earliest. */
  lemma GetElementByIdIsFirst(doc: Document, i: nat)
    requires i < |doc| && doc[i].id != ""
    requires forall j :: 0 <= j < i ==> doc[j].id != doc[i].id
    ensures GetElementById(doc, doc[i].id) == Some(doc[i])
  {
    var r := FirstWithId(doc, doc[i].id);
    assert r.Some?;
    assert r.value == i;
  }

  /** `element.dataset[key]`, which is absent when the attribute is. */
  function Data(e: Element, key: string): (r: Option<string>)
    ensures r.Some? <==> key in e.dataset
    ensures r.Some? ==> r.value == e.dataset[key]
  {
    if key in e.dataset then Some(e.dataset[key]) else None
  }

  /** `element.dataset[key] || fallback`: an absent or empty attribute gives
      the fallback. */
  function DataOr(e: Element, key: string, fallback: string): (s: string)
    ensures key in e.dataset && e.dataset[key] != "" ==> s == e.dataset[key]
    ensures !(key in e.dataset && e.dataset[key] != "") ==> s == fallback
  {
    match Data(e, key)
    case Some(v) => if v != "" then v else fallback
    case None => fallback
  }

  /** The attribute is present and not empty. */
  predicate HasNonEmpty(e: Element, key: string) {
    key in e.dataset && e.dataset[key] != ""
  }

  /** The element carries at least one of the attributes. */
  predicate HasAnyAttribute(e: Element, keys: set<string>) {
    exists k :: k in keys && k in e.dataset
  }

  /** `document.querySelectorAll` over a list of attribute selectors: the
      elements carrying at least one of `keys`, in document order, each
      once. */

  function WithAnyAttribute(doc: Document, keys: set<string>): (r: seq<Element>)
    ensures forall e :: e in r <==> e in doc && HasAnyAttribute(e, keys)
    ensures |r| <= |doc|
  {
    if doc == [] then []
    else
      var rest := WithAnyAttribute(doc[1..], keys);
      assert forall e :: e in doc <==> e == doc[0] || e in doc[1..];
      (if HasAnyAttribute(doc[0], keys) then [doc[0]] else []) + rest
  }

  /** The query keeps document order: querying two parts of a document one
      after the other gives the query of the whole. */
  lemma {:induction false} WithAnyAttributeAppend(a: Document, b: Document, keys: set<string>)
    ensures WithAnyAttribute(a + b, keys) == WithAnyAttribute(a, keys) + WithAnyAttribute(b, keys)
  {
    if a != [] {
      assert (a + b)[1..] == a[1..] + b;
      WithAnyAttributeAppend(a[1..], b, keys);
    } else {
      assert a + b == b;
    }
  }

  /** `.map(e => e.id).filter(id => id !== '')`. */
  function NonEmptyIds(es: seq<Element>): (ids: seq<string>)
    ensures forall id :: id in ids <==> id != "" && exists e :: e in es && e.id == id
    ensures forall i :: 0 <= i < |ids| ==> ids[i] != ""
    ensures |ids| <= |es|
  {
    if es == [] then []
    else
      var rest := NonEmptyIds(es[1..]);
      assert forall e :: e in es <==> e == es[0] || e in es[1..];
      (if es[0].id != "" then [es[0].id] else []) + rest
  }

  lemma {:induction false} NonEmptyIdsAppend(a: seq<Element>, b: seq<Element>)
    ensures NonEmptyIds(a + b) == NonEmptyIds(a) + NonEmptyIds(b)
  {
    if a != [] {
      assert (a + b)[1..] == a[1..] + b;
      NonEmptyIdsAppend(a[1..], b);
    } else {
      assert a + b == b;
    }
  }
}
