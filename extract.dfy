/**
 * The response extractor: search a parsed WS-Management response for the first
 * element, below the root and in document order, with a given qualified name
 * (`doc.find('.//{ns}key')`), then read its text or its integer value.
 */
module Extract {
  import opened Outcomes
  import opened Numerals

  /** A parsed XML element: namespace URI (None when unqualified), local name, text, children. */
  datatype Element = Element(ns: Option<string>, name: string, text: Option<string>, children: seq<Element>)

  /** A response body as the XML parser sees it. */
  datatype Body = Xml(root: Element) | Unparseable

  /** The element's tag is `{ns}key`. */
  predicate Matches(e: Element, ns: string, key: string) {
    e.ns == Some(ns) && e.name == key
  }

  /** The elements of a forest in document order: each element, then its own descendants. */
  function Preorder(es: seq<Element>): seq<Element>
    decreases es
  {
    if es == [] then [] else [es[0]] + Preorder(es[0].children) + Preorder(es[1..])
  }

  /** Reference definition: the first element of a flat list with the qualified name. */
  function FirstMatch(xs: seq<Element>, ns: string, key: string): (r: Option<Element>)
    ensures r.None? <==> forall j :: 0 <= j < |xs| ==> !Matches(xs[j], ns, key)
    ensures r.Some? ==> r.value in xs && Matches(r.value, ns, key)
  {
    if xs == [] then None
    else if Matches(xs[0], ns, key) then Some(xs[0])
    else
      var r := FirstMatch(xs[1..], ns, key);
      assert forall j :: 1 <= j < |xs| ==> xs[j] == xs[1..][j - 1];
      r
  }

  /** The tree walk: try each element, then its subtree, then its later siblings. */
  function Search(es: seq<Element>, ns: string, key: string): Option<Element>
    decreases es
  {
    if es == [] then None
    else if Matches(es[0], ns, key) then Some(es[0])
    else match Search(es[0].children, ns, key)
      case Some(e) => Some(e)
      case None => Search(es[1..], ns, key)
  }

  /** Text of the first proper descendant of the root named `{ns}key` (None for an empty element). */
  function FindValue(body: Body, ns: string, key: string): (r: Result<Option<string>>)
    ensures body.Unparseable? ==> r == Err(NotXml)
    ensures body.Xml? ==>
      (r == Err(MissingElement) <==>
        forall j :: 0 <= j < |Preorder(body.root.children)| ==> !Matches(Preorder(body.root.children)[j], ns, key))
    ensures r.Err? ==> r.error == NotXml || r.error == MissingElement
  {
    match body
    case Unparseable => Err(NotXml)
    case Xml(root) =>
      SearchInDocumentOrder(root.children, ns, key);
      match Search(root.children, ns, key)
      case None => Err(MissingElement)
      case Some(e) => Ok(e.text)
  }

  /** The integer in the first `{ns}ReturnValue` element below the root. */
  function ReturnValue(body: Body, ns: string): (r: Result<int>)
    ensures r.Ok? <==>
      FindValue(body, ns, "ReturnValue").Ok? &&
      FindValue(body, ns, "ReturnValue").value.Some? &&
      ParseInt(FindValue(body, ns, "ReturnValue").value.value).Some?
    ensures r.Ok? ==> ParseInt(FindValue(body, ns, "ReturnValue").value.value) == Some(r.value)
    ensures FindValue(body, ns, "ReturnValue").Err? ==> r == Err(FindValue(body, ns, "ReturnValue").error)
  {
    match FindValue(body, ns, "ReturnValue")
    case Err(e) => Err(e)
    case Ok(None) => Err(NotAnInteger)
    case Ok(Some(t)) =>
      match ParseInt(t)
      case None => Err(NotAnInteger)
      case Some(n) => Ok(n)
  }

  lemma {:induction false} FirstMatchAppend(a: seq<Element>, b: seq<Element>, ns: string, key: string)
    ensures FirstMatch(a + b, ns, key) ==
            if FirstMatch(a, ns, key).Some? then FirstMatch(a, ns, key) else FirstMatch(b, ns, key)
  {
    if a != [] {
      assert (a + b)[0] == a[0];
      assert (a + b)[1..] == a[1..] + b;
      FirstMatchAppend(a[1..], b, ns, key);
    } else {
      assert a + b == b;
    }
  }

  /** The tree walk finds exactly the first match in document order. */
  lemma {:induction false} SearchInDocumentOrder(es: seq<Element>, ns: string, key: string)
    ensures Search(es, ns, key) == FirstMatch(Preorder(es), ns, key)
    decreases es
  {
    if es != [] {
      var head, kids, rest := es[0], es[0].children, es[1..];
      SearchInDocumentOrder(kids, ns, key);
      SearchInDocumentOrder(rest, ns, key);
      FirstMatchAppend([head], Preorder(kids) + Preorder(rest), ns, key);
      FirstMatchAppend(Preorder(kids), Preorder(rest), ns, key);
      assert Preorder(es) == [head] + (Preorder(kids) + Preorder(rest));
      assert FirstMatch([head], ns, key) == if Matches(head, ns, key) then Some(head) else None;
    }
  }

  /** Whatever element is first in document order with the name is the one returned. */
  lemma {:induction false} FirstMatchAt(xs: seq<Element>, i: nat, ns: string, key: string)
    requires i < |xs| && Matches(xs[i], ns, key)
    requires forall j :: 0 <= j < i ==> !Matches(xs[j], ns, key)
    ensures FirstMatch(xs, ns, key) == Some(xs[i])
  {
    if i > 0 {
      assert forall j :: 0 <= j < i - 1 ==> xs[1..][j] == xs[j + 1];
      FirstMatchAt(xs[1..], i - 1, ns, key);
    }
  }

  /** A value embedded under a known namespace and name comes back unchanged. */
  lemma EmbeddedValueFound(root: Element, i: nat, ns: string, key: string)
    requires i < |Preorder(root.children)| && Matches(Preorder(root.children)[i], ns, key)
    requires forall j :: 0 <= j < i ==> !Matches(Preorder(root.children)[j], ns, key)
    ensures FindValue(Xml(root), ns, key) == Ok(Preorder(root.children)[i].text)
  {
    SearchInDocumentOrder(root.children, ns, key);
    FirstMatchAt(Preorder(root.children), i, ns, key);
  }

  /** An integer written as ReturnValue text under `ns` is read back exactly. */
  lemma EmbeddedReturnValue(root: Element, i: nat, ns: string, n: int)
    requires i < |Preorder(root.children)| && Matches(Preorder(root.children)[i], ns, "ReturnValue")
    requires forall j :: 0 <= j < i ==> !Matches(Preorder(root.children)[j], ns, "ReturnValue")
    requires Preorder(root.children)[i].text == Some(IntText(n))
    ensures ReturnValue(Xml(root), ns) == Ok(n)
  {
    EmbeddedValueFound(root, i, ns, "ReturnValue");
    ParseIntRoundTrip(n);
  }

  /** An element under another namespace is never returned, and the root itself is never examined. */
  lemma NamespaceAndRootExample(ns: string, other: string)
    requires ns != other
    ensures
      var rv := Element(Some(ns), "ReturnValue", Some("0"), []);
      var envelope := Element(Some("env"), "Envelope", None, [Element(Some("env"), "Body", None, [rv])]);
      ReturnValue(Xml(envelope), ns) == Ok(0) &&
      ReturnValue(Xml(envelope), other) == Err(MissingElement) &&
      ReturnValue(Xml(rv), ns) == Err(MissingElement)
  {
    var rv := Element(Some(ns), "ReturnValue", Some("0"), []);
    var body := Element(Some("env"), "Body", None, [rv]);
    var envelope := Element(Some("env"), "Envelope", None, [body]);
    assert Preorder([rv]) == [rv];
    assert Preorder([body]) == [body, rv];
    assert Preorder(envelope.children) == [body, rv];
    assert ParseInt("0") == Some(0) by {
      assert DigitsValue("0") == DigitsValue("") * 10 + 0;
    }
    EmbeddedValueFound(envelope, 1, ns, "ReturnValue");
    assert FindValue(Xml(envelope), other, "ReturnValue") == Err(MissingElement);
    assert Preorder(rv.children) == [];
    assert FindValue(Xml(rv), ns, "ReturnValue") == Err(MissingElement);
  }
}
