/** The fast serializer formatter: each method turns one tree-construction event into HTML
    text, without escaping and without any state of its own. */
module Serializer {
  import opened Php
  import opened Tokenizer

  const DoctypeLine: string := "<!DOCTYPE html>\n"

  /** The document prologue: the doctype line for a whole document, nothing for a fragment
      (a fragment is parsed in the namespace of its context element). */
  function StartDocument(fragmentNamespace: Option<string>, fragmentName: Option<string>): (r: string)
    ensures r != "" <==> fragmentNamespace.None?
    ensures r != "" ==> r == DoctypeLine
  {
    if fragmentNamespace.None? then DoctypeLine else ""
  }

  /** A doctype token produces no output (PHP's `null`, which concatenates as ""). */
  function Doctype(name: Option<string>, public: Option<string>, system: Option<string>): (r: string)
    ensures |r| == 0
  {
    ""
  }

  /** A text node: the `length` bytes of `text` from `start`, clamped to the end of `text`. */
  function Characters(text: string, start: nat, length: nat): (r: string)
    ensures start + length <= |text| ==> r == text[start..start + length]
    ensures |r| <= length
  {
    Substr(text, start, length)
  }

  /** One attribute as the element's start tag spells it. */
  function AttributeText(a: Attribute): string {
    " " + a.name + "=\"" + a.value + "\""
  }

  /** The attributes in `getValues()` order, each in the form ` name="value"`. */
  function AttributesText(attrs: Attributes): string {
    if attrs == [] then ""
    else AttributesText(attrs[..|attrs| - 1]) + AttributeText(attrs[|attrs| - 1])
  }

  /** The start tag up to and including the attributes, without its closing `>` or `/>`. */
  function OpenTag(name: string, attrs: Attributes): string {
    "<" + name + AttributesText(attrs)
  }

  /** The serialized element: self-closing when it has no contents (`null`), otherwise the
      start tag, the contents and the end tag. */
  function ElementText(name: string, attrs: Attributes, contents: Option<string>): string {
    match contents
    case None => OpenTag(name, attrs) + "/>"
    case Some(c) => OpenTag(name, attrs) + ">" + c + "</" + name + ">"
  }

  /** `element`: the start tag is built one attribute at a time. The namespace is accepted
      and not used, so the result is the same for every namespace. */
  method Element(namespace: string, name: string, attrs: Attributes, contents: Option<string>) returns (ret: string)
    ensures ret == ElementText(name, attrs, contents)
  {
    ret := "<" + name;
    for i := 0 to |attrs|
      invariant ret == OpenTag(name, attrs[..i])
    {
      assert attrs[..i + 1][..i] == attrs[..i];
      ret := ret + " " + attrs[i].name + "=\"" + attrs[i].value + "\"";
    }
    assert attrs[..|attrs|] == attrs;
    match contents {
      case None =>
        ret := ret + "/>";
      case Some(c) =>
        ret := ret + ">" + c + "</" + name + ">";
    }
  }

  /** A comment node: `<!--`, the text and `-->`; stripping the first four and the last three
      bytes gives the text back. */
  function Comment(text: string): (r: string)
    ensures |r| == |text| + 7 && r[..4] == "<!--" && r[|r| - 3..] == "-->" && r[4..|r| - 3] == text
  {
    "<!--" + text + "-->"
  }

  /** The attribute text of a concatenation is the concatenation of the attribute texts:
      attributes are written in order, each independently of the others. */
  lemma {:induction false} AttributesTextAppend(a: Attributes, b: Attributes)
    ensures AttributesText(a + b) == AttributesText(a) + AttributesText(b)
  {
    if b == [] {
      assert a + b == a;
    } else {
      assert (a + b)[..|a + b| - 1] == a + b[..|b| - 1];
      AttributesTextAppend(a, b[..|b| - 1]);
    }
  }

  /** The first attribute is written first, followed by the rest in order. */
  lemma AttributesTextFirst(a: Attribute, rest: Attributes)
    ensures AttributesText([a] + rest) == AttributeText(a) + AttributesText(rest)
  {
    AttributesTextAppend([a], rest);
    assert [a][..0] == [];
  }

  /** Attribute text is empty exactly when there are no attributes, and its length is the sum
      of the name and value lengths plus four bytes (space, `=` and two quotes) for each. */
  lemma {:induction false} AttributesTextLength(attrs: Attributes)
    ensures |AttributesText(attrs)| == AttributesBytes(attrs)
    ensures AttributesText(attrs) == "" <==> attrs == []
  {
    if attrs != [] {
      AttributesTextLength(attrs[..|attrs| - 1]);
    }
  }

  /** The number of bytes the attributes take in a start tag. */
  function AttributesBytes(attrs: Attributes): nat {
    if attrs == [] then 0
    else AttributesBytes(attrs[..|attrs| - 1]) + |attrs[|attrs| - 1].name| + |attrs[|attrs| - 1].value| + 4
  }

  /** An element without contents is `<name`, its attributes and `/>`. */
  lemma SelfClosingElement(name: string, attrs: Attributes)
    ensures var r := ElementText(name, attrs, None);
      |r| >= |name| + 3 && r[..|name| + 1] == "<" + name && r[|r| - 2..] == "/>"
      && r[|name| + 1..|r| - 2] == AttributesText(attrs)
  {
  }

  /** An element with contents starts with `<name`, ends with `</name>`, and the contents sit
      right after the start tag's `>`, so they can be read back from the output. */
  lemma ElementWithContents(name: string, attrs: Attributes, c: string)
    ensures var r := ElementText(name, attrs, Some(c));
      var open := |OpenTag(name, attrs)| + 1;
      |r| == open + |c| + |name| + 3
      && r[..|name| + 1] == "<" + name
      && r[|r| - |name| - 3..] == "</" + name + ">"
      && r[open - 1] == '>'
      && r[open..open + |c|] == c
  {
    var r := ElementText(name, attrs, Some(c));
    var open := |OpenTag(name, attrs)| + 1;
    assert r == (OpenTag(name, attrs) + ">") + c + ("</" + name + ">");
    assert r[..|name| + 1] == OpenTag(name, attrs)[..|name| + 1];
  }

  /** Different comment texts never serialize to the same output. */
  lemma CommentInjective(a: string, b: string)
    requires Comment(a) == Comment(b)
    ensures a == b
  {
    var r := Comment(a);
    assert a == r[4..|r| - 3];
  }
}
