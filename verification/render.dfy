/**
 * The uWSGI XML document of `UWSGI.create_conf_xml`: one element per
 * `xml-` option (after the value rule), then one `<pythonpath>` element per
 * resolved path, inside `<uwsgi>` ... `</uwsgi>`. Values are not escaped.
 */
module ConfigRenderer {
  import opened PyStr

  /** `<tag/>` or `<tag>text</tag>`. */
  datatype Element = SelfClosing(tag: string) | Leaf(tag: string, text: string)

  /** The text the recipe writes for one element, newline included. */
  function Markup(e: Element): string {
    match e
    case SelfClosing(tag) => "<" + tag + "/>\n"
    case Leaf(tag, text) => "<" + tag + ">" + text + "</" + tag + ">\n"
  }

  function Serialize(es: seq<Element>): string {
    if es == [] then "" else Markup(es[0]) + Serialize(es[1..])
  }

  /** Option keys that feed the document: `key.startswith('xml-') and len(key) > 4`. */
  predicate IsXmlKey(key: string) {
    |key| > 4 && key[..4] == "xml-"
  }

  /** One `<tag>text</tag>` per text, in order. */
  function Leaves(tag: string, texts: seq<string>): seq<Element> {
    seq(|texts|, i requires 0 <= i < |texts| => Leaf(tag, texts[i]))
  }

  /** The elements one option contributes: nothing unless the key is an
      `xml-` key; then, on the value, `true` gives `<tag/>`, empty or `false`
      nothing, a value with "\n" one element per whitespace-separated token,
      anything else one element with the value as it is. */
  function EntryElements(key: string, value: string): seq<Element> {
    if !IsXmlKey(key) then []
    else
      var tag := key[4..];
      if Lower(value) == "true" then [SelfClosing(tag)]
      else if value != "" && Lower(value) != "false" then
        if '\n' in value then Leaves(tag, Split(value)) else [Leaf(tag, value)]
      else []
  }

  /** The elements of all options, in the dictionary's order. */
  function BodyElements(keys: seq<string>, values: map<string, string>): seq<Element>
    requires forall k | k in keys :: k in values
  {
    if keys == [] then []
    else BodyElements(keys[..|keys| - 1], values) + EntryElements(keys[|keys| - 1], values[keys[|keys| - 1]])
  }

  /** One `<pythonpath>` element per path, in order. */
  function PythonPaths(paths: seq<string>): seq<Element> {
    Leaves("pythonpath", paths)
  }

  /** The file content: `'<uwsgi>\n%s</uwsgi>' % conf`. */
  function Document(body: seq<Element>, paths: seq<string>): string {
    "<uwsgi>\n" + Serialize(body + PythonPaths(paths)) + "</uwsgi>"
  }

  /** Serialising is done element by element. */
  lemma {:induction false} SerializeAppend(a: seq<Element>, b: seq<Element>)
    ensures Serialize(a + b) == Serialize(a) + Serialize(b)
  {
    if a == [] {
      assert a + b == b;
    } else {
      assert (a + b)[0] == a[0] && (a + b)[1..] == a[1..] + b;
      SerializeAppend(a[1..], b);
    }
  }

  lemma SerializeOne(e: Element)
    ensures Serialize([e]) == Markup(e)
  {
    assert [e][1..] == [];
  }

  /** One more text adds the markup of its element. */
  lemma SerializeLeavesStep(tag: string, texts: seq<string>, j: nat)
    requires j < |texts|
    ensures Serialize(Leaves(tag, texts[..j + 1])) == Serialize(Leaves(tag, texts[..j])) + Markup(Leaf(tag, texts[j]))
  {
    assert Leaves(tag, texts[..j + 1]) == Leaves(tag, texts[..j]) + [Leaf(tag, texts[j])];
    SerializeAppend(Leaves(tag, texts[..j]), [Leaf(tag, texts[j])]);
    SerializeOne(Leaf(tag, texts[j]));
  }

  lemma LeavesAppend(tag: string, a: seq<string>, b: seq<string>)
    ensures Leaves(tag, a + b) == Leaves(tag, a) + Leaves(tag, b)
  {
  }

  /** Every element of an option carries the key without its `xml-` prefix,
      and only `xml-` keys contribute. */
  lemma EntryTags(key: string, value: string)
    ensures EntryElements(key, value) != [] ==> IsXmlKey(key)
    ensures forall i | 0 <= i < |EntryElements(key, value)| :: EntryElements(key, value)[i].tag == key[4..]
  {
  }

  /** `true`, in any letter case, gives exactly `<tag/>` and a newline. */
  lemma TrueValue(key: string, value: string)
    requires IsXmlKey(key) && Lower(value) == "true"
    ensures Serialize(EntryElements(key, value)) == "<" + key[4..] + "/>\n"
  {
    SerializeOne(SelfClosing(key[4..]));
  }

  /** An empty value or `false`, in any letter case, gives nothing. */
  lemma FalseOrEmptyValue(key: string, value: string)
    requires value == "" || Lower(value) == "false"
    ensures EntryElements(key, value) == []
  {
  }

  lemma LowerKeepsNewline(value: string)
    requires '\n' in value
    ensures '\n' in Lower(value)
  {
    var i :| 0 <= i < |value| && value[i] == '\n';
    assert Lower(value)[i] == '\n';
  }

  /** A value holding "\n" gives one element per token of `split()`, in
      order: each token non-empty and whitespace-free, all of them together
      the value's non-whitespace characters. */
  lemma MultiLineValue(key: string, value: string)
    requires IsXmlKey(key) && '\n' in value
    ensures var es := EntryElements(key, value);
      && |es| == |Split(value)|
      && (forall i | 0 <= i < |es| :: es[i] == Leaf(key[4..], Split(value)[i]) && IsToken(es[i].text))
      && Concat(Split(value)) == WithoutSpaces(value)
  {
    LowerKeepsNewline(value);
    assert '\n' !in "true" && '\n' !in "false";
    SplitShape(value);
  }

  /** Any other value gives one element holding the value unescaped. */
  lemma ScalarValue(key: string, value: string)
    requires IsXmlKey(key) && value != "" && '\n' !in value
    requires Lower(value) != "true" && Lower(value) != "false"
    ensures Serialize(EntryElements(key, value)) == "<" + key[4..] + ">" + value + "</" + key[4..] + ">\n"
  {
    SerializeOne(Leaf(key[4..], value));
  }

  /** Options without the `xml-` prefix contribute nothing to the body. */
  lemma {:induction false} BodyWithoutXmlKeys(keys: seq<string>, values: map<string, string>)
    requires forall k | k in keys :: k in values
    requires forall k | k in keys :: !IsXmlKey(k)
    ensures BodyElements(keys, values) == []
  {
    if keys != [] {
      BodyWithoutXmlKeys(keys[..|keys| - 1], values);
    }
  }

  /** No `xml-` option and no path: the empty root element. */
  lemma EmptyDocument(keys: seq<string>, values: map<string, string>)
    requires forall k | k in keys :: k in values
    requires forall k | k in keys :: !IsXmlKey(k)
    ensures Document(BodyElements(keys, values), []) == "<uwsgi>\n</uwsgi>"
  {
    BodyWithoutXmlKeys(keys, values);
    assert BodyElements(keys, values) + PythonPaths([]) == [];
  }

  /** The document is the root element around the option elements followed
      by the `<pythonpath>` elements. */
  lemma DocumentParts(body: seq<Element>, paths: seq<string>)
    ensures Document(body, paths) == "<uwsgi>\n" + Serialize(body) + Serialize(PythonPaths(paths)) + "</uwsgi>"
  {
    SerializeAppend(body, PythonPaths(paths));
  }

  /** `xml-foo = true`, `xml-bar = false`, `xml-baz = hello`: the body is
      `<foo/>` and `<baz>hello</baz>`; `bar` is left out. */
  lemma ExampleBooleans(keys: seq<string>, values: map<string, string>)
    requires keys == ["xml-foo", "xml-bar", "xml-baz"]
    requires values == map["xml-foo" := "true", "xml-bar" := "false", "xml-baz" := "hello"]
    ensures Serialize(BodyElements(keys, values)) == "<foo/>\n" + "<baz>hello</baz>\n"
  {
    ExampleBooleanBody(keys, values);
    ExampleBooleanMarkup();
  }

  lemma ExampleBooleanMarkup()
    ensures Serialize([SelfClosing("foo"), Leaf("baz", "hello")]) == "<foo/>\n" + "<baz>hello</baz>\n"
  {
    assert [SelfClosing("foo"), Leaf("baz", "hello")] == [SelfClosing("foo")] + [Leaf("baz", "hello")];
    SerializeAppend([SelfClosing("foo")], [Leaf("baz", "hello")]);
    SerializeOne(SelfClosing("foo"));
    SerializeOne(Leaf("baz", "hello"));
  }

  lemma ExampleBooleanBody(keys: seq<string>, values: map<string, string>)
    requires keys == ["xml-foo", "xml-bar", "xml-baz"]
    requires values == map["xml-foo" := "true", "xml-bar" := "false", "xml-baz" := "hello"]
    ensures BodyElements(keys, values) == [SelfClosing("foo"), Leaf("baz", "hello")]
  {
    ExampleBooleanEntries();
    assert keys[..2][..1] == ["xml-foo"] && keys[..2] == ["xml-foo", "xml-bar"];
    assert ["xml-foo"][..0] == [];
    assert BodyElements(["xml-foo"], values) == [SelfClosing("foo")];
    assert BodyElements(keys[..2], values) == [SelfClosing("foo")];
  }

  lemma ExampleBooleanEntries()
    ensures EntryElements("xml-foo", "true") == [SelfClosing("foo")]
    ensures EntryElements("xml-bar", "false") == []
    ensures EntryElements("xml-baz", "hello") == [Leaf("baz", "hello")]
  {
    assert IsXmlKey("xml-foo") && IsXmlKey("xml-bar") && IsXmlKey("xml-baz");
    assert Lower("true") == "true" && Lower("false") == "false" && Lower("hello") == "hello";
    assert "xml-foo"[4..] == "foo" && "xml-baz"[4..] == "baz";
    assert '\n' !in "hello";
  }

  /** `xml-foo = "a b\nc"` splits on all whitespace, not only on "\n":
      three elements `a`, `b`, `c`. */
  lemma ExampleMultiLine(key: string, value: string)
    requires key == "xml-foo" && value == "a b\nc"
    ensures EntryElements(key, value) == [Leaf("foo", "a"), Leaf("foo", "b"), Leaf("foo", "c")]
  {
    ExampleMultiLineTokens(value);
    LowerKeepsNewline(value);
    assert '\n' !in "true" && '\n' !in "false";
    assert key[4..] == "foo";
  }

  lemma ExampleMultiLineTokens(value: string)
    requires value == "a b\nc"
    ensures '\n' in value
    ensures Split(value) == ["a", "b", "c"]
  {
    assert value == "a" + [' '] + ("b" + ['\n'] + "c");
    assert value[3] == '\n';
    SplitAtSpace("a", ' ', "b" + ['\n'] + "c");
    SplitAtSpace("b", '\n', "c");
    SplitOfWord("a");
    SplitOfWord("b");
    SplitOfWord("c");
  }
}
