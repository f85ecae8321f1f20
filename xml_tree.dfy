/**
 * The gateway's `extract_xml` and `parse`: an element with child elements
 * becomes a hash from child name to the child's own extraction (a later
 * sibling with the same name overwrites an earlier one), an element without
 * child elements becomes its text, and `parse` tags the hash with the
 * root's name.
 */
module XmlTree {
  import opened Wrappers
  import opened RubyValues

  /**
   * An element as the XML library delivers it: its name (namespace prefix
   * already stripped), its child elements in document order, and its `text`,
   * the content of its first text node (untrimmed, entity references
   * expanded), or None when it has no text node (`<ResponseCode/>`).
   */
  datatype Element = Element(name: string, children: seq<Element>, text: Option<string>)

  /** A parsed response: the root element's name (under `:container`) and the hash of its children. */
  datatype Parsed = Parsed(container: string, fields: map<string, Tree>)

  /** What the HTTPS GET and the XML library make of one request. */
  datatype Reply =
    | Document(root: Element)   // a well-formed document
    | EmptyDocument             // well-formed but without a root element
    | MalformedXml              // the XML library raises
    | Unreachable               // the GET itself raises

  /** `extract_xml(element)`. */
  function ExtractTree(e: Element): Tree
    decreases e, |e.children| + 1
  {
    if |e.children| == 0 then Leaf(e.text) else Node(ChildMap(e, |e.children|))
  }

  /** The hash `extract_xml` has built after the first `n` children of `e`. */
  function ChildMap(e: Element, n: nat): map<string, Tree>
    requires n <= |e.children|
    decreases e, n
  {
    if n == 0 then map[]
    else ChildMap(e, n - 1)[e.children[n - 1].name := ExtractTree(e.children[n - 1])]
  }

  /** Child `j` is the last of the first `n` children of `e` that carries its name. */
  ghost predicate LastOfName(e: Element, n: nat, j: nat) {
    j < n <= |e.children| && forall k :: j < k < n ==> e.children[k].name != e.children[j].name
  }

  lemma {:induction false} ChildMapKeys(e: Element, n: nat)
    requires n <= |e.children|
    ensures ChildMap(e, n).Keys == set i | 0 <= i < n :: e.children[i].name
  {
    if n > 0 {
      ChildMapKeys(e, n - 1);
      assert (set i | 0 <= i < n :: e.children[i].name)
          == (set i | 0 <= i < n - 1 :: e.children[i].name) + {e.children[n - 1].name};
    }
  }

  /** Duplicate names: the last sibling wins. */
  lemma {:induction false} ChildMapLastWins(e: Element, n: nat, j: nat)
    requires LastOfName(e, n, j)
    ensures e.children[j].name in ChildMap(e, n)
    ensures ChildMap(e, n)[e.children[j].name] == ExtractTree(e.children[j])
  {
    if j < n - 1 {
      ChildMapLastWins(e, n - 1, j);
    }
  }

  /** `extract_xml` as the source runs it: a loop over the children filling a hash. */
  method ExtractXml(e: Element) returns (t: Tree)
    ensures t == ExtractTree(e)
    decreases e
  {
    if |e.children| > 0 {
      var hash: map<string, Tree> := map[];
      var i := 0;
      while i < |e.children|
        invariant 0 <= i <= |e.children|
        invariant hash == ChildMap(e, i)
      {
        var child := e.children[i];
        var sub := ExtractXml(child);
        hash := hash[child.name := sub];
        i := i + 1;
      }
      t := Node(hash);
    } else {
      t := Leaf(e.text);
    }
  }

  /**
   * `parse(ssl_get(url))`: the transport's and the XML library's failures
   * propagate; a document without a root, or whose root has no child
   * elements, fails on a method call that nil or a String lacks.
   */
  function ParseReply(reply: Reply): Result<Parsed, Error> {
    match reply
    case Unreachable => Failure(TransportError)
    case MalformedXml => Failure(XmlParseError)
    case EmptyDocument => Failure(NoMethodError("has_elements?"))
    case Document(root) =>
      match ExtractTree(root)
      case Node(m) => Success(Parsed(root.name, m))
      case Leaf(_) => Failure(NoMethodError("merge"))
  }

  /**
   * What a successful parse holds: the root's name, one field per child
   * name, each the extraction of the last child with that name; and a parse
   * fails exactly when the root has no child elements.
   */
  lemma ParseDocumentShape(root: Element)
    ensures ParseReply(Document(root)).Success? <==> |root.children| > 0
    ensures ParseReply(Document(root)).Success? ==>
      var p := ParseReply(Document(root)).value;
      && p.container == root.name
      && p.fields.Keys == (set i | 0 <= i < |root.children| :: root.children[i].name)
      && forall j: nat :: LastOfName(root, |root.children|, j) ==>
           p.fields[root.children[j].name] == ExtractTree(root.children[j])
  {
    if |root.children| > 0 {
      ChildMapKeys(root, |root.children|);
      forall j: nat | LastOfName(root, |root.children|, j)
        ensures ChildMap(root, |root.children|)[root.children[j].name] == ExtractTree(root.children[j])
      {
        ChildMapLastWins(root, |root.children|, j);
      }
    }
  }

  /** `parse` as the source runs it, through `extract_xml`. */
  method Parse(reply: Reply) returns (r: Result<Parsed, Error>)
    ensures r == ParseReply(reply)
  {
    match reply
    case Unreachable => r := Failure(TransportError);
    case MalformedXml => r := Failure(XmlParseError);
    case EmptyDocument => r := Failure(NoMethodError("has_elements?"));
    case Document(root) =>
      var tree := ExtractXml(root);
      if tree.Node? {
        r := Success(Parsed(root.name, tree.children));
      } else {
        r := Failure(NoMethodError("merge"));
      }
  }
}
