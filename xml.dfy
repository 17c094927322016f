/**
 * The element tree handed to the XML builder: elements with a tag, attributes
 * in order and children in order, and text nodes.  The builder's own
 * serialisation to bytes is not part of this model.
 */
module Xml {

  datatype Node =
    | Elem(tag: string, attrs: seq<(string, string)>, children: seq<Node>)
    | Text(s: string)

  /** The XML declaration together with the single root element. */
  datatype XmlDocument = XmlDocument(version: string, encoding: string, root: Node)

  /** An element with no attributes holding one text node: `.ele(tag).txt(s).up()`. */
  function Leaf(tag: string, s: string): Node {
    Elem(tag, [], [Text(s)])
  }

  /** The number of elements tagged `tag` among `nodes` (not descending into them). */
  function CountTag(nodes: seq<Node>, tag: string): nat {
    if |nodes| == 0 then 0
    else (if nodes[0].Elem? && nodes[0].tag == tag then 1 else 0) + CountTag(nodes[1..], tag)
  }

  lemma {:induction false} CountTagConcat(a: seq<Node>, b: seq<Node>, tag: string)
    ensures CountTag(a + b, tag) == CountTag(a, tag) + CountTag(b, tag)
  {
    if |a| > 0 {
      assert (a + b)[1..] == a[1..] + b;
      CountTagConcat(a[1..], b, tag);
    } else {
      assert a + b == b;
    }
  }

  /** When every node is an element tagged `tag`, all of them are counted. */
  lemma {:induction false} CountTagAll(nodes: seq<Node>, tag: string)
    requires forall i :: 0 <= i < |nodes| ==> nodes[i].Elem? && nodes[i].tag == tag
    ensures CountTag(nodes, tag) == |nodes|
  {
    if |nodes| > 0 {
      CountTagAll(nodes[1..], tag);
    }
  }

  /** When no node is an element tagged `tag`, none of them is counted. */
  lemma {:induction false} CountTagNone(nodes: seq<Node>, tag: string)
    requires forall i :: 0 <= i < |nodes| ==> !(nodes[i].Elem? && nodes[i].tag == tag)
    ensures CountTag(nodes, tag) == 0
  {
    if |nodes| > 0 {
      CountTagNone(nodes[1..], tag);
    }
  }
}
