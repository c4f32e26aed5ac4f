/**
 * The slice of the W3C DOM that the cheat-sheet objects read: an element
 * has a tag name, attributes and an ordered list of child nodes. The child
 * list is taken as already normalised (adjacent text nodes merged).
 */
module Dom {

  datatype Element = Element(name: string, attributes: map<string, string>, children: seq<Node>)

  /** The node kinds a cheat-sheet element can hold. Only `TextNode` has the
   *  DOM type TEXT_NODE; a CDATA section is a different node type. */
  datatype Node =
    | ElementNode(element: Element)
    | TextNode(data: string)
    | CDataNode(data: string)
    | CommentNode(data: string)

  /** `Element.getAttribute(name)`: the attribute's value, or the empty
   *  string when the element has no such attribute. */
  function GetAttribute(e: Element, name: string): string {
    if name in e.attributes then e.attributes[name] else ""
  }
}
