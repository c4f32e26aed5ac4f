/**
 * SimpleCSDescription: the description of a cheat sheet or of one of its
 * items. It holds one piece of text, read from and written to a
 * `description` XML element.
 */
module CheatSheetDescription {
  import opened Wrappers
  import opened Dom
  import opened JavaString
  import opened CheatSheet

  /** Whether `parse` takes its content from `e`: `e` has a first child and
   *  that child is a text node. */
  predicate HasLeadingText(e: Element) {
    |e.children| > 0 && e.children[0].TextNode?
  }

  /** The content `parse(e)` leaves, starting from `content`. */
  function ParsedContent(content: Option<string>, e: Element): Option<string> {
    if HasLeadingText(e) then Some(Trim(e.children[0].data)) else content
  }

  /** The printer calls `write(indent, writer)` makes when no print fails. */
  function DescriptionEvents(content: Option<string>, indent: string): seq<PrintEvent> {
    [BeginElement(ELEMENT_DESCRIPTION, [], indent)]
    + (if content.Some? && |content.value| > 0 then [PrintText(content.value, indent + XML_INDENT)] else [])
    + [EndElement(ELEMENT_DESCRIPTION, indent)]
  }

  /**
   * `parse` replaces the content by the trimmed text of the first child
   * when that child is a text node, and otherwise keeps it. Content it sets
   * has no trimmable character at either end, so trimming it again
   * changes nothing.
   */
  lemma ParsedContentIsTrimmed(content: Option<string>, e: Element)
    ensures !HasLeadingText(e) ==> ParsedContent(content, e) == content
    ensures HasLeadingText(e) ==> ParsedContent(content, e) == Some(Trim(e.children[0].data))
    ensures HasLeadingText(e) ==>
              var c := ParsedContent(content, e).value;
              Trim(c) == c && (c == [] || (!IsTrimmable(c[0]) && !IsTrimmable(c[|c| - 1])))
  {
    if HasLeadingText(e) {
      TrimIdempotent(e.children[0].data);
    }
  }

  /**
   * `write` prints the `description` begin element at `indent`, then the
   * content one indentation step deeper only when it is non-null and
   * non-empty, then the `description` end element at `indent`.
   */
  lemma DescriptionEventsOrder(content: Option<string>, indent: string)
    ensures var ev := DescriptionEvents(content, indent);
      && |ev| == (if content.Some? && content.value != "" then 3 else 2)
      && ev[0] == BeginElement(ELEMENT_DESCRIPTION, [], indent)
      && ev[|ev| - 1] == EndElement(ELEMENT_DESCRIPTION, indent)
      && (|ev| == 3 ==> ev[1] == PrintText(content.value, indent + XML_INDENT))
  {
  }

  /**
   * Writing a description parsed from an element whose first child is
   * text: the text is printed exactly when something other than trimmable
   * characters was there, and what is printed is the trimmed text.
   */
  lemma ParseThenWriteText(content: Option<string>, e: Element, indent: string)
    requires HasLeadingText(e)
    ensures var ev := DescriptionEvents(ParsedContent(content, e), indent);
      && (|ev| == 3 <==> !AllTrimmable(e.children[0].data))
      && (|ev| == 3 ==> ev[1] == PrintText(Trim(e.children[0].data), indent + XML_INDENT))
  {
    var data := e.children[0].data;
    var t := Trim(data);
    if t != [] {
      var k := LeadingCount(data);
      assert data[k..k + |t|][0] == data[k];
      assert !IsTrimmable(data[k]);
    }
  }

  class SimpleCSDescription {
    var content: Option<string>

    constructor ()
      ensures content == None
    {
      content := None;
    }

    function GetContent(): Option<string>
      reads this
    {
      content
    }

    method SetContent(c: Option<string>)
      modifies this
      ensures GetContent() == c
    {
      content := c;
    }

    method Parse(element: Element)
      modifies this
      ensures content == ParsedContent(old(content), element)
    {
      if |element.children| > 0 {
        var text := element.children[0];
        if text.TextNode? {
          content := Some(Trim(text.data));
        }
      }
    }

    method Reset()
      modifies this
      ensures content == None
    {
      content := None;
    }

    /**
     * Prints the `description` element. A print that fails ends the
     * output; the failure is suppressed.
     */
    method Write(indent: string, writer: XmlWriter)
      modifies writer
      ensures writer.events == old(writer.events) + Truncate(DescriptionEvents(content, indent), old(writer.room))
      ensures writer.room == RoomAfter(old(writer.room), |DescriptionEvents(content, indent)|)
    {
      var newIndent := indent + XML_INDENT;
      var ok := writer.Print(BeginElement(ELEMENT_DESCRIPTION, [], indent));
      if ok {
        if content.Some? && |content.value| > 0 {
          ok := writer.Print(PrintText(content.value, newIndent));
        }
        if ok {
          ok := writer.Print(EndElement(ELEMENT_DESCRIPTION, indent));
        }
      }
    }

    function GetType(): ObjectType {
      TypeDescription
    }
  }
}
