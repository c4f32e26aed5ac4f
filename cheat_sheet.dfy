/**
 * What the simple cheat-sheet objects share: the element and attribute
 * names they read and write, the object type tags, the kinds of executable
 * a sub-item can hold, and the printer they write through.
 *
 * The printer (XMLPrintHandler over a PrintWriter) is modelled by the
 * events it is asked to print rather than by text: formatting and
 * attribute escaping are not part of this model.
 */
module CheatSheet {
  import opened Wrappers
  import opened Dom

  const ELEMENT_SUBITEM := "subitem"
  const ELEMENT_DESCRIPTION := "description"
  const ELEMENT_ACTION := "action"
  const ELEMENT_COMMAND := "command"
  const ELEMENT_PERFORM_WHEN := "perform-when"
  const ATTRIBUTE_LABEL := "label"
  const ATTRIBUTE_SKIP := "skip"
  const ATTRIBUTE_WHEN := "when"
  const ATTRIBUTE_VALUE_TRUE := "true"
  const ATTRIBUTE_VALUE_FALSE := "false"

  /** The indentation step the printer adds for nested content. */
  const XML_INDENT := "   "

  /** The `TYPE_*` tags returned by `getType()`. */
  datatype ObjectType = TypeSubItem | TypeDescription

  /** The three element kinds that can serve as a sub-item's executable. */
  datatype RunKind = Action | Command | PerformWhen

  /** An executable created by the model factory; it has parsed `source`. */
  datatype Executable = Executable(kind: RunKind, source: Element)

  datatype Attribute = Attribute(name: string, value: string)

  /** One call the cheat-sheet objects make on the printer. */
  datatype PrintEvent =
    | BeginElement(name: string, attributes: seq<Attribute>, indent: string)
    | PrintText(text: string, indent: string)
    | EndElement(name: string, indent: string)
    | WriteChild(child: Executable, indent: string)

  /** The value of the first attribute called `name`, if any. */
  function Lookup(attributes: seq<Attribute>, name: string): Option<string> {
    if attributes == [] then None
    else if attributes[0].name == name then Some(attributes[0].value)
    else Lookup(attributes[1..], name)
  }

  /** Java's `Boolean.toString()`. */
  function BooleanString(b: bool): string {
    if b then ATTRIBUTE_VALUE_TRUE else ATTRIBUTE_VALUE_FALSE
  }

  /** The first `n` events of `events`, or all of them when there are fewer. */
  function Truncate(events: seq<PrintEvent>, n: nat): (r: seq<PrintEvent>)
    ensures |r| <= n && r <= events
    ensures n >= |events| ==> r == events
  {
    if n >= |events| then events else events[..n]
  }

  /** How many print calls the stream still accepts after `n` more calls,
   *  starting from `room`. */
  function RoomAfter(room: nat, n: nat): nat {
    if room >= n then room - n else 0
  }

  /** Printing `a` and then `b` through a stream that accepts `room` calls. */
  lemma TruncateAppend(a: seq<PrintEvent>, b: seq<PrintEvent>, room: nat)
    ensures Truncate(a + b, room) == Truncate(a, room) + Truncate(b, RoomAfter(room, |a|))
  {
    if room < |a| {
      assert (a + b)[..room] == a[..room];
    } else if room < |a| + |b| {
      assert (a + b)[..room] == a + b[..room - |a|];
    }
  }

  /**
   * The output a cheat-sheet object writes to. `room` is how many more
   * print calls the underlying stream accepts; the next one after that
   * fails with an IOException, and so does every later one.
   */
  class XmlWriter {
    var events: seq<PrintEvent>
    var room: nat

    constructor (room: nat)
      ensures events == [] && this.room == room
    {
      events := [];
      this.room := room;
    }

    /** One XMLPrintHandler call: `ok` is false when it raised an IOException. */
    method Print(e: PrintEvent) returns (ok: bool)
      modifies this
      ensures ok <==> old(room) > 0
      ensures events == if ok then old(events) + [e] else old(events)
      ensures room == if ok then old(room) - 1 else 0
    {
      ok := room > 0;
      if ok {
        events := events + [e];
        room := room - 1;
      }
    }
  }
}
