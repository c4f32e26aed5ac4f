/**
 * SimpleCSSubItem: a sub-item of a cheat-sheet item. It holds a label, a
 * skip flag, a `when` condition and at most one executable (an action, a
 * command or a perform-when), and it reads itself from and writes itself to
 * a `subitem` XML element.
 */
module CheatSheetSubItem {
  import opened Wrappers
  import opened Dom
  import opened CheatSheet

  /** The four fields of a sub-item, as one value; `None` is Java's null. */
  datatype SubItemState = SubItemState(
    labelText: Option<string>,
    skip: bool,
    when: Option<string>,
    executable: Option<Executable>)

  /** The state `reset()` establishes. */
  const Initial := SubItemState(None, false, None, None)

  /** The executable the model factory creates and parses for a child node,
   *  when the child is an element named action, command or perform-when. */
  function RunObject(n: Node): Option<Executable> {
    if !n.ElementNode? then None
    else if n.element.name == ELEMENT_ACTION then Some(Executable(Action, n.element))
    else if n.element.name == ELEMENT_COMMAND then Some(Executable(Command, n.element))
    else if n.element.name == ELEMENT_PERFORM_WHEN then Some(Executable(PerformWhen, n.element))
    else None
  }

  /**
   * The model factory's dispatch in `parse`: a child yields an executable
   * exactly when it is an element named action, command or perform-when,
   * and the executable's kind is the one its name selects.
   */
  lemma RunObjectDispatch(n: Node)
    ensures RunObject(n).Some? <==>
              n.ElementNode? && n.element.name in [ELEMENT_ACTION, ELEMENT_COMMAND, ELEMENT_PERFORM_WHEN]
    ensures n.ElementNode? && n.element.name == ELEMENT_ACTION ==> RunObject(n) == Some(Executable(Action, n.element))
    ensures n.ElementNode? && n.element.name == ELEMENT_COMMAND ==> RunObject(n) == Some(Executable(Command, n.element))
    ensures n.ElementNode? && n.element.name == ELEMENT_PERFORM_WHEN ==>
              RunObject(n) == Some(Executable(PerformWhen, n.element))
  {
  }

  /** The executable after the children loop of `parse` has visited
   *  `children`, starting from `prev`. */
  function LastExecutable(children: seq<Node>, prev: Option<Executable>): Option<Executable>
    decreases |children|
  {
    if children == [] then prev
    else
      match RunObject(children[|children| - 1])
      case Some(x) => Some(x)
      case None => LastExecutable(children[..|children| - 1], prev)
  }

  /** No child, from index `from` on, creates an executable. */
  ghost predicate NoRunChildFrom(children: seq<Node>, from: int) {
    forall k :: from <= k < |children| && 0 <= k ==> RunObject(children[k]).None?
  }

  /** With no child that creates an executable, the loop keeps `prev`. */
  lemma {:induction false} LastExecutableWithoutRunChild(children: seq<Node>, prev: Option<Executable>)
    requires NoRunChildFrom(children, 0)
    ensures LastExecutable(children, prev) == prev
    decreases |children|
  {
    if children != [] {
      var init := children[..|children| - 1];
      assert RunObject(children[|children| - 1]).None?;
      assert NoRunChildFrom(init, 0) by {
        forall k | 0 <= k < |init| ensures RunObject(init[k]).None? {
          assert init[k] == children[k];
        }
      }
      LastExecutableWithoutRunChild(init, prev);
    }
  }

  /** When child `j` creates an executable and no later child does, the
   *  loop ends with the executable created for child `j`. */
  lemma {:induction false} LastExecutableAtLastRunChild(children: seq<Node>, prev: Option<Executable>, j: nat)
    requires j < |children| && RunObject(children[j]).Some? && NoRunChildFrom(children, j + 1)
    ensures LastExecutable(children, prev) == RunObject(children[j])
    decreases |children|
  {
    var n := |children| - 1;
    if j < n {
      var init := children[..n];
      assert RunObject(children[n]).None?;
      assert init[j] == children[j];
      assert NoRunChildFrom(init, j + 1) by {
        forall k | j + 1 <= k < |init| ensures RunObject(init[k]).None? {
          assert init[k] == children[k];
        }
      }
      LastExecutableAtLastRunChild(init, prev, j);
    }
  }

  /**
   * The executable `parse` leaves is the one created for the last child
   * that is an element named action, command or perform-when; with no such
   * child it is the executable held before.
   */
  lemma {:induction false} LastExecutableIsLastRunChild(children: seq<Node>, prev: Option<Executable>)
    ensures NoRunChildFrom(children, 0) ==> LastExecutable(children, prev) == prev
    ensures forall j :: 0 <= j < |children| && RunObject(children[j]).Some? && NoRunChildFrom(children, j + 1) ==>
              LastExecutable(children, prev) == RunObject(children[j])
  {
    if NoRunChildFrom(children, 0) {
      LastExecutableWithoutRunChild(children, prev);
    }
    forall j | 0 <= j < |children| && RunObject(children[j]).Some? && NoRunChildFrom(children, j + 1)
      ensures LastExecutable(children, prev) == RunObject(children[j])
    {
      LastExecutableAtLastRunChild(children, prev, j);
    }
  }

  /** Once some child creates an executable, what was held before does not matter. */
  lemma {:induction false} LastExecutableForgetsPrevious(children: seq<Node>, p1: Option<Executable>, p2: Option<Executable>)
    requires exists j :: 0 <= j < |children| && RunObject(children[j]).Some?
    ensures LastExecutable(children, p1) == LastExecutable(children, p2)
    ensures LastExecutable(children, p1).Some?
  {
    var j :| 0 <= j < |children| && RunObject(children[j]).Some?;
    while !NoRunChildFrom(children, j + 1)
      invariant 0 <= j < |children| && RunObject(children[j]).Some?
      decreases |children| - j
    {
      var k :| j + 1 <= k < |children| && RunObject(children[k]).Some?;
      j := k;
    }
    LastExecutableIsLastRunChild(children, p1);
    LastExecutableIsLastRunChild(children, p2);
  }

  /** The state `parse(element)` leaves, starting from `s`. */
  function Parsed(s: SubItemState, e: Element): SubItemState {
    SubItemState(
      Some(GetAttribute(e, ATTRIBUTE_LABEL)),
      s.skip || GetAttribute(e, ATTRIBUTE_SKIP) == ATTRIBUTE_VALUE_TRUE,
      Some(GetAttribute(e, ATTRIBUTE_WHEN)),
      LastExecutable(e.children, s.executable))
  }

  /** The attributes `write` puts in the `subitem` begin element. */
  function SubItemAttributes(s: SubItemState): seq<Attribute> {
    (if s.labelText.Some? && |s.labelText.value| > 0 then [Attribute(ATTRIBUTE_LABEL, s.labelText.value)] else [])
    + [Attribute(ATTRIBUTE_SKIP, BooleanString(s.skip))]
    + (if s.when.Some? && |s.when.value| > 0 then [Attribute(ATTRIBUTE_WHEN, s.when.value)] else [])
  }

  /** The printer calls `write(indent, writer)` makes when no print fails. */
  function SubItemEvents(s: SubItemState, indent: string): seq<PrintEvent> {
    [BeginElement(ELEMENT_SUBITEM, SubItemAttributes(s), indent)]
    + (if s.executable.Some? then [WriteChild(s.executable.value, indent + XML_INDENT)] else [])
    + [EndElement(ELEMENT_SUBITEM, indent)]
  }

  /** Where an attribute name may appear in a `subitem` begin element. */
  function AttributeRank(name: string): int {
    if name == ATTRIBUTE_LABEL then 0 else if name == ATTRIBUTE_SKIP then 1 else 2
  }

  /**
   * The begin element carries the label and the `when` condition only when
   * they are non-null and non-empty, always carries skip as "true" or
   * "false" ("true" exactly when the flag is set), carries no other
   * attribute, and lists its attributes in the order label, skip, when.
   */
  lemma SubItemAttributesWritten(s: SubItemState)
    ensures Lookup(SubItemAttributes(s), ATTRIBUTE_LABEL) ==
              if s.labelText.Some? && s.labelText.value != "" then s.labelText else None
    ensures Lookup(SubItemAttributes(s), ATTRIBUTE_SKIP) ==
              Some(if s.skip then ATTRIBUTE_VALUE_TRUE else ATTRIBUTE_VALUE_FALSE)
    ensures Lookup(SubItemAttributes(s), ATTRIBUTE_SKIP) == Some(ATTRIBUTE_VALUE_TRUE) <==> s.skip
    ensures Lookup(SubItemAttributes(s), ATTRIBUTE_WHEN) ==
              if s.when.Some? && s.when.value != "" then s.when else None
    ensures forall i, j :: 0 <= i < j < |SubItemAttributes(s)| ==>
              AttributeRank(SubItemAttributes(s)[i].name) < AttributeRank(SubItemAttributes(s)[j].name)
    ensures forall i :: 0 <= i < |SubItemAttributes(s)| ==>
              SubItemAttributes(s)[i].name in [ATTRIBUTE_LABEL, ATTRIBUTE_SKIP, ATTRIBUTE_WHEN]
  {
    var skipAttr := Attribute(ATTRIBUTE_SKIP, BooleanString(s.skip));
    var whenPart := if s.when.Some? && |s.when.value| > 0 then [Attribute(ATTRIBUTE_WHEN, s.when.value)] else [];
    var tail := [skipAttr] + whenPart;
    assert tail[1..] == whenPart;
    assert Lookup(tail, ATTRIBUTE_LABEL) == Lookup(whenPart, ATTRIBUTE_LABEL) == None;
    assert Lookup(tail, ATTRIBUTE_WHEN) == Lookup(whenPart, ATTRIBUTE_WHEN);
    if s.labelText.Some? && |s.labelText.value| > 0 {
      assert SubItemAttributes(s) == [Attribute(ATTRIBUTE_LABEL, s.labelText.value)] + tail;
      assert SubItemAttributes(s)[1..] == tail;
    } else {
      assert SubItemAttributes(s) == tail;
    }
  }

  /**
   * `write` prints the `subitem` begin element at `indent`, then the
   * executable one indentation step deeper if there is one, then the
   * `subitem` end element at `indent`.
   */
  lemma SubItemEventsOrder(s: SubItemState, indent: string)
    ensures |SubItemEvents(s, indent)| == if s.executable.Some? then 3 else 2
    ensures SubItemEvents(s, indent)[0] == BeginElement(ELEMENT_SUBITEM, SubItemAttributes(s), indent)
    ensures s.executable.Some? ==> SubItemEvents(s, indent)[1] == WriteChild(s.executable.value, indent + XML_INDENT)
    ensures SubItemEvents(s, indent)[|SubItemEvents(s, indent)| - 1] == EndElement(ELEMENT_SUBITEM, indent)
  {
  }

  /**
   * Writing a parsed sub-item: the label and `when` attributes of the
   * element come back exactly when they were non-empty, and skip is written
   * "true" when it was set before or the element's skip attribute is "true";
   * after `reset`, exactly when the attribute is "true".
   */
  lemma ParseThenWriteAttributes(s: SubItemState, e: Element)
    ensures Lookup(SubItemAttributes(Parsed(s, e)), ATTRIBUTE_LABEL) ==
              if GetAttribute(e, ATTRIBUTE_LABEL) == "" then None else Some(GetAttribute(e, ATTRIBUTE_LABEL))
    ensures Lookup(SubItemAttributes(Parsed(s, e)), ATTRIBUTE_WHEN) ==
              if GetAttribute(e, ATTRIBUTE_WHEN) == "" then None else Some(GetAttribute(e, ATTRIBUTE_WHEN))
    ensures Lookup(SubItemAttributes(Parsed(s, e)), ATTRIBUTE_SKIP) ==
              Some(if s.skip || GetAttribute(e, ATTRIBUTE_SKIP) == ATTRIBUTE_VALUE_TRUE
                   then ATTRIBUTE_VALUE_TRUE else ATTRIBUTE_VALUE_FALSE)
    ensures Lookup(SubItemAttributes(Parsed(Initial, e)), ATTRIBUTE_SKIP) ==
              Some(if GetAttribute(e, ATTRIBUTE_SKIP) == ATTRIBUTE_VALUE_TRUE
                   then ATTRIBUTE_VALUE_TRUE else ATTRIBUTE_VALUE_FALSE)
  {
    SubItemAttributesWritten(Parsed(s, e));
    SubItemAttributesWritten(Parsed(Initial, e));
  }

  /** Parsing the same element twice leaves the same state as parsing it once. */
  lemma ParseIdempotent(s: SubItemState, e: Element)
    ensures Parsed(Parsed(s, e), e) == Parsed(s, e)
  {
    var cs := e.children;
    if exists j :: 0 <= j < |cs| && RunObject(cs[j]).Some? {
      LastExecutableForgetsPrevious(cs, s.executable, LastExecutable(cs, s.executable));
    } else {
      LastExecutableIsLastRunChild(cs, s.executable);
      LastExecutableIsLastRunChild(cs, LastExecutable(cs, s.executable));
    }
  }

  class SimpleCSSubItem {
    var labelText: Option<string>
    var skip: bool
    var when: Option<string>
    var executable: Option<Executable>

    function State(): SubItemState
      reads this
    {
      SubItemState(labelText, skip, when, executable)
    }

    constructor ()
      ensures State() == Initial
    {
      labelText, skip, when, executable := None, false, None, None;
    }

    function GetLabel(): Option<string> reads this { labelText }
    function GetSkip(): bool reads this { skip }
    function GetWhen(): Option<string> reads this { when }
    function GetExecutable(): Option<Executable> reads this { executable }

    method SetLabel(l: Option<string>)
      modifies this
      ensures GetLabel() == l
      ensures State() == old(State()).(labelText := l)
    {
      labelText := l;
    }

    method SetSkip(b: bool)
      modifies this
      ensures GetSkip() == b
      ensures State() == old(State()).(skip := b)
    {
      skip := b;
    }

    method SetWhen(w: Option<string>)
      modifies this
      ensures GetWhen() == w
      ensures State() == old(State()).(when := w)
    {
      when := w;
    }

    method SetExecutable(x: Option<Executable>)
      modifies this
      ensures GetExecutable() == x
      ensures State() == old(State()).(executable := x)
    {
      executable := x;
    }

    method Reset()
      modifies this
      ensures State() == Initial
    {
      labelText := None;
      skip := false;
      when := None;
      executable := None;
    }

    method Parse(element: Element)
      modifies this
      ensures State() == Parsed(old(State()), element)
    {
      labelText := Some(GetAttribute(element, ATTRIBUTE_LABEL));
      if GetAttribute(element, ATTRIBUTE_SKIP) == ATTRIBUTE_VALUE_TRUE {
        skip := true;
      }
      when := Some(GetAttribute(element, ATTRIBUTE_WHEN));
      var children := element.children;
      var i := 0;
      while i < |children|
        invariant 0 <= i <= |children|
        invariant labelText == Some(GetAttribute(element, ATTRIBUTE_LABEL))
        invariant skip == (old(skip) || GetAttribute(element, ATTRIBUTE_SKIP) == ATTRIBUTE_VALUE_TRUE)
        invariant when == Some(GetAttribute(element, ATTRIBUTE_WHEN))
        invariant executable == LastExecutable(children[..i], old(executable))
      {
        var child := children[i];
        if child.ElementNode? {
          var name := child.element.name;
          if name == ELEMENT_ACTION {
            executable := Some(Executable(Action, child.element));
          } else if name == ELEMENT_COMMAND {
            executable := Some(Executable(Command, child.element));
          } else if name == ELEMENT_PERFORM_WHEN {
            executable := Some(Executable(PerformWhen, child.element));
          }
        }
        assert children[..i + 1][..i] == children[..i];
        i := i + 1;
      }
      assert children[..|children|] == children;
    }

    /** The attributes of the `subitem` begin element, appended one by one:
     *  label and when only when non-null and non-empty, skip always. */
    method BeginAttributes() returns (attributes: seq<Attribute>)
      ensures attributes == SubItemAttributes(State())
    {
      attributes := [];
      if labelText.Some? && |labelText.value| > 0 {
        attributes := attributes + [Attribute(ATTRIBUTE_LABEL, labelText.value)];
      }
      attributes := attributes + [Attribute(ATTRIBUTE_SKIP, BooleanString(skip))];
      if when.Some? && |when.value| > 0 {
        attributes := attributes + [Attribute(ATTRIBUTE_WHEN, when.value)];
      }
    }

    /**
     * Prints the `subitem` element. A print that fails ends the output;
     * the failure is suppressed. The executable's own write handles its own
     * failures, so the end element is still attempted after it.
     */
    method Write(indent: string, writer: XmlWriter)
      modifies writer
      ensures writer.events == old(writer.events) + Truncate(SubItemEvents(State(), indent), old(writer.room))
      ensures writer.room == RoomAfter(old(writer.room), |SubItemEvents(State(), indent)|)
    {
      var newIndent := indent + XML_INDENT;
      var attributes := BeginAttributes();
      var begin := BeginElement(ELEMENT_SUBITEM, attributes, indent);
      var end := EndElement(ELEMENT_SUBITEM, indent);
      ghost var middle := if executable.Some? then [WriteChild(executable.value, newIndent)] else [];
      ghost var events0, room0 := writer.events, writer.room;
      ghost var all := SubItemEvents(State(), indent);
      assert all == [begin] + (middle + [end]);
      TruncateAppend([begin], middle + [end], room0);
      TruncateAppend(middle, [end], RoomAfter(room0, 1));
      var ok := writer.Print(begin);
      if ok {
        ghost var events1 := writer.events;
        if executable.Some? {
          var _ := writer.Print(WriteChild(executable.value, newIndent));
          assert writer.events == events1 + Truncate(middle, room0 - 1);
        } else {
          assert middle == [];
        }
        ok := writer.Print(end);
      }
      assert SubItemEvents(State(), indent) == all;
    }

    function GetType(): ObjectType {
      TypeSubItem
    }
  }
}
