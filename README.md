# PDE site build and simple cheat-sheet objects, modelled in Dafny

This project models three small pieces of the Eclipse Plug-in Development
Environment (PDE) core:

- **SiteBuildOperation** (`site_build.dfy`, module `SiteBuild`). This is the
  export that builds the features of an update site. Its
  `createAntBuildProperties` starts from the feature export's per-platform
  property map. When the export goes to a directory, it adds the p2 metadata
  flag, the default p2 flavor and the "do not publish artifacts" flag. It also
  adds a metadata repository URL and an artifact repository URL, both derived
  from the destination directory. If that URL conversion fails, the failure is
  logged and swallowed. Its `createPostProcessingFiles` requests the feature
  hook file and then the plug-in hook file, both in the feature location. The
  operation is a class. The superclass map is a parameter. `File.toURL()` is a
  parameter `toUrl` that returns `None` where Java raises
  MalformedURLException. The log call becomes the out-parameter `logged`.
  The p2 properties depend on `toDirectory` alone, as the code at
  SiteBuildOperation.java line 48 does.
- **SimpleCSSubItem** (`sub_item.dfy`, module `CheatSheetSubItem`). This is a
  sub-item of a cheat-sheet item. It is a class whose four fields are a label,
  a skip flag, a `when` condition and an optional executable. It has getters,
  setters, `reset`, `parse` from a `subitem` DOM element (a loop over the
  children) and `write`. Java's null is `None`.
- **SimpleCSDescription** (`description.dfy`, module `CheatSheetDescription`).
  This is a cheat-sheet description: one nullable content string with
  `get`/`setContent`, `reset`, `parse` and `write`.

Supporting modules:

- `Dom` (`dom.dfy`): DOM elements and nodes. `getAttribute` returns "" for a
  missing attribute.
- `JavaString` (`java_string.dfy`): `String.trim()`.
- `CheatSheet` (`cheat_sheet.dfy`): element and attribute names, the
  executable kinds, and the printer. The printer (XMLPrintHandler over a
  PrintWriter) is an `XmlWriter` object. It records abstract print events:
  begin element with its attributes, text, end element, and a delegated
  child write. Its `room` field says how many more print calls the stream
  accepts before it raises an IOException. Both `write` methods stop at the
  first failing print and return normally. So their contracts say they emit a
  prefix of the full event sequence and never raise.

Each mutating method is tied to a function of the old state. These are
`Parsed`, `SubItemEvents`, `ParsedContent` and `DescriptionEvents`. The
source's promises are then proved about those functions as lemmas.

## Model

| member | source | states |
|---|---|---|
| `SiteBuild.SiteBuildOperation.CreateAntBuildProperties` | ui/org.eclipse.pde.core/src/org/eclipse/pde/internal/core/exports/SiteBuildOperation.java:45-60 | If the export does not go to a directory, the result is exactly the superclass map and nothing is logged. If it does, the metadata flag is "true", the flavor is the default and publish-artifacts is "false", whether or not URL conversion succeeds. If conversion succeeds, both repository keys map to the same converted URL. If it fails, neither repository key is written and the failure is logged, not raised. Every other key keeps its superclass value, and no other key is added. |
| `SiteBuild.P2Keys` | ui/org.eclipse.pde.core/src/org/eclipse/pde/internal/core/exports/SiteBuildOperation.java:48-54 | No key is written unless the export goes to a directory. Then the three flag keys are always written. The metadata and artifact repository keys are both written or both not written, and they are written exactly when URL conversion succeeds. At most five keys are written. |
| `SiteBuild.SiteBuildOperation.CreatePostProcessingFiles` | ui/org.eclipse.pde.core/src/org/eclipse/pde/internal/core/exports/SiteBuildOperation.java:37-40 | Appends exactly two file requests, both in the feature location: the feature hook file first, then the plug-in hook file. |
| `SiteBuild.SiteBuildOperation.constructor` | ui/org.eclipse.pde.core/src/org/eclipse/pde/internal/core/exports/SiteBuildOperation.java:30-32 | Keeps the export info it is given and has requested no file yet. |
| `CheatSheetSubItem.SimpleCSSubItem.constructor` | ui/org.eclipse.pde.core/src/org/eclipse/pde/internal/core/cheatsheet/simple/SimpleCSSubItem.java:61-64 | A new sub-item has a null label, null when and null executable, and skip is false. |
| `CheatSheetSubItem.SimpleCSSubItem.Reset` | ui/org.eclipse.pde.core/src/org/eclipse/pde/internal/core/cheatsheet/simple/SimpleCSSubItem.java:205-210 | After reset, label, when and executable are null and skip is false. |
| `CheatSheetSubItem.SimpleCSSubItem.SetLabel` | ui/org.eclipse.pde.core/src/org/eclipse/pde/internal/core/cheatsheet/simple/SimpleCSSubItem.java:104-106 | `GetLabel` then returns the value set, and the other three fields are unchanged. |
| `CheatSheetSubItem.SimpleCSSubItem.SetSkip` | ui/org.eclipse.pde.core/src/org/eclipse/pde/internal/core/cheatsheet/simple/SimpleCSSubItem.java:111-113 | `GetSkip` then returns the value set, and the other three fields are unchanged. |
| `CheatSheetSubItem.SimpleCSSubItem.SetWhen` | ui/org.eclipse.pde.core/src/org/eclipse/pde/internal/core/cheatsheet/simple/SimpleCSSubItem.java:118-120 | `GetWhen` then returns the value set, and the other three fields are unchanged. |
| `CheatSheetSubItem.SimpleCSSubItem.SetExecutable` | ui/org.eclipse.pde.core/src/org/eclipse/pde/internal/core/cheatsheet/simple/SimpleCSSubItem.java:97-99 | `GetExecutable` then returns the value set, and the other three fields are unchanged. |
| `CheatSheetSubItem.SimpleCSSubItem.Parse` | ui/org.eclipse.pde.core/src/org/eclipse/pde/internal/core/cheatsheet/simple/SimpleCSSubItem.java:125-157 | The children loop, proved by its invariants, leaves the state `Parsed(old state, element)`. Label and when are overwritten with the attribute values. Skip becomes true if the skip attribute is "true" and is otherwise kept. The executable is what the children loop leaves. |
| `CheatSheetSubItem.LastExecutableIsLastRunChild` | ui/org.eclipse.pde.core/src/org/eclipse/pde/internal/core/cheatsheet/simple/SimpleCSSubItem.java:136-155 | After the children loop, the executable is the one created for the last element child named action, command or perform-when, with that kind. Non-element nodes and other names are ignored. With no such child, the executable is unchanged. |
| `CheatSheetSubItem.RunObjectDispatch` | ui/org.eclipse.pde.core/src/org/eclipse/pde/internal/core/cheatsheet/simple/SimpleCSSubItem.java:140-153 | A child yields an executable exactly when it is an element named action, command or perform-when. The executable's kind is the one its name selects, and it holds that child element. |
| `CheatSheetSubItem.LastExecutableWithoutRunChild` | ui/org.eclipse.pde.core/src/org/eclipse/pde/internal/core/cheatsheet/simple/SimpleCSSubItem.java:136-155 | When no child is an element named action, command or perform-when, the children loop leaves the executable held before parsing. |
| `CheatSheetSubItem.LastExecutableAtLastRunChild` | ui/org.eclipse.pde.core/src/org/eclipse/pde/internal/core/cheatsheet/simple/SimpleCSSubItem.java:136-155 | When child `j` is such an element and no later child is, the loop leaves the executable created for child `j`, with that kind. |
| `CheatSheetSubItem.LastExecutableForgetsPrevious` | ui/org.eclipse.pde.core/src/org/eclipse/pde/internal/core/cheatsheet/simple/SimpleCSSubItem.java:138-155 | Once any child creates an executable, the executable held before parsing has no influence, and the result is non-null. |
| `CheatSheetSubItem.ParseIdempotent` | ui/org.eclipse.pde.core/src/org/eclipse/pde/internal/core/cheatsheet/simple/SimpleCSSubItem.java:125-157 | Parsing the same element a second time leaves the state of the first parse. |
| `CheatSheetSubItem.SimpleCSSubItem.Write` | ui/org.eclipse.pde.core/src/org/eclipse/pde/internal/core/cheatsheet/simple/SimpleCSSubItem.java:162-200 | Appends to the writer the events of `SubItemEvents(state, indent)`, up to the first failing print, and returns normally: an I/O failure is never propagated. The writer's remaining room afterwards is its old room less the number of events, or 0 once a print has failed. |
| `CheatSheetSubItem.SimpleCSSubItem.BeginAttributes` | ui/org.eclipse.pde.core/src/org/eclipse/pde/internal/core/cheatsheet/simple/SimpleCSSubItem.java:169-184 | The attribute list built step by step for the `subitem` begin element is exactly `SubItemAttributes(state)`: label if non-null and non-empty, skip always, when if non-null and non-empty. |
| `CheatSheetSubItem.SubItemAttributesWritten` | ui/org.eclipse.pde.core/src/org/eclipse/pde/internal/core/cheatsheet/simple/SimpleCSSubItem.java:169-184 | The label attribute is written, with the label, iff the label is non-null and non-empty, and likewise for when. Skip is always written as "true" or "false" according to the flag, "true" exactly when the flag is set. No other attribute is written. Attributes appear in the order label, skip, when. |
| `CheatSheetSubItem.SubItemEventsOrder` | ui/org.eclipse.pde.core/src/org/eclipse/pde/internal/core/cheatsheet/simple/SimpleCSSubItem.java:185-193 | `write` emits the `subitem` begin element at the indent, then the executable's write one indent step deeper only if the executable is non-null, then the `subitem` end element at the indent. |
| `CheatSheetSubItem.ParseThenWriteAttributes` | ui/org.eclipse.pde.core/src/org/eclipse/pde/internal/core/cheatsheet/simple/SimpleCSSubItem.java:127-134 | After `parse`, `write` emits the element's label and when attributes with their values exactly when they were non-empty. Skip is written "true" iff it was already set or the attribute is "true". After reset, skip is written "true" exactly when the attribute is "true". |
| `CheatSheet.XmlWriter.Print` | ui/org.eclipse.pde.core/src/org/eclipse/pde/internal/core/cheatsheet/simple/SimpleCSSubItem.java:195-198 | A print call either records its event or fails, and after one failure every later call fails too. This is the IOException that both `write` methods suppress. |
| `CheatSheetDescription.SimpleCSDescription.constructor` | ui/org.eclipse.pde.core/src/org/eclipse/pde/internal/core/cheatsheet/simple/SimpleCSDescription.java:45-48 | A new description has null content. |
| `CheatSheetDescription.SimpleCSDescription.Reset` | ui/org.eclipse.pde.core/src/org/eclipse/pde/internal/core/cheatsheet/simple/SimpleCSDescription.java:81-83 | After reset, the content is null. |
| `CheatSheetDescription.SimpleCSDescription.SetContent` | ui/org.eclipse.pde.core/src/org/eclipse/pde/internal/core/cheatsheet/simple/SimpleCSDescription.java:60-62 | `GetContent` then returns the value set. The content is the object's only field. |
| `CheatSheetDescription.SimpleCSDescription.Parse` | ui/org.eclipse.pde.core/src/org/eclipse/pde/internal/core/cheatsheet/simple/SimpleCSDescription.java:67-76 | Leaves the content `ParsedContent(old content, element)`. |
| `CheatSheetDescription.ParsedContentIsTrimmed` | ui/org.eclipse.pde.core/src/org/eclipse/pde/internal/core/cheatsheet/simple/SimpleCSDescription.java:70-75 | If the first child exists and is a text node, the content becomes that text trimmed. That content has no trimmable character at either end, and trimming it again changes nothing. Otherwise the content is unchanged. |
| `CheatSheetDescription.SimpleCSDescription.Write` | ui/org.eclipse.pde.core/src/org/eclipse/pde/internal/core/cheatsheet/simple/SimpleCSDescription.java:88-107 | Appends the events of `DescriptionEvents(content, indent)`, up to the first failing print, and returns normally. The writer's remaining room afterwards is its old room less the number of events, or 0 once a print has failed. |
| `CheatSheetDescription.DescriptionEventsOrder` | ui/org.eclipse.pde.core/src/org/eclipse/pde/internal/core/cheatsheet/simple/SimpleCSDescription.java:94-102 | `write` emits the `description` begin element at the indent. It then emits the content one indent step deeper, only when the content is non-null and non-empty. Last comes the `description` end element at the indent. |
| `CheatSheetDescription.ParseThenWriteText` | ui/org.eclipse.pde.core/src/org/eclipse/pde/internal/core/cheatsheet/simple/SimpleCSDescription.java:73 | After parsing an element whose first child is text, `write` prints text exactly when that text held a character other than trimmable ones, and what it prints is the trimmed text. |
| `CheatSheetObjectTypes.ObjectTypesDiffer` | ui/org.eclipse.pde.core/src/org/eclipse/pde/internal/core/cheatsheet/simple/SimpleCSDescription.java:112-114 | `getType` of a description is always the description tag. `getType` of a sub-item is always the sub-item tag (SimpleCSSubItem.java lines 215-217). The two tags differ. |
| `JavaString.Trim` | ui/org.eclipse.pde.core/src/org/eclipse/pde/internal/core/cheatsheet/simple/SimpleCSDescription.java:73 | `String.trim()` returns the slice of its input left after removing the leading and the trailing run of characters at or below U+0020. The slice starts and ends with a kept character. An empty result means every character was trimmable. |
| `JavaString.StripLeading` | ui/org.eclipse.pde.core/src/org/eclipse/pde/internal/core/cheatsheet/simple/SimpleCSDescription.java:73 | The leading half of `trim`: a suffix of the input that does not start with a trimmable character, where everything removed is trimmable. |
| `JavaString.StripTrailing` | ui/org.eclipse.pde.core/src/org/eclipse/pde/internal/core/cheatsheet/simple/SimpleCSDescription.java:73 | The trailing half of `trim`: a prefix of the input that does not end with a trimmable character, where everything removed is trimmable. |
| `JavaString.TrimIdempotent` | ui/org.eclipse.pde.core/src/org/eclipse/pde/internal/core/cheatsheet/simple/SimpleCSDescription.java:73 | Trimming a trimmed string changes nothing. |

## Left out

- The superclass `createAntBuildProperties` (FeatureExportOperation) and `createPostProcessingFile` (FeatureBasedExportOperation) are not part of this model. The first is the `base` parameter. The second is recorded as a file request; whether it creates or overwrites a file is not modelled.
- `File.toURL()` path canonicalisation is not modelled. It is the function parameter `toUrl`. `PDECore.log` is the `logged` out-parameter, not a log sink.
- The values of the p2 and PDE Build key constants, the post-processing file names, `P2_FLAVOR_DEFAULT` and `XML_INDENT` are defined in interfaces that are not part of this model. The values used here follow PDE Build. The proofs of `CreateAntBuildProperties` and `P2Keys` depend on the five p2 keys being distinct.
- The cheat-sheet element and attribute name constants (`ELEMENT_SUBITEM`, `ELEMENT_DESCRIPTION`, `ELEMENT_ACTION`, `ELEMENT_COMMAND`, `ELEMENT_PERFORM_WHEN`, `ATTRIBUTE_LABEL`, `ATTRIBUTE_SKIP`, `ATTRIBUTE_WHEN`, `ATTRIBUTE_VALUE_TRUE`, `ATTRIBUTE_VALUE_FALSE`) reach SimpleCSSubItem and SimpleCSDescription through their `ISimpleCS*` interfaces, whose constant declarations are not part of this model. The values used here follow the cheat-sheet content file schema; the skip attribute values are the strings `Boolean.toString` produces. The proofs depend on the three attribute names being distinct (`SubItemAttributesWritten`), on the three executable element names being distinct (`RunObjectDispatch`), and on "true" differing from "false" (`SubItemAttributesWritten`).
- The `TYPE_*` integers behind `getType` are not visible. They are the enumeration `ObjectType`.
- XMLPrintHandler's text output, attribute escaping and line layout are not modelled. Output is a sequence of abstract print events, so no text-level round trip is claimed. Where inside a print call an IOException strikes is also not modelled: a failing call prints nothing. A `java.io.PrintWriter` itself never throws IOException; it sets its error flag instead. So the `catch` blocks of both `write` methods are reached only if XMLPrintHandler raises an IOException itself, and that class is not part of this model. Usually every print call is made. Because the model's writer fails every call after its first failure, stopping at that failure and going on with every call record the same events.
- The executable's own `parse` and `write` are not modelled. So is the model factory that creates it. An executable is its kind plus the child element it parsed, and its `write` is one delegated event that handles its own failures.
- DOM `normalize()` is not modelled: the child list is taken as already normalised. `getAttribute` is total and returns "" for a missing attribute.
- `SiteBuildOperation.constructor`: the Java constructor (SiteBuildOperation.java lines 30-32) takes only the export info. The feature location `fFeatureLocation` is a field inherited from FeatureBasedExportOperation and assigned there, which is not part of this model. The model fixes it for the operation's lifetime as the constructor parameter `featureLocation`.
- The owning `ISimpleCSModel` and the parent object held by the SimpleCSObject superclass are not modelled. Neither is `serialVersionUID`.
- The getters (`GetLabel`, `GetSkip`, `GetWhen`, `GetExecutable`, `GetContent`) are plain reads of their field. Their behaviour is stated in the setter rows above.
- `JavaString.Trim` works on Dafny characters (Unicode scalar values), not UTF-16 code units. For `trim` the two agree, since only characters up to U+0020 are removed.
- The interface ISimpleCSDescription (lines 24-30) contributes only the two accessor signatures, which are modelled on the class.
