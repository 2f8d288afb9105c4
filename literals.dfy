/** How the script generators turn Python arguments into JavaScript literal text
    (utils/omnifocus.py, the `substitute(...)` calls), and a small reader for the
    literal forms that text can take, used to state what the generated script sees. */
module Literals {
  import opened Text

  /** The JavaScript values a generated `let` binding can hold. */
  datatype JsValue = JsNull | JsBool(b: bool) | JsString(s: string) | JsArray(items: seq<string>)

  /** Truthiness of an optional string, the same in Python and in JavaScript: `None` (or
      `null`) and `""` are false. */
  predicate Supplied(v: Option<string>) {
    v.Some? && v.value != ""
  }

  /** `f'"{s}"'`: the text between two double quotes, with nothing escaped. */
  function Quote(s: string): (r: string)
    ensures |r| == |s| + 2 && r[0] == '"' && r[|r| - 1] == '"' && r[1..|r| - 1] == s
  {
    "\"" + s + "\""
  }

  /** `f'"{v}"' if v else "null"` for an optional string argument. */
  function RenderOptString(v: Option<string>): (r: string)
    ensures r == "null" <==> !Supplied(v)
    ensures Supplied(v) ==> r == Quote(v.value)
  {
    if Supplied(v) then Quote(v.value) else "null"
  }

  function QuoteAll(xs: seq<string>): (r: seq<string>)
    ensures |r| == |xs| && forall i :: 0 <= i < |xs| ==> r[i] == Quote(xs[i])
  {
    seq(|xs|, i requires 0 <= i < |xs| => Quote(xs[i]))
  }

  /** `f"[{', '.join([f'"{x}"' for x in xs])}]"`. */
  function ArrayLiteral(xs: seq<string>): (r: string)
    ensures |r| >= 2 && r[0] == '[' && r[|r| - 1] == ']'
    ensures r == "[]" <==> xs == []
  {
    var items := QuoteAll(xs);
    assert xs != [] ==> |Join(items, ", ")| >= 2;
    "[" + Join(items, ", ") + "]"
  }

  /** The tag-id list of `update_task`: `"[]"` when the argument is `None` or empty. */
  function RenderTagIds(ids: Option<seq<string>>): (r: string)
    ensures ids.Some? ==> r == ArrayLiteral(ids.value)
    ensures ids.None? ==> r == "[]"
  {
    if ids.Some? && |ids.value| > 0 then ArrayLiteral(ids.value) else "[]"
  }

  /** The status list of `list_tasks_by_project` and `list_tasks_by_tag`: `"null"` when the
      argument is `None` or empty. */
  function RenderStatusList(statuses: Option<seq<string>>): (r: string)
    ensures r == "null" <==> statuses.None? || statuses.value == []
    ensures statuses.Some? && statuses.value != [] ==> r == ArrayLiteral(statuses.value)
  {
    if statuses.Some? && |statuses.value| > 0 then ArrayLiteral(statuses.value) else "null"
  }

  /** Python's `str(b)` for a `bool`. */
  function PyBoolStr(b: bool): string {
    if b then "True" else "False"
  }

  /** `"null" if flagged is None else str(flagged).lower()`. */
  function RenderFlag(flagged: Option<bool>): (r: string)
    ensures flagged == None ==> r == "null"
    ensures flagged == Some(true) ==> r == "true"
    ensures flagged == Some(false) ==> r == "false"
  {
    if flagged.None? then "null" else Lower(PyBoolStr(flagged.value))
  }

  // ---------------------------------------------------------------------------------
  // Reading literal text back, as the JavaScript parser reads the generated bindings.
  // The reader knows double-quoted strings without escapes and arrays of them. The whole
  // script then travels inside a backtick template literal (Scripting.WrapperProgram),
  // where a backtick ends the program text and `${` starts an evaluated expression; so a
  // backslash, backtick, dollar sign or line break inside a string is outside what the
  // reader reads, and `None` says only that.
  // ---------------------------------------------------------------------------------

  /** A character that stands for itself inside a double-quoted JavaScript string that is
      itself carried inside the wrapper's template literal. */
  predicate PlainChar(c: char) {
    c != '"' && c != '\\' && c != '\n' && c != '\r' && c != '`' && c != '$'
  }

  predicate Plain(s: string) {
    forall i :: 0 <= i < |s| ==> PlainChar(s[i])
  }

  /** Reads the rest of a string literal whose opening quote has been consumed: the
      string's value and the text after its closing quote. */
  function ReadStringTail(s: string): (r: Option<(string, string)>)
    ensures r.Some? ==> |r.value.1| < |s|
  {
    if |s| == 0 || s[0] == '\\' || s[0] == '\n' || s[0] == '\r' || s[0] == '`' || s[0] == '$' then None
    else if s[0] == '"' then Some(("", s[1..]))
    else
      match ReadStringTail(s[1..])
      case None => None
      case Some((t, rest)) => Some(([s[0]] + t, rest))
  }

  /** Reads `"a", "b", ... ]`: one or more string literals separated by `", "`, then `]`. */
  function ReadItems(s: string): (r: Option<seq<string>>)
    ensures r.Some? ==> |r.value| > 0
    decreases |s|
  {
    if |s| == 0 || s[0] != '"' then None
    else
      match ReadStringTail(s[1..])
      case None => None
      case Some((t, rest)) =>
        if rest == "]" then Some([t])
        else if |rest| >= 2 && rest[..2] == ", " then
          match ReadItems(rest[2..])
          case None => None
          case Some(ts) => Some([t] + ts)
        else None
  }

  /** The value of a whole literal text, or `None` when the text is not one literal. */
  function ReadLiteral(text: string): Option<JsValue> {
    if text == "null" then Some(JsNull)
    else if text == "true" then Some(JsBool(true))
    else if text == "false" then Some(JsBool(false))
    else if text == "[]" then Some(JsArray([]))
    else if |text| > 0 && text[0] == '"' then
      match ReadStringTail(text[1..])
      case Some((t, "")) => Some(JsString(t))
      case _ => None
    else if |text| > 0 && text[0] == '[' then
      match ReadItems(text[1..])
      case Some(ts) => Some(JsArray(ts))
      case None => None
    else None
  }

  /** The value of a string-or-null literal; `None` when the text is not one. */
  function ReadOptString(text: string): Option<Option<string>> {
    match ReadLiteral(text)
    case Some(JsNull) => Some(None)
    case Some(JsString(s)) => Some(Some(s))
    case _ => None
  }

  /** The value of an array-or-null literal; `None` when the text is not one. */
  function ReadOptArray(text: string): Option<Option<seq<string>>> {
    match ReadLiteral(text)
    case Some(JsNull) => Some(None)
    case Some(JsArray(xs)) => Some(Some(xs))
    case _ => None
  }

  /** The value of a boolean-or-null literal; `None` when the text is not one. */
  function ReadOptBool(text: string): Option<Option<bool>> {
    match ReadLiteral(text)
    case Some(JsNull) => Some(None)
    case Some(JsBool(x)) => Some(Some(x))
    case _ => None
  }

  /** A plain string followed by a quote is read up to that quote. */
  lemma {:induction false} ReadPlainTail(v: string, rest: string)
    requires Plain(v)
    ensures ReadStringTail(v + "\"" + rest) == Some((v, rest))
  {
    if v != [] {
      assert (v + "\"" + rest)[1..] == v[1..] + "\"" + rest;
      ReadPlainTail(v[1..], rest);
      assert [v[0]] + v[1..] == v;
    } else {
      assert v + "\"" + rest == "\"" + rest;
    }
  }

  /** A string literal that ends exactly at the end of the text holds exactly the text
      before its closing quote. */
  lemma {:induction false} ReadStringTailExact(v: string)
    ensures var r := ReadStringTail(v + "\"");
            r.Some? && r.value.1 == "" ==> r.value.0 == v
  {
    var s := v + "\"";
    if v != [] && s[0] != '"' && ReadStringTail(s).Some? {
      assert s[1..] == v[1..] + "\"";
      ReadStringTailExact(v[1..]);
      assert [v[0]] + v[1..] == v;
    }
  }

  /** Whatever the value holds, the rendered literal is either outside what the reader
      reads, or it is read back as exactly the value (`null` for an omitted or empty one). */
  lemma ReadRenderedOptStringExact(v: Option<string>)
    ensures var r := ReadLiteral(RenderOptString(v));
            r.None? || r == Some(if Supplied(v) then JsString(v.value) else JsNull)
  {
    if Supplied(v) {
      var text := Quote(v.value);
      assert text[1..] == v.value + "\"";
      ReadStringTailExact(v.value);
    }
  }

  /** Without quotes, backslashes, backticks, dollar signs or line breaks in the value, the
      rendered literal is read back as the string value, and an omitted or empty value as
      `null`. */
  lemma ReadRenderedOptString(v: Option<string>)
    requires v.Some? ==> Plain(v.value)
    ensures ReadLiteral(RenderOptString(v)) == Some(if Supplied(v) then JsString(v.value) else JsNull)
  {
    if Supplied(v) {
      var text := Quote(v.value);
      assert text[1..] == v.value + "\"" + "";
      ReadPlainTail(v.value, "");
    }
  }

  /** `""` and `None` render the same text: the script cannot tell them apart. */
  lemma EmptyIsOmitted()
    ensures RenderOptString(Some("")) == RenderOptString(None) == "null"
  {
  }

  lemma {:induction false} ReadJoinedItems(xs: seq<string>)
    requires |xs| > 0
    requires forall i :: 0 <= i < |xs| ==> Plain(xs[i])
    ensures ReadItems(Join(QuoteAll(xs), ", ") + "]") == Some(xs)
  {
    var s := Join(QuoteAll(xs), ", ") + "]";
    if |xs| == 1 {
      assert s == "\"" + (xs[0] + "\"" + "]");
      assert s[1..] == xs[0] + "\"" + "]";
      ReadPlainTail(xs[0], "]");
      assert xs == [xs[0]];
    } else {
      var tail := Join(QuoteAll(xs[1..]), ", ") + "]";
      assert QuoteAll(xs)[1..] == QuoteAll(xs[1..]);
      assert s == "\"" + (xs[0] + "\"" + (", " + tail));
      assert s[1..] == xs[0] + "\"" + (", " + tail);
      ReadPlainTail(xs[0], ", " + tail);
      assert (", " + tail)[2..] == tail;
      ReadJoinedItems(xs[1..]);
      assert [xs[0]] + xs[1..] == xs;
    }
  }

  /** A list of plain strings renders to an array literal that is read back as that list. */
  lemma ReadArrayLiteral(xs: seq<string>)
    requires forall i :: 0 <= i < |xs| ==> Plain(xs[i])
    ensures ReadLiteral(ArrayLiteral(xs)) == Some(JsArray(xs))
  {
    if |xs| == 0 {
      assert ArrayLiteral(xs) == "[]";
    } else {
      var text := ArrayLiteral(xs);
      ReadJoinedItems(xs);
      assert text[1..] == Join(QuoteAll(xs), ", ") + "]";
      assert text != "null" && text != "true" && text != "false";
      assert text[1] == '"';
    }
  }

  /** Arrays are not read back exactly: an id holding `", "` between two plain parts
      becomes two ids. */
  lemma TagIdWithSeparatorSplits(p: string, q: string)
    requires Plain(p) && Plain(q)
    ensures ReadLiteral(RenderTagIds(Some([p + "\", \"" + q]))) == Some(JsArray([p, q]))
  {
    var id := p + "\", \"" + q;
    calc {
      RenderTagIds(Some([id]));
      ArrayLiteral([id]);
      "[" + Join(QuoteAll([id]), ", ") + "]";
      { assert QuoteAll([id]) == [Quote(id)]; }
      "[" + Quote(id) + "]";
      { assert Quote(id) == Quote(p) + ", " + Quote(q); }
      "[" + (Quote(p) + ", " + Quote(q)) + "]";
      { assert QuoteAll([p, q]) == [Quote(p), Quote(q)];
        assert [Quote(p), Quote(q)][1..] == [Quote(q)]; }
      "[" + Join(QuoteAll([p, q]), ", ") + "]";
      ArrayLiteral([p, q]);
    }
    ReadArrayLiteral([p, q]);
  }

  /** The tag-id binding always holds an array: the given ids, or none. */
  lemma ReadRenderedTagIds(ids: Option<seq<string>>)
    requires ids.Some? ==> forall i :: 0 <= i < |ids.value| ==> Plain(ids.value[i])
    ensures ReadLiteral(RenderTagIds(ids)) == Some(JsArray(if ids.Some? then ids.value else []))
  {
    if ids.Some? { ReadArrayLiteral(ids.value); }
  }

  /** The status binding holds `null` for an absent or empty list and the list otherwise. */
  lemma ReadRenderedStatusList(statuses: Option<seq<string>>)
    requires statuses.Some? ==> forall i :: 0 <= i < |statuses.value| ==> Plain(statuses.value[i])
    ensures ReadLiteral(RenderStatusList(statuses))
         == Some(if statuses.Some? && statuses.value != [] then JsArray(statuses.value) else JsNull)
  {
    if statuses.Some? && statuses.value != [] { ReadArrayLiteral(statuses.value); }
  }

  /** The flag binding holds `null`, `true` or `false`, so absence stays distinct from both. */
  lemma ReadRenderedFlag(flagged: Option<bool>)
    ensures ReadLiteral(RenderFlag(flagged)) == Some(if flagged.None? then JsNull else JsBool(flagged.value))
  {
  }

  /** Nothing is escaped: when a value contains a double quote after a plain prefix, the
      literal closes at that quote and the rest of the value is left over as script text. */
  lemma {:induction false} QuoteEndsLiteralEarly(prefix: string, suffix: string)
    requires Plain(prefix)
    ensures var text := RenderOptString(Some(prefix + "\"" + suffix));
            ReadStringTail(text[1..]) == Some((prefix, suffix + "\""))
  {
    var v := prefix + "\"" + suffix;
    assert Supplied(Some(v));
    var text := Quote(v);
    assert text[1..] == prefix + "\"" + (suffix + "\"");
    ReadPlainTail(prefix, suffix + "\"");
  }

  /** The reader stops at a backslash, backtick or dollar sign after a plain prefix: the
      first two would be read by the wrapper's template literal before the string literal
      sees them, and a dollar sign may start a `${…}` the wrapper evaluates. */
  lemma {:induction false} ReadPlainStops(v: string, c: char, rest: string)
    requires Plain(v)
    requires c == '\\' || c == '`' || c == '$'
    ensures ReadStringTail(v + [c] + rest) == None
  {
    if v != [] {
      assert (v + [c] + rest)[1..] == v[1..] + [c] + rest;
      ReadPlainStops(v[1..], c, rest);
    } else {
      assert v + [c] + rest == [c] + rest;
    }
  }

  /** So a value holding a backtick or `${…}` after a plain prefix is outside what the
      reader reads. */
  lemma TemplateSyntaxIsNotRead(prefix: string, c: char, suffix: string)
    requires Plain(prefix)
    requires c == '`' || c == '$'
    ensures ReadLiteral(RenderOptString(Some(prefix + [c] + suffix))) == None
  {
    var v := prefix + [c] + suffix;
    assert Supplied(Some(v));
    assert Quote(v)[1..] == prefix + [c] + (suffix + "\"");
    ReadPlainStops(prefix, c, suffix + "\"");
  }

  /** For instance, a task name `Say "hi"` does not reach the script as one string. */
  lemma QuotedNameIsNotOneLiteral()
    ensures ReadLiteral(RenderOptString(Some("Say \"hi\""))) == None
  {
    QuoteEndsLiteralEarly("Say ", "hi\"");
    assert "Say " + "\"" + "hi\"" == "Say \"hi\"";
  }

  /** The id placeholders sit between quotes the templates already write
      (`Task.byIdentifier("${task_id}")`, and the same for project and tag ids): the id
      reaches the script as that string when its quoted text reads back as the id. */
  predicate QuotedIdReads(id: string) {
    ReadLiteral(Quote(id)) == Some(JsString(id))
  }

  /** A quoted id that reads as one string at all reads as exactly the id. */
  lemma QuotedIdExact(id: string)
    ensures ReadLiteral(Quote(id)).Some? <==> QuotedIdReads(id)
  {
    assert Quote(id)[1..] == id + "\"";
    ReadStringTailExact(id);
  }

  /** A plain id reaches the script unchanged. */
  lemma QuotedIdPlain(id: string)
    requires Plain(id)
    ensures QuotedIdReads(id)
  {
    assert Quote(id)[1..] == id + "\"" + "";
    ReadPlainTail(id, "");
  }

  // ---------------------------------------------------------------------------------
  // The placeholder values each generator passes to `Template.substitute`.
  // ---------------------------------------------------------------------------------

  /** The `${...}` placeholders of the templates: `task_id`, `task_name`, `task_note`,
      `task_tag_ids`, `task_project_id`, `task_defer_date`, `task_due_date`,
      `task_flagged`, `project_id`, `tag_id` and `task_status`. */
  datatype Placeholder =
    | TaskId | TaskName | TaskNote | TaskTagIds | TaskProjectId | TaskDeferDate | TaskDueDate
    | TaskFlagged | ProjectId | TagId | TaskStatuses

  /** The arguments of `update_task`. */
  datatype UpdateTaskArgs = UpdateTaskArgs(
    taskId: string,
    name: Option<string>,
    note: Option<string>,
    tagIds: Option<seq<string>>,
    projectId: Option<string>,
    deferDate: Option<string>,
    dueDate: Option<string>,
    flagged: Option<bool>)

  /** The placeholders of the `update_task` template. */
  predicate InUpdateTemplate(p: Placeholder) {
    !(p.ProjectId? || p.TagId? || p.TaskStatuses?)
  }

  /** The text substituted for an optional string argument: `null` exactly when the
      argument is `None` or `""`, otherwise the argument between double quotes. */
  predicate RendersArgument(v: string, arg: Option<string>) {
    (v == "null" <==> !Supplied(arg)) && (Supplied(arg) ==> v == Quote(arg.value))
  }

  /** The value `update_task` substitutes for placeholder `p`; the task id is substituted
      as it is, inside quotes the template already has. */
  function UpdateTaskValue(a: UpdateTaskArgs, p: Placeholder): (v: string)
    requires InUpdateTemplate(p)
    ensures p.TaskId? ==> v == a.taskId
    ensures p.TaskName? ==> RendersArgument(v, a.name)
    ensures p.TaskNote? ==> RendersArgument(v, a.note)
    ensures p.TaskProjectId? ==> RendersArgument(v, a.projectId)
    ensures p.TaskDeferDate? ==> RendersArgument(v, a.deferDate)
    ensures p.TaskDueDate? ==> RendersArgument(v, a.dueDate)
    ensures p.TaskFlagged? ==> ReadLiteral(v) == Some(if a.flagged.None? then JsNull else JsBool(a.flagged.value))
    ensures p.TaskTagIds? ==> (v == "[]" <==> a.tagIds.None? || a.tagIds.value == [])
    ensures p.TaskTagIds? && a.tagIds.Some? && a.tagIds.value != [] ==> v == ArrayLiteral(a.tagIds.value)
  {
    match p
    case TaskId => a.taskId
    case TaskName => RenderOptString(a.name)
    case TaskNote => RenderOptString(a.note)
    case TaskTagIds => RenderTagIds(a.tagIds)
    case TaskProjectId => RenderOptString(a.projectId)
    case TaskDeferDate => RenderOptString(a.deferDate)
    case TaskDueDate => RenderOptString(a.dueDate)
    case TaskFlagged => ReadRenderedFlag(a.flagged); RenderFlag(a.flagged)
  }

  /** The placeholder values of `create_task`: the name raw, the note as an optional string. */
  function CreateTaskSubstitutions(name: string, note: Option<string>): (m: map<Placeholder, string>)
    ensures m.Keys == {TaskName, TaskNote}
    ensures m[TaskName] == name
    ensures ReadLiteral(m[TaskNote]) == Some(JsNull) <==> !Supplied(note)
  {
    assert Supplied(note) ==> Quote(note.value)[0] == '"';
    map[TaskName := name, TaskNote := RenderOptString(note)]
  }

  /** The placeholder values of `list_tasks_by_project` (`key` is `ProjectId`) and of
      `list_tasks_by_tag` (`key` is `TagId`). */
  function ListTasksSubstitutions(key: Placeholder, id: string, statuses: Option<seq<string>>): (m: map<Placeholder, string>)
    requires key == ProjectId || key == TagId
    ensures m.Keys == {key, TaskStatuses}
    ensures m[key] == id
    ensures m[TaskStatuses] == "null" <==> statuses.None? || statuses.value == []
  {
    map[key := id, TaskStatuses := RenderStatusList(statuses)]
  }
}
