/** The task-changing scripts of utils/omnifocus.py: the field-by-field update policy of
    `update_task` and the bindings of `create_task`, connected to the literal text the
    Python side substitutes into them. */
module TaskUpdate {
  import opened Text
  import opened Literals
  import Scripting

  /** A JavaScript `Date` built by `new Date(source)`; the parsing is the runtime's. */
  datatype DateValue = ParsedDate(source: string)

  /** The fields of an OmniFocus task that `update_task` may change. */
  datatype TaskFields = TaskFields(
    name: string,
    note: string,
    tagIds: set<string>,
    projectId: Option<string>,
    deferDate: Option<DateValue>,
    dueDate: Option<DateValue>,
    flagged: bool)

  /** The script's bindings `newName` ... `newFlagged`; `None` is JavaScript `null`. */
  datatype Bindings = Bindings(
    newName: Option<string>,
    newNote: Option<string>,
    newTags: Option<seq<string>>,
    newProjectId: Option<string>,
    newDeferDate: Option<string>,
    newDueDate: Option<string>,
    newFlagged: Option<bool>)

  /** The ids of `ids` that `Tag.byIdentifier` resolves. */
  function Resolved(ids: seq<string>, knownTags: set<string>): (r: set<string>)
    ensures r <= knownTags
    ensures forall t :: t in r <==> t in ids && t in knownTags
  {
    set t | t in ids && t in knownTags
  }

  /** The task after the `try` block of `update_task`: tags are only added, and only tags
      that exist; the task only ever moves to a project that exists. */
  function Updated(f: TaskFields, b: Bindings, knownTags: set<string>, knownProjects: set<string>): (r: TaskFields)
    ensures f.tagIds <= r.tagIds <= f.tagIds + knownTags
    ensures r.projectId == f.projectId || (r.projectId.Some? && r.projectId.value in knownProjects)
  {
    TaskFields(
      if Supplied(b.newName) then b.newName.value else f.name,
      if Supplied(b.newNote) then b.newNote.value else f.note,
      if b.newTags.Some? then f.tagIds + Resolved(b.newTags.value, knownTags) else f.tagIds,
      if Supplied(b.newProjectId) && b.newProjectId.value in knownProjects then b.newProjectId else f.projectId,
      if Supplied(b.newDeferDate) then Some(ParsedDate(b.newDeferDate.value)) else f.deferDate,
      if Supplied(b.newDueDate) then Some(ParsedDate(b.newDueDate.value)) else f.dueDate,
      if b.newFlagged.Some? then b.newFlagged.value else f.flagged)
  }

  /** An OmniFocus task as the script sees it: an object whose fields are assigned. */
  class OmniTask {
    var name: string
    var note: string
    var tagIds: set<string>
    var projectId: Option<string>
    var deferDate: Option<DateValue>
    var dueDate: Option<DateValue>
    var flagged: bool

    function Fields(): TaskFields
      reads this
    {
      TaskFields(name, note, tagIds, projectId, deferDate, dueDate, flagged)
    }

    constructor (f: TaskFields)
      ensures Fields() == f
    {
      name, note, tagIds := f.name, f.note, f.tagIds;
      projectId, deferDate, dueDate, flagged := f.projectId, f.deferDate, f.dueDate, f.flagged;
    }

    /** `task.addTag(tag)`: the task carries the tag afterwards, and nothing else changes. */
    method AddTag(id: string)
      modifies this`tagIds
      ensures tagIds == old(tagIds) + {id}
    {
      tagIds := tagIds + {id};
    }

    /** `moveTasks([task], project)`. */
    method MoveTo(project: string)
      modifies this`projectId
      ensures projectId == Some(project)
    {
      projectId := Some(project);
    }
  }

  /** `newTags.forEach(...)`: adds each id that `Tag.byIdentifier` resolves. */
  method AddTags(task: OmniTask, newTags: seq<string>, knownTags: set<string>)
    modifies task`tagIds
    ensures task.tagIds == old(task.tagIds) + Resolved(newTags, knownTags)
  {
    var i := 0;
    while i < |newTags|
      invariant 0 <= i <= |newTags|
      invariant task.tagIds == old(task.tagIds) + Resolved(newTags[..i], knownTags)
    {
      var tagId := newTags[i];
      if tagId in knownTags {
        task.AddTag(tagId);
      }
      assert newTags[..i + 1] == newTags[..i] + [tagId];
      i := i + 1;
    }
    assert newTags[..i] == newTags;
  }

  /** The first half of the `try` block of `update_task`: name, note and tags. */
  method ApplyDescription(task: OmniTask, b: Bindings, knownTags: set<string>)
    modifies task`name, task`note, task`tagIds
    ensures task.name == (if Supplied(b.newName) then b.newName.value else old(task.name))
    ensures task.note == (if Supplied(b.newNote) then b.newNote.value else old(task.note))
    ensures task.tagIds == (if b.newTags.Some? then old(task.tagIds) + Resolved(b.newTags.value, knownTags) else old(task.tagIds))
  {
    if Supplied(b.newName) {
      task.name := b.newName.value;
    }
    if Supplied(b.newNote) {
      task.note := b.newNote.value;
    }
    if b.newTags.Some? {
      AddTags(task, b.newTags.value, knownTags);
    }
  }

  /** The second half of the `try` block of `update_task`: project, dates and flag. */
  method ApplyPlanning(task: OmniTask, b: Bindings, knownProjects: set<string>)
    modifies task`projectId, task`deferDate, task`dueDate, task`flagged
    ensures task.projectId == (if Supplied(b.newProjectId) && b.newProjectId.value in knownProjects then b.newProjectId else old(task.projectId))
    ensures task.deferDate == (if Supplied(b.newDeferDate) then Some(ParsedDate(b.newDeferDate.value)) else old(task.deferDate))
    ensures task.dueDate == (if Supplied(b.newDueDate) then Some(ParsedDate(b.newDueDate.value)) else old(task.dueDate))
    ensures task.flagged == (if b.newFlagged.Some? then b.newFlagged.value else old(task.flagged))
  {
    if Supplied(b.newProjectId) {
      var project := b.newProjectId.value;
      if project in knownProjects {
        task.MoveTo(project);
      }
    }
    if Supplied(b.newDeferDate) {
      task.deferDate := Some(ParsedDate(b.newDeferDate.value));
    }
    if Supplied(b.newDueDate) {
      task.dueDate := Some(ParsedDate(b.newDueDate.value));
    }
    if b.newFlagged.Some? {
      task.flagged := b.newFlagged.value;
    }
  }

  /** The `try` block of `update_task`: the task becomes the update `Updated` describes. */
  method ApplyUpdate(task: OmniTask, b: Bindings, knownTags: set<string>, knownProjects: set<string>)
    modifies task
    ensures task.Fields() == Updated(old(task.Fields()), b, knownTags, knownProjects)
  {
    ApplyDescription(task, b, knownTags);
    ApplyPlanning(task, b, knownProjects);
  }

  /** Tags are only ever added: the tags after an update include those before it, and
      every tag gained was asked for and resolves. */
  lemma TagsOnlyGrow(f: TaskFields, b: Bindings, knownTags: set<string>, knownProjects: set<string>)
    ensures var g := Updated(f, b, knownTags, knownProjects);
            f.tagIds <= g.tagIds
            && forall t :: t in g.tagIds && t !in f.tagIds ==> b.newTags.Some? && t in b.newTags.value && t in knownTags
  {
  }

  /** A field changes only when its binding is truthy; the flag only when it is not null. */
  lemma ChangesNeedBindings(f: TaskFields, b: Bindings, knownTags: set<string>, knownProjects: set<string>)
    ensures var g := Updated(f, b, knownTags, knownProjects);
            && (g.name != f.name ==> Supplied(b.newName) && g.name == b.newName.value)
            && (g.note != f.note ==> Supplied(b.newNote) && g.note == b.newNote.value)
            && (g.projectId != f.projectId ==> Supplied(b.newProjectId) && g.projectId == b.newProjectId)
            && (g.deferDate != f.deferDate ==> Supplied(b.newDeferDate) && g.deferDate == Some(ParsedDate(b.newDeferDate.value)))
            && (g.dueDate != f.dueDate ==> Supplied(b.newDueDate) && g.dueDate == Some(ParsedDate(b.newDueDate.value)))
            && (g.flagged != f.flagged ==> b.newFlagged == Some(g.flagged))
  {
  }

  /** Tag and project ids that do not resolve are skipped: they leave the task as it was. */
  lemma UnresolvedIdsSkipped(f: TaskFields, b: Bindings, knownTags: set<string>, knownProjects: set<string>)
    requires b.newTags.Some? ==> forall i :: 0 <= i < |b.newTags.value| ==> b.newTags.value[i] !in knownTags
    requires b.newProjectId.Some? ==> b.newProjectId.value !in knownProjects
    ensures Updated(f, b, knownTags, knownProjects).tagIds == f.tagIds
    ensures Updated(f, b, knownTags, knownProjects).projectId == f.projectId
  {
    if b.newTags.Some? {
      assert Resolved(b.newTags.value, knownTags) == {};
    }
  }

  /** Running the same update twice has the effect of running it once. */
  lemma UpdateIdempotent(f: TaskFields, b: Bindings, knownTags: set<string>, knownProjects: set<string>)
    ensures var g := Updated(f, b, knownTags, knownProjects);
            Updated(g, b, knownTags, knownProjects) == g
  {
  }

  // ---------------------------------------------------------------------------------
  // From the Python arguments to the bindings
  // ---------------------------------------------------------------------------------

  /** What the script binds for a string-or-null placeholder whose argument is `v`: when
      the substituted text reads at all, exactly the argument. */
  function StringBinding(v: Option<string>): (r: Option<Option<string>>)
    ensures r.Some? ==> r.value == Keep(v)
  {
    ReadRenderedOptStringExact(v);
    ReadOptString(RenderOptString(v))
  }

  /** What the script binds for the tag-id placeholder: when it reads at all, an array,
      empty exactly when the argument is absent or empty. */
  function TagsBinding(ids: Option<seq<string>>): (r: Option<Option<seq<string>>>)
    ensures r.Some? ==> r.value.Some? && (r.value == Some([]) <==> ids.None? || ids.value == [])
  {
    var text := RenderTagIds(ids);
    assert ids.Some? && ids.value != [] ==> text != "[]" && text[0] == '[';
    ReadOptArray(text)
  }

  /** What the script binds for the flag placeholder: always the argument. */
  function FlagBinding(flagged: Option<bool>): (r: Option<Option<bool>>)
    ensures r == Some(flagged)
  {
    ReadRenderedFlag(flagged);
    ReadOptBool(RenderFlag(flagged))
  }

  /** The bindings `update_task`'s script starts from, read from the text substituted for
      each placeholder, the task id between the template's own quotes; `None` when some
      text is outside what the reader reads. Whenever the reader reads them all, the task
      id reaches the script as itself, each string binding is exactly its argument (`null`
      for `None` and `""`), the flag is the argument, and the tag binding is an array that
      is empty exactly when the argument is absent or empty. */
  function BindingsOf(a: UpdateTaskArgs): (r: Option<Bindings>)
    ensures r.Some? ==> QuotedIdReads(a.taskId)
    ensures r.Some? ==> r.value.newName == Keep(a.name) && r.value.newNote == Keep(a.note)
    ensures r.Some? ==> r.value.newProjectId == Keep(a.projectId)
    ensures r.Some? ==> r.value.newDeferDate == Keep(a.deferDate) && r.value.newDueDate == Keep(a.dueDate)
    ensures r.Some? ==> r.value.newFlagged == a.flagged
    ensures r.Some? ==> r.value.newTags.Some?
    ensures r.Some? ==> (r.value.newTags == Some([]) <==> a.tagIds.None? || a.tagIds.value == [])
  {
    var name := StringBinding(a.name);
    var note := StringBinding(a.note);
    var tags := TagsBinding(a.tagIds);
    var project := StringBinding(a.projectId);
    var deferDate := StringBinding(a.deferDate);
    var dueDate := StringBinding(a.dueDate);
    var flagged := FlagBinding(a.flagged);
    if QuotedIdReads(a.taskId) && name.Some? && note.Some? && tags.Some? && project.Some? && deferDate.Some? && dueDate.Some? && flagged.Some?
    then Some(Bindings(name.value, note.value, tags.value, project.value, deferDate.value, dueDate.value, flagged.value))
    else None
  }

  predicate PlainOpt(v: Option<string>) {
    v.Some? ==> Plain(v.value)
  }

  /** Python truthiness carried into the script: an argument that is `None` or `""` binds
      `null`. */
  function Keep(v: Option<string>): (r: Option<string>)
    ensures r.Some? <==> Supplied(v)
    ensures r.Some? ==> r == v
  {
    if Supplied(v) then v else None
  }

  lemma StringBindingPlain(v: Option<string>)
    requires PlainOpt(v)
    ensures StringBinding(v).Some?
  {
    ReadRenderedOptString(v);
  }

  lemma TagsBindingPlain(ids: Option<seq<string>>)
    requires ids.Some? ==> forall i :: 0 <= i < |ids.value| ==> Plain(ids.value[i])
    ensures TagsBinding(ids) == Some(Some(if ids.Some? then ids.value else []))
  {
    ReadRenderedTagIds(ids);
  }

  /** The text a plain argument renders to holds nothing the wrapper's template literal
      reads specially, so it reaches the script as the Python side wrote it. */
  lemma PlainTextPassesWrapper(v: Option<string>)
    requires PlainOpt(v)
    ensures Scripting.TemplatePlain(RenderOptString(v))
  {
    if Supplied(v) {
      var text := Quote(v.value);
      forall i | 0 <= i < |text|
        ensures Scripting.TemplatePlainChar(text[i])
      {
        if 0 < i < |text| - 1 { assert text[i] == v.value[i - 1]; }
      }
    }
  }

  /** With no quote, backslash, backtick, dollar sign or line break in the task id or any
      string argument, the script binds what the caller passed: strings as given (`None`
      and `""` as null), the tag ids as an array (empty when absent), the flag as given. */
  lemma BindingsOfPlainArgs(a: UpdateTaskArgs)
    requires Plain(a.taskId) && PlainOpt(a.name) && PlainOpt(a.note) && PlainOpt(a.projectId)
    requires PlainOpt(a.deferDate) && PlainOpt(a.dueDate)
    requires a.tagIds.Some? ==> forall i :: 0 <= i < |a.tagIds.value| ==> Plain(a.tagIds.value[i])
    ensures BindingsOf(a) == Some(Bindings(
              Keep(a.name), Keep(a.note), Some(if a.tagIds.Some? then a.tagIds.value else []),
              Keep(a.projectId), Keep(a.deferDate), Keep(a.dueDate), a.flagged))
  {
    QuotedIdPlain(a.taskId);
    StringBindingPlain(a.name);
    StringBindingPlain(a.note);
    StringBindingPlain(a.projectId);
    StringBindingPlain(a.deferDate);
    StringBindingPlain(a.dueDate);
    TagsBindingPlain(a.tagIds);
  }

  /** Whenever the reader reads every substituted text, an argument left out (or, for a
      string, given as `""`) leaves its field of the task unchanged. */
  lemma OmittedArgumentsChangeNothing(a: UpdateTaskArgs, f: TaskFields, knownTags: set<string>, knownProjects: set<string>)
    requires BindingsOf(a).Some?
    ensures var g := Updated(f, BindingsOf(a).value, knownTags, knownProjects);
            && (!Supplied(a.name) ==> g.name == f.name)
            && (!Supplied(a.note) ==> g.note == f.note)
            && (a.tagIds.None? || a.tagIds.value == [] ==> g.tagIds == f.tagIds)
            && (!Supplied(a.projectId) ==> g.projectId == f.projectId)
            && (!Supplied(a.deferDate) ==> g.deferDate == f.deferDate)
            && (!Supplied(a.dueDate) ==> g.dueDate == f.dueDate)
            && (a.flagged.None? ==> g.flagged == f.flagged)
  {
    assert Resolved([], knownTags) == {};
  }

  /** The whole `update_task` script on a task that `Task.byIdentifier` found, for arguments
      whose substituted texts the reader reads. */
  method RunUpdateTask(task: OmniTask, a: UpdateTaskArgs, knownTags: set<string>, knownProjects: set<string>)
    requires BindingsOf(a).Some?
    modifies task
    ensures task.Fields() == Updated(old(task.Fields()), BindingsOf(a).value, knownTags, knownProjects)
  {
    var b := BindingsOf(a).value;
    ApplyUpdate(task, b, knownTags, knownProjects);
  }

  // ---------------------------------------------------------------------------------
  // create_task
  // ---------------------------------------------------------------------------------

  /** The name and note `create_task`'s script gives the new task: the name is read from
      `"${task_name}"` and the note binding is assigned when truthy. `None` when either
      text is outside what the reader reads. */
  function CreatedTask(name: string, note: Option<string>): (r: Option<(string, Option<string>)>)
    ensures r.Some? ==> r.value == (name, Keep(note))
  {
    assert Quote(name)[1..] == name + "\"";
    ReadStringTailExact(name);
    ReadRenderedOptStringExact(note);
    var m := CreateTaskSubstitutions(name, note);
    var nameValue := ReadLiteral(Quote(m[TaskName]));
    var noteValue := ReadOptString(m[TaskNote]);
    if nameValue.Some? && nameValue.value.JsString? && noteValue.Some?
    then Some((nameValue.value.s, if Supplied(noteValue.value) then noteValue.value else None))
    else None
  }

  /** A plain name and note reach the new task unchanged; an omitted or empty note sets none. */
  lemma CreateKeepsPlainNameAndNote(name: string, note: Option<string>)
    requires Plain(name) && PlainOpt(note)
    ensures CreatedTask(name, note) == Some((name, Keep(note)))
  {
    var text := Quote(name);
    assert text[1..] == name + "\"" + "";
    ReadPlainTail(name, "");
    ReadRenderedOptString(note);
  }

  /** A double quote in the name closes the name's literal early, so the script does not
      create a task with that name. */
  lemma CreateWithQuotedNameFails(prefix: string, suffix: string, note: Option<string>)
    requires Plain(prefix)
    ensures CreatedTask(prefix + "\"" + suffix, note) == None
  {
    var name := prefix + "\"" + suffix;
    var text := Quote(name);
    assert text[1..] == prefix + "\"" + (suffix + "\"");
    ReadPlainTail(prefix, suffix + "\"");
  }

  /** A backtick in the name ends the wrapper's template literal, so the script does not
      create a task with that name. */
  lemma CreateWithBacktickNameFails(prefix: string, suffix: string, note: Option<string>)
    requires Plain(prefix)
    ensures CreatedTask(prefix + "`" + suffix, note) == None
  {
    var name := prefix + "`" + suffix;
    assert Quote(name)[1..] == prefix + "`" + (suffix + "\"");
    ReadPlainStops(prefix, '`', suffix + "\"");
  }
}
