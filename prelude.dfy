/** The helper functions every generated script starts with (the shared prelude of
    utils/omnifocus.py), over abstract values standing for OmniFocus objects. */
module Prelude {
  import opened Text

  datatype TaskStatus = Available | Blocked | Completed | Dropped | DueSoon | Next | Overdue
  datatype ProjectStatus = Active | Done | Dropped | OnHold

  /** A `status` argument at run time: null or undefined, a member of the enumeration,
      or any other object, which is not a key of the status map. */
  datatype StatusValue<E> = Absent | Member(member: E) | OtherObject

  /** The entries of `projectStatusToString`'s status map. */
  function ProjectStatusName(s: ProjectStatus): string {
    match s
    case Active => "Active"
    case Done => "Done"
    case Dropped => "Dropped"
    case OnHold => "OnHold"
  }

  /** The entries of `taskStatusToString`'s status map. */
  function TaskStatusName(s: TaskStatus): string {
    match s
    case Available => "Available"
    case Blocked => "Blocked"
    case Completed => "Completed"
    case Dropped => "Dropped"
    case DueSoon => "DueSoon"
    case Next => "Next"
    case Overdue => "Overdue"
  }

  /** `projectStatusToString`. */
  function ProjectStatusToString(v: StatusValue<ProjectStatus>): (r: string)
    ensures r == "Unknown" <==> !v.Member?
    ensures v.Member? ==> r == ProjectStatusName(v.member)
  {
    if v.Absent? then "Unknown"
    else if v.Member? then ProjectStatusName(v.member)
    else "Unknown"
  }

  /** `taskStatusToString`. */
  function TaskStatusToString(v: StatusValue<TaskStatus>): (r: string)
    ensures r == "Unknown" <==> !v.Member?
    ensures v.Member? ==> r == TaskStatusName(v.member)
  {
    if v.Absent? then "Unknown"
    else if v.Member? then TaskStatusName(v.member)
    else "Unknown"
  }

  /** The names of the Python `TaskStatus` literal type, which callers pass as filters. */
  const TaskStatusNames: seq<string> :=
    ["Available", "Blocked", "Completed", "Dropped", "DueSoon", "Next", "Overdue"]

  /** Reading a task status name back. */
  function ParseTaskStatus(name: string): (r: Option<TaskStatus>)
    ensures r.Some? ==> TaskStatusName(r.value) == name
  {
    if name == "Available" then Some(Available)
    else if name == "Blocked" then Some(Blocked)
    else if name == "Completed" then Some(Completed)
    else if name == "Dropped" then Some(TaskStatus.Dropped)
    else if name == "DueSoon" then Some(DueSoon)
    else if name == "Next" then Some(Next)
    else if name == "Overdue" then Some(Overdue)
    else None
  }

  /** The status map is one-to-one, and its names are exactly the Python literal names. */
  lemma TaskStatusNamesRoundTrip(s: TaskStatus, name: string)
    ensures ParseTaskStatus(TaskStatusName(s)) == Some(s)
    ensures ParseTaskStatus(name).Some? <==> name in TaskStatusNames
    ensures TaskStatusName(s) in TaskStatusNames
  {
  }

  /** What a task's status string says about its status value: `"Unknown"` never names a
      status, and any other string determines the status. */
  lemma TaskStatusStringDecodes(v: StatusValue<TaskStatus>)
    ensures ParseTaskStatus(TaskStatusToString(v)) == if v.Member? then Some(v.member) else None
  {
    if v.Member? { TaskStatusNamesRoundTrip(v.member, ""); }
  }

  // ---------------------------------------------------------------------------------
  // getFullTagName
  // ---------------------------------------------------------------------------------

  /** A tag and its chain of parents; reading the parent of a tag may fail. */
  datatype Tag = Tag(name: string, parent: ParentLink)
  datatype ParentLink = TopLevel | Parent(tag: Tag) | Unreadable

  /** The names from the outermost reachable ancestor down to `t` itself. */
  function Ancestry(t: Tag): (r: seq<string>)
    ensures |r| >= 1 && r[|r| - 1] == t.name
  {
    (if t.parent.Parent? then Ancestry(t.parent.tag) else []) + [t.name]
  }

  /** The outermost ancestor the walk reaches. */
  function Outermost(t: Tag): Tag {
    if t.parent.Parent? then Outermost(t.parent.tag) else t
  }

  function Height(t: Tag): nat {
    if t.parent.Parent? then 1 + Height(t.parent.tag) else 1
  }

  /** The full name of a tag, as `getFullTagName` computes it; it always ends with the
      tag's own name. */
  function FullTagName(t: Tag): (r: string)
    ensures |t.name| <= |r| && r[|r| - |t.name|..] == t.name
  {
    JoinEndsWithLast(Ancestry(t), " : ");
    Join(Ancestry(t), " : ")
  }

  /** `getFullTagName`: walks up the parents, putting each name in front, and stops at a
      top-level tag or at a parent that cannot be read. */
  method GetFullTagName(tag: Tag) returns (fullName: string)
    ensures fullName == FullTagName(tag)
  {
    var names: seq<string> := [];
    var current: Option<Tag> := Some(tag);
    while current.Some?
      invariant current.Some? ==> Ancestry(tag) == Ancestry(current.value) + names
      invariant current.None? ==> Ancestry(tag) == names
      decreases if current.Some? then Height(current.value) else 0
    {
      var t := current.value;
      AncestryStep(t, names);
      names := [t.name] + names;
      match t.parent
      case TopLevel =>
        current := None;
      case Parent(p) =>
        current := Some(p);
      case Unreadable =>
        break;
    }
    fullName := Join(names, " : ");
  }

  /** One step of the walk: the tag's name moves from the ancestry to the front of the
      names collected so far. */
  lemma AncestryStep(t: Tag, names: seq<string>)
    ensures t.parent.Parent? ==> Ancestry(t) + names == Ancestry(t.parent.tag) + ([t.name] + names)
    ensures !t.parent.Parent? ==> Ancestry(t) + names == [t.name] + names
  {
  }

  /** The first component is the outermost ancestor's name, the last is the tag's own. */
  lemma {:induction false} AncestryEnds(t: Tag)
    ensures Ancestry(t)[0] == Outermost(t).name
    ensures |Ancestry(t)| == Height(t)
  {
    if t.parent.Parent? {
      AncestryEnds(t.parent.tag);
    }
  }

  /** A tag whose parent can be read extends its parent's full name by `" : "` and its own. */
  lemma FullTagNameExtends(t: Tag)
    requires t.parent.Parent?
    ensures FullTagName(t) == FullTagName(t.parent.tag) + " : " + t.name
  {
    JoinAppend(Ancestry(t.parent.tag), " : ", t.name);
  }

  /** A top-level tag, or one whose parent cannot be read, is named by its own name alone. */
  lemma FullTagNameOfTopLevel(t: Tag)
    requires !t.parent.Parent?
    ensures FullTagName(t) == t.name
  {
  }

  /** Tags A, B and C nested root to leaf give `"A : B : C"`. */
  lemma ThreeLevels()
    ensures FullTagName(Tag("C", Parent(Tag("B", Parent(Tag("A", TopLevel)))))) == "A : B : C"
  {
    var a := Tag("A", TopLevel);
    var b := Tag("B", Parent(a));
    FullTagNameExtends(b);
    FullTagNameExtends(Tag("C", Parent(b)));
  }

  // ---------------------------------------------------------------------------------
  // getLeafNodes
  // ---------------------------------------------------------------------------------

  /** A node of a window's content tree; a node without children has the empty sequence. */
  datatype TreeNode<T> = TreeNode(object: T, children: seq<TreeNode<T>>)

  /** `getLeafNodes`. */
  function LeafNodes<T>(n: TreeNode<T>): (r: seq<TreeNode<T>>)
    ensures |r| >= 1
    ensures forall m :: m in r ==> m.children == []
    ensures n.children == [] ==> r == [n]
    decreases n
  {
    if |n.children| == 0 then [n] else LeafNodesAll(n.children)
  }

  /** `children.flatMap(getLeafNodes)`. */
  function LeafNodesAll<T>(cs: seq<TreeNode<T>>): (r: seq<TreeNode<T>>)
    ensures |cs| > 0 ==> |r| >= 1
    ensures forall m :: m in r ==> m.children == []
    decreases cs
  {
    if |cs| == 0 then [] else LeafNodes(cs[0]) + LeafNodesAll(cs[1..])
  }

  /** Every node of the tree in depth-first, left-to-right order, each before its children. */
  function Preorder<T>(n: TreeNode<T>): seq<TreeNode<T>>
    decreases n
  {
    [n] + PreorderAll(n.children)
  }

  function PreorderAll<T>(cs: seq<TreeNode<T>>): seq<TreeNode<T>>
    decreases cs
  {
    if |cs| == 0 then [] else Preorder(cs[0]) + PreorderAll(cs[1..])
  }

  /** The childless nodes of `s`, in order. */
  function Childless<T>(s: seq<TreeNode<T>>): seq<TreeNode<T>> {
    if |s| == 0 then []
    else (if s[0].children == [] then [s[0]] else []) + Childless(s[1..])
  }

  lemma {:induction false} ChildlessAppend<T>(a: seq<TreeNode<T>>, b: seq<TreeNode<T>>)
    ensures Childless(a + b) == Childless(a) + Childless(b)
  {
    if a != [] {
      assert (a + b)[1..] == a[1..] + b;
      ChildlessAppend(a[1..], b);
    } else {
      assert a + b == b;
    }
  }

  /** The leaves are exactly the childless nodes of a depth-first walk, in its order. */
  lemma {:induction false} LeafNodesInDepthFirstOrder<T>(n: TreeNode<T>)
    ensures LeafNodes(n) == Childless(Preorder(n))
    decreases n, 1
  {
    ChildlessAppend([n], PreorderAll(n.children));
    assert Childless([n]) == (if n.children == [] then [n] else []);
    if n.children != [] {
      LeafNodesAllInDepthFirstOrder(n.children);
    }
  }

  lemma {:induction false} LeafNodesAllInDepthFirstOrder<T>(cs: seq<TreeNode<T>>)
    ensures LeafNodesAll(cs) == Childless(PreorderAll(cs))
    decreases cs, 0
  {
    if cs != [] {
      LeafNodesInDepthFirstOrder(cs[0]);
      LeafNodesAllInDepthFirstOrder(cs[1..]);
      ChildlessAppend(Preorder(cs[0]), PreorderAll(cs[1..]));
    }
  }

  // ---------------------------------------------------------------------------------
  // getPerspectiveByName
  // ---------------------------------------------------------------------------------

  datatype Perspective = Perspective(name: string)

  predicate NameMatches(p: Perspective, query: string) {
    Upper(p.name) == Upper(query)
  }

  /** The first perspective of `ps` whose name matches `query` ignoring case. */
  function FirstMatch(ps: seq<Perspective>, query: string): (r: Option<Perspective>)
    ensures r.None? <==> forall i :: 0 <= i < |ps| ==> !NameMatches(ps[i], query)
    ensures r.Some? ==> exists i :: 0 <= i < |ps| && ps[i] == r.value && NameMatches(ps[i], query)
                          && forall j :: 0 <= j < i ==> !NameMatches(ps[j], query)
  {
    if |ps| == 0 then None
    else if NameMatches(ps[0], query) then Some(ps[0])
    else
      var r := FirstMatch(ps[1..], query);
      assert r.Some? ==> exists i :: 0 < i < |ps| && ps[i] == r.value && NameMatches(ps[i], query)
                          && forall j :: 0 <= j < i ==> !NameMatches(ps[j], query) by {
        if r.Some? {
          var k :| 0 <= k < |ps| - 1 && ps[1..][k] == r.value && NameMatches(ps[1..][k], query)
                   && forall j :: 0 <= j < k ==> !NameMatches(ps[1..][j], query);
          assert forall j :: 0 < j <= k ==> ps[j] == ps[1..][j - 1];
        }
      }
      r
  }

  /** `Array.prototype.indexOf`: the first index holding `key`, or -1. */
  method IndexOf(names: seq<string>, key: string) returns (i: int)
    ensures -1 <= i < |names|
    ensures i >= 0 ==> names[i] == key && forall j :: 0 <= j < i ==> names[j] != key
    ensures i == -1 ==> forall j :: 0 <= j < |names| ==> names[j] != key
  {
    var k := 0;
    while k < |names|
      invariant 0 <= k <= |names|
      invariant forall j :: 0 <= j < k ==> names[j] != key
    {
      if names[k] == key {
        return k;
      }
      k := k + 1;
    }
    return -1;
  }

  /** `getPerspectiveByName`: built-in perspectives first, then custom ones; the first whose
      upper-cased name equals the upper-cased query, or null. */
  method GetPerspectiveByName(builtIn: seq<Perspective>, custom: seq<Perspective>, name: string)
    returns (r: Option<Perspective>)
    ensures r == FirstMatch(builtIn + custom, name)
  {
    var perspectives: seq<Perspective> := [];
    perspectives := perspectives + builtIn;
    perspectives := perspectives + custom;
    var perspectiveNames := seq(|perspectives|, i requires 0 <= i < |perspectives| => Upper(perspectives[i].name));
    var index := IndexOf(perspectiveNames, Upper(name));
    assert forall j :: 0 <= j < |perspectives| ==> perspectiveNames[j] == Upper(perspectives[j].name);
    // perspectives[-1] is undefined, and `undefined || null` is null
    r := if index >= 0 then Some(perspectives[index]) else None;
    assert [] + builtIn + custom == builtIn + custom;
    FirstMatchAt(perspectives, name, index);
  }

  lemma {:induction false} FirstMatchAt(ps: seq<Perspective>, query: string, index: int)
    requires -1 <= index < |ps|
    requires index >= 0 ==> NameMatches(ps[index], query) && forall j :: 0 <= j < index ==> !NameMatches(ps[j], query)
    requires index == -1 ==> forall j :: 0 <= j < |ps| ==> !NameMatches(ps[j], query)
    ensures FirstMatch(ps, query) == if index >= 0 then Some(ps[index]) else None
  {
    if index > 0 {
      FirstMatchAt(ps[1..], query, index - 1);
    }
  }

  /** Built-in perspectives take precedence: custom ones are searched only when no
      built-in one matches. */
  lemma {:induction false} BuiltInFirst(builtIn: seq<Perspective>, custom: seq<Perspective>, query: string)
    ensures FirstMatch(builtIn + custom, query)
         == if FirstMatch(builtIn, query).Some? then FirstMatch(builtIn, query) else FirstMatch(custom, query)
  {
    if builtIn != [] {
      assert (builtIn + custom)[1..] == builtIn[1..] + custom;
      BuiltInFirst(builtIn[1..], custom, query);
    } else {
      assert builtIn + custom == custom;
    }
  }

  /** The query's case does not matter. */
  lemma QueryCaseIgnored(ps: seq<Perspective>, query: string)
    ensures FirstMatch(ps, Upper(query)) == FirstMatch(ps, query)
  {
    UpperIdempotent(query);
    FirstMatchSameKey(ps, Upper(query), query);
  }

  lemma {:induction false} FirstMatchSameKey(ps: seq<Perspective>, q1: string, q2: string)
    requires Upper(q1) == Upper(q2)
    ensures FirstMatch(ps, q1) == FirstMatch(ps, q2)
  {
    if ps != [] {
      FirstMatchSameKey(ps[1..], q1, q2);
    }
  }

  /** Requesting `"inbox"` finds the built-in perspective named `"Inbox"`, provided no
      built-in perspective before it matches too. */
  lemma InboxFoundInLowerCase(builtIn: seq<Perspective>, custom: seq<Perspective>, index: nat)
    requires index < |builtIn| && builtIn[index] == Perspective("Inbox")
    requires forall j :: 0 <= j < index ==> !NameMatches(builtIn[j], "inbox")
    ensures FirstMatch(builtIn + custom, "inbox") == Some(Perspective("Inbox"))
  {
    assert Upper("inbox") == "INBOX";
    assert Upper("Inbox") == "INBOX";
    var ps := builtIn + custom;
    assert forall j :: 0 <= j <= index ==> ps[j] == builtIn[j];
    FirstMatchAt(ps, "inbox", index);
  }

  // ---------------------------------------------------------------------------------
  // formatTask and taskStatusFilter
  // ---------------------------------------------------------------------------------

  /** A JavaScript date; `toString()` gives `text`. */
  datatype Date = Date(text: string)

  /** The fields of an OmniFocus task that `formatTask` reads; `tags` is `None` when the
      task's `tags` property is falsy. */
  datatype TaskObject = TaskObject(
    primaryKey: string,
    name: string,
    containingProjectName: Option<string>,
    taskStatus: StatusValue<TaskStatus>,
    flagged: bool,
    deferDate: Option<Date>,
    dueDate: Option<Date>,
    dropped: bool,
    completed: bool,
    tagNames: Option<seq<string>>,
    note: string)

  /** The record a script returns for a task. */
  datatype TaskRecord = TaskRecord(
    id: string,
    name: string,
    projectName: Option<string>,
    status: string,
    flagged: bool,
    deferDate: Option<string>,
    dueDate: Option<string>,
    dropped: bool,
    completed: bool,
    tags: seq<string>,
    note: string)

  /** `formatTask`. */
  function FormatTask(t: TaskObject): (r: TaskRecord)
    ensures r.id == t.primaryKey && r.name == t.name && r.note == t.note
    ensures r.projectName == t.containingProjectName
    ensures r.status == "Unknown" <==> !t.taskStatus.Member?
    ensures ParseTaskStatus(r.status) == if t.taskStatus.Member? then Some(t.taskStatus.member) else None
    ensures r.flagged == t.flagged && r.dropped == t.dropped && r.completed == t.completed
    ensures r.deferDate == if t.deferDate.Some? then Some(t.deferDate.value.text) else None
    ensures r.dueDate == if t.dueDate.Some? then Some(t.dueDate.value.text) else None
    ensures r.tags == if t.tagNames.Some? then t.tagNames.value else []
  {
    TaskStatusStringDecodes(t.taskStatus);
    TaskRecord(
      t.primaryKey,
      t.name,
      if t.containingProjectName.Some? then Some(t.containingProjectName.value) else None,
      TaskStatusToString(t.taskStatus),
      t.flagged,
      if t.deferDate.Some? then Some(t.deferDate.value.text) else None,
      if t.dueDate.Some? then Some(t.dueDate.value.text) else None,
      t.dropped,
      t.completed,
      if t.tagNames.Some? then t.tagNames.value else [],
      t.note)
  }

  /** An allow-list that lets every task through: null or empty. */
  predicate NoFilter(allowed: Option<seq<string>>) {
    allowed.None? || |allowed.value| == 0
  }

  /** `taskStatusFilter`; `allowed` is the `allowedStatuses` binding, null or an array. */
  predicate TaskStatusFilter(t: TaskObject, allowed: Option<seq<string>>): (pass: bool)
    ensures NoFilter(allowed) ==> pass
    ensures !NoFilter(allowed) && t.taskStatus.Member? ==> (pass <==> TaskStatusName(t.taskStatus.member) in allowed.value)
    ensures !NoFilter(allowed) && !t.taskStatus.Member? ==> (pass <==> "Unknown" in allowed.value)
  {
    if NoFilter(allowed) then true
    else TaskStatusToString(t.taskStatus) in allowed.value
  }

  /** The filter compares against the very status string the task is reported with. */
  lemma FilterAgreesWithRecord(t: TaskObject, allowed: Option<seq<string>>)
    ensures TaskStatusFilter(t, allowed) <==> NoFilter(allowed) || FormatTask(t).status in allowed.value
  {
  }

  /** Filtering by Python status names never passes a task whose status is unrecognised. */
  lemma UnknownStatusNeverAllowed(t: TaskObject, allowed: seq<string>)
    requires |allowed| > 0
    requires forall i :: 0 <= i < |allowed| ==> allowed[i] in TaskStatusNames
    ensures !t.taskStatus.Member? ==> !TaskStatusFilter(t, Some(allowed))
  {
    assert "Unknown" !in TaskStatusNames;
  }

  /** The record of `t` when it passes the filter, and nothing otherwise. */
  function Kept(t: TaskObject, allowed: Option<seq<string>>): seq<TaskRecord> {
    if TaskStatusFilter(t, allowed) then [FormatTask(t)] else []
  }

  /** `tasks.filter(task => taskStatusFilter(task, allowedStatuses)).map(formatTask)`, the
      body of `list_tasks_by_project` and `list_tasks_by_tag`. */
  function SelectTasks(tasks: seq<TaskObject>, allowed: Option<seq<string>>): (r: seq<TaskRecord>)
    ensures |r| <= |tasks|
    ensures NoFilter(allowed) ==> |r| == |tasks|
    ensures !NoFilter(allowed) ==> forall i :: 0 <= i < |r| ==> r[i].status in allowed.value
  {
    if |tasks| == 0 then []
    else Kept(tasks[0], allowed) + SelectTasks(tasks[1..], allowed)
  }

  /** Appending a task appends its record when it passes the filter: the listing keeps the
      tasks' order and holds nothing else. */
  lemma {:induction false} SelectTasksAppend(tasks: seq<TaskObject>, t: TaskObject, allowed: Option<seq<string>>)
    ensures SelectTasks(tasks + [t], allowed) == SelectTasks(tasks, allowed) + Kept(t, allowed)
  {
    if tasks == [] {
      assert tasks + [t] == [t];
    } else {
      assert (tasks + [t])[1..] == tasks[1..] + [t];
      calc {
        SelectTasks(tasks + [t], allowed);
        Kept(tasks[0], allowed) + SelectTasks(tasks[1..] + [t], allowed);
        { SelectTasksAppend(tasks[1..], t, allowed); }
        Kept(tasks[0], allowed) + (SelectTasks(tasks[1..], allowed) + Kept(t, allowed));
        SelectTasks(tasks, allowed) + Kept(t, allowed);
      }
    }
  }

  /** Without a filter every task is listed, in order. */
  lemma {:induction false} SelectTasksAll(tasks: seq<TaskObject>, allowed: Option<seq<string>>)
    requires NoFilter(allowed)
    ensures SelectTasks(tasks, allowed) == seq(|tasks|, i requires 0 <= i < |tasks| => FormatTask(tasks[i]))
  {
    if tasks != [] {
      SelectTasksAll(tasks[1..], allowed);
    }
  }

  /** A task is listed exactly when it passes the filter. */
  lemma {:induction false} SelectTasksMembers(tasks: seq<TaskObject>, allowed: Option<seq<string>>, t: TaskObject)
    requires t in tasks
    ensures FormatTask(t) in SelectTasks(tasks, allowed) <==> TaskStatusFilter(t, allowed)
  {
    if !TaskStatusFilter(t, allowed) {
      SelectTasksNone(tasks, allowed, t);
    } else if tasks[0] != t {
      SelectTasksMembers(tasks[1..], allowed, t);
    }
  }

  /** A task that fails the filter has no record in the listing. */
  lemma {:induction false} SelectTasksNone(tasks: seq<TaskObject>, allowed: Option<seq<string>>, t: TaskObject)
    requires !TaskStatusFilter(t, allowed)
    ensures FormatTask(t) !in SelectTasks(tasks, allowed)
  {
    if tasks != [] {
      if FormatTask(tasks[0]) == FormatTask(t) {
        FilterAgreesWithRecord(t, allowed);
        FilterAgreesWithRecord(tasks[0], allowed);
      }
      SelectTasksNone(tasks[1..], allowed, t);
    }
  }
}
