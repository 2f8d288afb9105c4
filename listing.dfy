/** The task listings of utils/omnifocus.py, `list_tasks_by_project` and
    `list_tasks_by_tag`: the status filter the Python side substitutes, read back as the
    script's `allowedStatuses` binding, and the records the script returns for the tasks of
    the project or tag it found. */
module Listing {
  import opened Text
  import opened Literals
  import opened Prelude

  /** The `allowedStatuses` binding, read from the substituted text: `null` for an absent
      or empty list; `None` when the text is outside what the reader reads. */
  function AllowedStatuses(key: Placeholder, id: string, statuses: Option<seq<string>>)
    : (r: Option<Option<seq<string>>>)
    requires key == ProjectId || key == TagId
    ensures statuses.None? || statuses.value == [] ==> r == Some(None)
    ensures r.Some? && r.value.Some? ==> r.value.value != []
  {
    ReadOptArray(ListTasksSubstitutions(key, id, statuses)[TaskStatuses])
  }

  /** Plain status names are bound exactly. */
  lemma AllowedStatusesPlain(key: Placeholder, id: string, statuses: Option<seq<string>>)
    requires key == ProjectId || key == TagId
    requires statuses.Some? ==> forall i :: 0 <= i < |statuses.value| ==> Plain(statuses.value[i])
    ensures AllowedStatuses(key, id, statuses) == Some(if statuses.Some? && statuses.value != [] then statuses else None)
  {
    ReadRenderedStatusList(statuses);
  }

  /** The records a listing script returns once `Project.byIdentifier` (when `key` is
      `ProjectId`) or `Tag.byIdentifier` (when `key` is `TagId`) has found an object whose
      tasks are `tasks`; `None` when the quoted id or the substituted status text is
      outside what the reader reads. An absent or empty status list lists every task, in
      order. */
  function ListTasks(key: Placeholder, id: string, statuses: Option<seq<string>>, tasks: seq<TaskObject>)
    : (r: Option<seq<TaskRecord>>)
    requires key == ProjectId || key == TagId
    ensures r.Some? ==> QuotedIdReads(id) && |r.value| <= |tasks|
    ensures statuses.None? || statuses.value == [] ==>
              r == if QuotedIdReads(id) then Some(seq(|tasks|, i requires 0 <= i < |tasks| => FormatTask(tasks[i]))) else None
  {
    SelectTasksAll(tasks, None);
    if !QuotedIdReads(id) then None
    else
      match AllowedStatuses(key, id, statuses)
      case Some(allowed) => Some(SelectTasks(tasks, allowed))
      case None => None
  }

  /** With no quote, backslash, backtick, dollar sign or line break in the id and the
      status names, the script filters by exactly the statuses the caller passed. */
  lemma ListTasksFiltersByStatuses(key: Placeholder, id: string, statuses: Option<seq<string>>, tasks: seq<TaskObject>)
    requires key == ProjectId || key == TagId
    requires Plain(id)
    requires statuses.Some? ==> forall i :: 0 <= i < |statuses.value| ==> Plain(statuses.value[i])
    ensures ListTasks(key, id, statuses, tasks) == Some(SelectTasks(tasks, statuses))
  {
    QuotedIdPlain(id);
    AllowedStatusesPlain(key, id, statuses);
    if statuses.Some? && statuses.value == [] {
      SelectTasksAll(tasks, None);
      SelectTasksAll(tasks, statuses);
    }
  }

  /** Every name of the Python `TaskStatus` type reaches the script unchanged. */
  lemma StatusNamesArePlain()
    ensures forall i :: 0 <= i < |TaskStatusNames| ==> Plain(TaskStatusNames[i])
  {
    assert Plain("Available") && Plain("Blocked") && Plain("Completed") && Plain("Dropped");
    assert Plain("DueSoon") && Plain("Next") && Plain("Overdue");
  }

  /** Filtering by names of the Python `TaskStatus` type, for a plain id, lists a task
      exactly when its status is one of those named; a task whose status is not recognised
      is never listed. */
  lemma ListedByStatusName(key: Placeholder, id: string, statuses: seq<string>, tasks: seq<TaskObject>, t: TaskObject)
    requires key == ProjectId || key == TagId
    requires Plain(id)
    requires |statuses| > 0 && forall i :: 0 <= i < |statuses| ==> statuses[i] in TaskStatusNames
    requires t in tasks
    ensures var r := ListTasks(key, id, Some(statuses), tasks);
            r.Some? && (FormatTask(t) in r.value <==> t.taskStatus.Member? && TaskStatusName(t.taskStatus.member) in statuses)
  {
    StatusNamesArePlain();
    ListTasksFiltersByStatuses(key, id, Some(statuses), tasks);
    SelectTasksMembers(tasks, Some(statuses), t);
    UnknownStatusNeverAllowed(t, statuses);
  }
}
