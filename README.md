# mcp-omnifocus core, modelled in Dafny

mcp-omnifocus exposes OmniFocus to MCP clients. Every tool does the same thing. Python
renders its arguments as JavaScript literal text and substitutes that text into a script
template. The template starts with a shared prelude of helper functions. The script is
wrapped for OmniFocus and run through `osascript`, and the process outcome becomes either
the script's output or a `JXAScriptError`.

The model has six modules:

- `Text`: Python's `str.strip` (with `str.isspace`'s whitespace set), `join`, ASCII case
  conversion and the decimal form of an integer.
- `Literals`: how the Python side renders optional strings, tag-id lists, status lists and
  the tri-state flag. It also holds a small reader for the literal forms, which states what
  the generated script binds. Lemmas tie the two together: plain values round-trip, and a
  double quote ends a literal early.
- `Prelude`: the prelude's helpers. These are the two status mappers, `getFullTagName` (a
  loop over the parent chain), `getLeafNodes`, `getPerspectiveByName` (concatenation, then
  `indexOf`), `formatTask` and `taskStatusFilter`. OmniFocus objects are abstract values.
- `TaskUpdate`: the field-by-field update policy of `update_task`. A class whose fields
  the script assigns, with the tag loop as a method. The module connects the policy to the
  bindings that the substituted literal text produces, and it also models the bindings of
  `create_task`.
- `Listing`: `list_tasks_by_project` and `list_tasks_by_tag`. The status filter is read
  back from its substituted text, and the records listed are those the prelude's filter
  lets through.
- `Scripting`: `run_jxa_script` as a mapping from an abstract process outcome to output or
  error message, the wrapper program of `evaluate_javascript`, and its empty-output rule.

The code applies no escaping anywhere. Values go between double quotes (or between
backticks, for the wrapper) exactly as given, and the model does the same. `Literals.QuoteEndsLiteralEarly`,
`TaskUpdate.CreateWithQuotedNameFails`, `TaskUpdate.CreateWithBacktickNameFails` and
`Scripting.BacktickEndsScriptEarly` state what an unescaped quote or backtick does.

An empty string renders the same as `None`, so the script cannot tell them apart.

A non-zero exit is reported with two prefixes. The first `JXAScriptError` is raised inside
the `try`, and the generic `except Exception` clause catches it and wraps it again.

## Model

| member | source | states |
|---|---|---|
| Text.Strip | src/mcp_omnifocus/utils/scripting.py:32 | the result has no leading or trailing whitespace, and it is empty exactly when the input is all whitespace |
| Text.StripWrapped | src/mcp_omnifocus/utils/scripting.py:35 | stripping removes exactly the surrounding whitespace: any whitespace around a trimmed core strips back to that core |
| Text.StripIdempotent | src/mcp_omnifocus/utils/scripting.py:35 | stripping twice equals stripping once |
| Text.JoinAppend | src/mcp_omnifocus/utils/omnifocus.py:61 | joining one more part adds the separator and the part at the end |
| Text.DecimalRoundTrip | src/mcp_omnifocus/utils/scripting.py:38 | the decimal text of a number reads back as that number |
| Literals.Quote | src/mcp_omnifocus/utils/omnifocus.py:361 | the value sits verbatim between two double quotes |
| Literals.RenderOptString | src/mcp_omnifocus/utils/omnifocus.py:361-366 | the text is `null` exactly when the argument is `None` or `""`; otherwise it is the quoted value |
| Literals.ReadRenderedOptString | src/mcp_omnifocus/utils/omnifocus.py:361-366 | a value with no quote, backslash, backtick, dollar sign or line break is read back as that string; an omitted or empty value is read back as `null` |
| Literals.ReadRenderedOptStringExact | src/mcp_omnifocus/utils/omnifocus.py:361-366 | whatever the value holds, its text is either outside what the reader reads or read back as exactly the value (`null` for `None` or `""`) |
| Literals.ReadStringTailExact | src/mcp_omnifocus/utils/omnifocus.py:361 | a string literal that ends exactly at the end of the text holds exactly the text before its closing quote |
| Literals.EmptyIsOmitted | src/mcp_omnifocus/utils/omnifocus.py:361 | `""` and `None` render the same text |
| Literals.RenderTagIds | src/mcp_omnifocus/utils/omnifocus.py:363 | a non-empty list renders as an array literal of the quoted ids joined by `", "`; `None` or an empty list renders as `[]` |
| Literals.ArrayLiteral | src/mcp_omnifocus/utils/omnifocus.py:363 | an array literal in brackets, and `[]` exactly for the empty list |
| Literals.ReadArrayLiteral | src/mcp_omnifocus/utils/omnifocus.py:363 | an array literal of plain strings is read back as exactly that list, in order |
| Literals.ReadRenderedTagIds | src/mcp_omnifocus/utils/omnifocus.py:363 | for plain ids, the tag-id binding holds an array: exactly the given ids, or none |
| Literals.TagIdWithSeparatorSplits | src/mcp_omnifocus/utils/omnifocus.py:363 | any id holding `", "` between two plain parts `p` and `q` is bound as the two ids `p` and `q` |
| Literals.RenderStatusList | src/mcp_omnifocus/utils/omnifocus.py:556 | the text is `null` exactly when the list is `None` or empty; otherwise it is the array literal |
| Literals.ReadRenderedStatusList | src/mcp_omnifocus/utils/omnifocus.py:600 | for plain names, the status binding is `null` for an absent or empty list, and the list itself otherwise |
| Literals.RenderFlag | src/mcp_omnifocus/utils/omnifocus.py:367 | `None`, `True` and `False` render as `null`, `true` and `false` |
| Literals.ReadRenderedFlag | src/mcp_omnifocus/utils/omnifocus.py:367 | the flag binding is `null`, `true` or `false`, matching the argument |
| Literals.QuoteEndsLiteralEarly | src/mcp_omnifocus/utils/omnifocus.py:361 | nothing is escaped: a double quote in a value closes the literal there, and the rest is left over as script text |
| Literals.QuotedNameIsNotOneLiteral | src/mcp_omnifocus/utils/omnifocus.py:361 | the name `Say "hi"` does not render as a single literal |
| Literals.ReadPlainStops | src/mcp_omnifocus/utils/scripting.py:56 | after a plain prefix, a backslash, backtick or dollar sign inside a string is outside what the reader reads |
| Literals.TemplateSyntaxIsNotRead | src/mcp_omnifocus/utils/scripting.py:56 | a value holding a backtick or `${…}` after a plain prefix renders to text outside what the reader reads |
| Literals.QuotedIdExact | src/mcp_omnifocus/utils/omnifocus.py:301 | an id between the template's own quotes that reads as one string at all reads as exactly the id |
| Literals.QuotedIdPlain | src/mcp_omnifocus/utils/omnifocus.py:301 | a plain id reaches the script as itself |
| Literals.CreateTaskSubstitutions | src/mcp_omnifocus/utils/omnifocus.py:509-513 | the name is substituted raw; the note is read as `null` exactly when it is `None` or `""` |
| Literals.UpdateTaskValue | src/mcp_omnifocus/utils/omnifocus.py:358-368 | each placeholder gets its own argument: the task id raw; name, note, project id and both dates each `null` exactly when its argument is `None` or `""`, otherwise that argument quoted; the flag text reads back as the flag (`null` for `None`); the tags `[]` exactly for none, otherwise the array literal of the given ids |
| Literals.ListTasksSubstitutions | src/mcp_omnifocus/utils/omnifocus.py:553-557 | the id is substituted raw; the status text is `null` exactly when the list is absent or empty |
| Prelude.ProjectStatusToString | src/mcp_omnifocus/utils/omnifocus.py:10-26 | `Unknown` exactly for null or a value outside the map; otherwise the member's own name |
| Prelude.TaskStatusToString | src/mcp_omnifocus/utils/omnifocus.py:28-47 | `Unknown` exactly for null or a value outside the map; otherwise the member's own name |
| Prelude.TaskStatusNamesRoundTrip | src/mcp_omnifocus/utils/omnifocus.py:7 | the task-status names of the map are one-to-one and are exactly the names of the Python `TaskStatus` literal type |
| Prelude.TaskStatusStringDecodes | src/mcp_omnifocus/utils/omnifocus.py:28-47 | the status string determines the status value, and `Unknown` names none |
| Prelude.GetFullTagName | src/mcp_omnifocus/utils/omnifocus.py:49-62 | the loop yields the names from the outermost reachable ancestor down to the tag, joined by `" : "`; an unreadable parent stops the walk |
| Prelude.FullTagName | src/mcp_omnifocus/utils/omnifocus.py:49-62 | the full name ends with the tag's own name |
| Prelude.AncestryEnds | src/mcp_omnifocus/utils/omnifocus.py:53-56 | the first name is the outermost ancestor's; there is one name per level |
| Prelude.FullTagNameExtends | src/mcp_omnifocus/utils/omnifocus.py:54-61 | a child's full name is its parent's full name, then `" : "`, then its own name |
| Prelude.FullTagNameOfTopLevel | src/mcp_omnifocus/utils/omnifocus.py:53-61 | a tag with no readable parent yields just its name |
| Prelude.ThreeLevels | src/mcp_omnifocus/utils/omnifocus.py:49-62 | tags A, B and C nested from root to leaf give `A : B : C` |
| Prelude.LeafNodes | src/mcp_omnifocus/utils/omnifocus.py:64-69 | a childless node gives `[node]`; otherwise every node returned is childless, and there is at least one |
| Prelude.LeafNodesInDepthFirstOrder | src/mcp_omnifocus/utils/omnifocus.py:64-69 | the leaves are exactly the childless nodes of a left-to-right depth-first walk, in its order |
| Prelude.FirstMatch | src/mcp_omnifocus/utils/omnifocus.py:75-77 | null exactly when no name matches ignoring case; otherwise the perspective at the first matching position |
| Prelude.IndexOf | src/mcp_omnifocus/utils/omnifocus.py:77 | the first index holding the key, or -1 when the key is absent |
| Prelude.GetPerspectiveByName | src/mcp_omnifocus/utils/omnifocus.py:71-78 | the result is the first match over built-in perspectives followed by custom ones |
| Prelude.BuiltInFirst | src/mcp_omnifocus/utils/omnifocus.py:72-74 | custom perspectives are searched only when no built-in one matches |
| Prelude.QueryCaseIgnored | src/mcp_omnifocus/utils/omnifocus.py:75-77 | upper-casing the query does not change the result |
| Prelude.InboxFoundInLowerCase | src/mcp_omnifocus/utils/omnifocus.py:71-78 | asking for `inbox` finds a built-in perspective named `Inbox` when no built-in perspective before it matches |
| Prelude.FormatTask | src/mcp_omnifocus/utils/omnifocus.py:80-94 | id, name, note, project, flag, dropped and completed are copied; the status is `Unknown` exactly when unrecognised and otherwise decodes to the task's status; each date is its text when set and null otherwise; tags are the tag names, or none |
| Prelude.TaskStatusFilter | src/mcp_omnifocus/utils/omnifocus.py:96-101 | a null or empty list passes every task; otherwise a task passes exactly when its status name is in the list, and an unrecognised status exactly when `Unknown` is |
| Prelude.FilterAgreesWithRecord | src/mcp_omnifocus/utils/omnifocus.py:96-101 | a task passes exactly when the list is null or empty, or when the status string it is reported with is in the list |
| Prelude.UnknownStatusNeverAllowed | src/mcp_omnifocus/utils/omnifocus.py:96-101 | with a non-empty list of Python status names, a task whose status is unrecognised never passes |
| Prelude.SelectTasks | src/mcp_omnifocus/utils/omnifocus.py:539-547 | no more records than tasks; every task is listed when there is no filter; otherwise every listed status is allowed |
| Prelude.SelectTasksAppend | src/mcp_omnifocus/utils/omnifocus.py:539-547 | appending a task appends its record exactly when it passes the filter, so the listing keeps the tasks' order |
| Prelude.SelectTasksAll | src/mcp_omnifocus/utils/omnifocus.py:539-547 | with no filter every task is listed, in order |
| Prelude.SelectTasksMembers | src/mcp_omnifocus/utils/omnifocus.py:539-547 | a task's record is listed exactly when the task passes the filter |
| TaskUpdate.OmniTask.AddTag | src/mcp_omnifocus/utils/omnifocus.py:326 | the tag is added, and nothing else changes |
| TaskUpdate.OmniTask.MoveTo | src/mcp_omnifocus/utils/omnifocus.py:334 | the task's project becomes the given project, and nothing else changes |
| TaskUpdate.AddTags | src/mcp_omnifocus/utils/omnifocus.py:322-329 | the task's tags become the old tags plus every listed id that resolves |
| TaskUpdate.ApplyDescription | src/mcp_omnifocus/utils/omnifocus.py:314-329 | the name and note are assigned only when their bindings are truthy; the tags gain the ids that resolve; nothing else changes |
| TaskUpdate.ApplyPlanning | src/mcp_omnifocus/utils/omnifocus.py:331-348 | the project changes only to a truthy id that resolves; the dates are set only from truthy bindings; the flag is set whenever its binding is not null; nothing else changes |
| TaskUpdate.ApplyUpdate | src/mcp_omnifocus/utils/omnifocus.py:313-348 | the task becomes the field-by-field update of its old fields by the bindings |
| TaskUpdate.RunUpdateTask | src/mcp_omnifocus/utils/omnifocus.py:301-348 | after the script, the task is the update of its old fields by the bindings read from the substituted text |
| TaskUpdate.TagsOnlyGrow | src/mcp_omnifocus/utils/omnifocus.py:322-329 | the tags afterwards include those before, and every tag gained was asked for and resolves |
| TaskUpdate.ChangesNeedBindings | src/mcp_omnifocus/utils/omnifocus.py:313-348 | a field changes only when its binding is truthy, and then to that value (a date to the date parsed from it); the flag changes only to a non-null binding |
| TaskUpdate.UnresolvedIdsSkipped | src/mcp_omnifocus/utils/omnifocus.py:322-336 | tag and project ids that do not resolve leave the tags and the project unchanged |
| TaskUpdate.UpdateIdempotent | src/mcp_omnifocus/utils/omnifocus.py:313-348 | applying the same update twice equals applying it once |
| TaskUpdate.Updated | src/mcp_omnifocus/utils/omnifocus.py:313-348 | the tags afterwards include the old ones and gain only tags that exist; the project stays or becomes one that exists |
| TaskUpdate.BindingsOfPlainArgs | src/mcp_omnifocus/utils/omnifocus.py:301-311 | with a plain task id and plain strings (no quote, backslash, backtick, dollar sign or line break), the script binds what the caller passed: `None` and `""` as null, the tag ids as an array (empty when absent), and the flag as given |
| TaskUpdate.StringBinding | src/mcp_omnifocus/utils/omnifocus.py:361-366 | a string binding that the reader reads is exactly the argument, `null` for `None` or `""` |
| TaskUpdate.TagsBinding | src/mcp_omnifocus/utils/omnifocus.py:363 | the tag binding, when it reads, is an array, empty exactly when the argument is absent or empty |
| TaskUpdate.FlagBinding | src/mcp_omnifocus/utils/omnifocus.py:367 | the flag binding is always the argument |
| TaskUpdate.BindingsOf | src/mcp_omnifocus/utils/omnifocus.py:301-311 | when the reader reads every substituted text, the task id reaches the script as itself, every string binding is exactly its argument (null for `None` or `""`), the flag is the argument, and the tags are an array empty exactly when none were given |
| TaskUpdate.OmittedArgumentsChangeNothing | src/mcp_omnifocus/utils/omnifocus.py:305-348 | when the reader reads every substituted text, an argument left out (or, for a string, given as `""`) leaves its field unchanged |
| TaskUpdate.CreateKeepsPlainNameAndNote | src/mcp_omnifocus/utils/omnifocus.py:497-513 | a plain name and note reach the new task unchanged; an omitted or empty note sets none |
| TaskUpdate.CreatedTask | src/mcp_omnifocus/utils/omnifocus.py:497-503 | when the reader reads both texts, the task created has exactly the given name, and the note when it is truthy |
| TaskUpdate.CreateWithQuotedNameFails | src/mcp_omnifocus/utils/omnifocus.py:498 | a double quote in the name leaves its text outside what the reader reads, so the script does not create a task with that name |
| TaskUpdate.CreateWithBacktickNameFails | src/mcp_omnifocus/utils/omnifocus.py:498 | a backtick in the name ends the wrapper's template literal, so the script does not create a task with that name |
| TaskUpdate.PlainTextPassesWrapper | src/mcp_omnifocus/utils/scripting.py:56 | the text a plain argument renders to holds nothing the wrapper's template literal reads specially |
| Scripting.Command | src/mcp_omnifocus/utils/scripting.py:28 | `osascript` gets `-l JavaScript -e` and then the script as its fifth and last argument |
| Scripting.TryBlock | src/mcp_omnifocus/utils/scripting.py:26-35 | only a zero exit returns, with stdout stripped; a non-zero exit raises `AppleScript failed: ...`; a timeout and a missing `osascript` raise as themselves |
| Scripting.Handle | src/mcp_omnifocus/utils/scripting.py:37-42 | a timeout message starts `AppleScript timed out after `; a missing `osascript` gives the fixed message; anything else starts `AppleScript execution error: `, and a failed exit gets both prefixes |
| Scripting.Classify | src/mcp_omnifocus/utils/scripting.py:26-42 | output exactly on a zero exit, and it is stdout stripped; every error message comes from one of the `except` clauses, and a failed exit carries both prefixes |
| Scripting.RunJxaScript | src/mcp_omnifocus/utils/scripting.py:12-42 | output exactly when `osascript` exits with status zero; every error message starts with one of the three clause texts; a failed exit carries both prefixes |
| Scripting.NonZeroExitMessage | src/mcp_omnifocus/utils/scripting.py:31-33 | a non-zero exit gives `AppleScript execution error: AppleScript failed: `, then the stripped stderr (or `Unknown AppleScript error` when stderr is empty) |
| Scripting.WhitespaceStderrGivesEmptyDiagnostic | src/mcp_omnifocus/utils/scripting.py:32 | a stderr made only of whitespace is truthy, so the diagnostic after the prefixes is empty |
| Scripting.TimeoutMessage | src/mcp_omnifocus/utils/scripting.py:37-38 | a timeout gives `AppleScript timed out after <timeout> seconds` |
| Scripting.TimeoutMessageNamesDuration | src/mcp_omnifocus/utils/scripting.py:38 | the number in the timeout message is all digits and reads back as the timeout |
| Scripting.MissingInterpreterMessage | src/mcp_omnifocus/utils/scripting.py:39-40 | a missing `osascript` gives the fixed message |
| Scripting.OtherExceptionMessage | src/mcp_omnifocus/utils/scripting.py:41-42 | any other `Exception` gives `AppleScript execution error: ` followed by its text |
| Scripting.HelloWorld | src/mcp_omnifocus/utils/scripting.py:35 | stdout `Hello World` plus a newline, with exit 0, gives `Hello World` |
| Scripting.WrapperProgram | src/mcp_omnifocus/utils/scripting.py:56 | the program is the fixed prefix, the script verbatim, a backtick, then the fixed tail |
| Scripting.WrapperCarriesScript | src/mcp_omnifocus/utils/scripting.py:56 | a script with no backtick, backslash, dollar sign or carriage return is exactly the template literal's text, and the tail follows unchanged |
| Scripting.BacktickEndsScriptEarly | src/mcp_omnifocus/utils/scripting.py:56 | nothing is escaped: a backtick in the script closes the template literal there |
| Scripting.EvaluateJavascript | src/mcp_omnifocus/utils/scripting.py:56-59 | text is decoded only after a zero exit, and it is the stripped stdout, never empty; the result fails exactly when `run_jxa_script` raises, with its message |
| Scripting.EmptyOutputIsEmptyObject | src/mcp_omnifocus/utils/scripting.py:58-59 | the result is `{}` exactly when `osascript` exits with status zero and prints only whitespace |
| Scripting.EvaluateTimeoutMessage | src/mcp_omnifocus/utils/scripting.py:12 | the wrapped script runs with the 30-second default, so a timeout reports 30 seconds |
| Listing.AllowedStatuses | src/mcp_omnifocus/utils/omnifocus.py:533-556 | an absent or empty status list binds `null`; an array that is bound is never empty |
| Listing.AllowedStatusesPlain | src/mcp_omnifocus/utils/omnifocus.py:553-557 | plain status names are bound exactly |
| Listing.ListTasks | src/mcp_omnifocus/utils/omnifocus.py:527-557 | a listing needs the quoted id to read as itself; no more records than tasks; with no status list every task is listed, in order |
| Listing.ListTasksFiltersByStatuses | src/mcp_omnifocus/utils/omnifocus.py:571-601 | with a plain id and plain status names the script lists the tasks that pass a filter of exactly those names |
| Listing.StatusNamesArePlain | src/mcp_omnifocus/utils/omnifocus.py:7 | every name of the Python `TaskStatus` type reaches the script unchanged |
| Listing.ListedByStatusName | src/mcp_omnifocus/utils/omnifocus.py:539-557 | filtering by Python status names lists a task exactly when its status is one of them |

## Left out

- The `osascript` process is an abstract `ProcessOutcome`. The model does not capture what the process itself does, or that `stdout` and `stderr` are decoded text.
- `json.loads` is not modelled. A non-empty output is returned as the text to decode. Malformed JSON and its exception are outside the model.
- The "Could not find ..." messages at src/mcp_omnifocus/utils/omnifocus.py:303, 536 and 580 are not modelled. They call `.toString()` on identifiers the scripts never declare, so the actual failure is a JavaScript reference error.
- A `Task.byIdentifier` that finds no task is not modelled, for the same reason. `TaskUpdate.RunUpdateTask` starts from a task that was found.
- The `catch` at src/mcp_omnifocus/utils/omnifocus.py:349-351 is not modelled. A step that throws part-way (an invalid `new Date`, a failing `moveTasks`) leaves the assignments before it applied and reports `Error updating task: …`. The model has no throwing step, so this partial update is not captured: `TaskUpdate.ApplyUpdate` always applies every step.
- The `try`/`catch` around `formatTask` in the listings (a record replaced by `null`, then filtered out) is not modelled, because `Prelude.FormatTask` does not fail.
- `Prelude.GetPerspectiveByName` upper-cases ASCII letters only, whereas `toUpperCase` applies full Unicode case mapping.
- `new Date(text)` is an opaque `ParsedDate(text)`, because date parsing belongs to the OmniFocus runtime. So is `Date.toString()`.
- `task.addTag` and `moveTasks` are modelled by their effect on the task: tags as a set, and the project id. The order of tags and the move of the task between projects' task lists are not captured.
- TaskUpdate.RunUpdateTask: requires every substituted text, the quoted task id included, to be read by the reader. What a script does with injected text after an unescaped quote is not modelled. The lemmas about quotes only show where the literal ends.
- The reader in `Literals` knows only plain double-quoted strings, arrays of them, `null`, `true` and `false`. Strings with backslashes, backticks, dollar signs or line breaks are outside what it reads, and `None` from it means only that.
- ReadRenderedOptStringExact: a backslash in a value is outside what the reader reads, yet JavaScript accepts it: it is processed as an escape twice, first by the wrapper's template literal and then by the string literal, so `a\tb` binds a tab. The model does not say what such a value binds; the same holds for `TaskUpdate.StringBinding`, `TaskUpdate.BindingsOf` and `TaskUpdate.CreatedTask`.
- A NUL character counts as plain, yet `subprocess.run` refuses an argument that holds one: `run_jxa_script` then reports `AppleScript execution error: embedded null byte` and the script never runs. The runner is abstract, so the model does not tie this failure to the script text; the claims about bindings hold only for a script that runs.
- A backtick or `${…}` in any value, the raw task id, the `create_task` name and the listing ids included, ends the wrapper's template literal (src/mcp_omnifocus/utils/scripting.py:56) or is evaluated by it. The reader treats such text as outside what it reads; what the broken or evaluated program then does is not modelled. The template-literal reader in `Scripting` likewise leaves out escapes, `${...}` substitutions and carriage returns, which a template literal turns into line feeds.
- `update_task` and `create_task` return `formatTask(task)` (src/mcp_omnifocus/utils/omnifocus.py:353 and 503). `TaskUpdate.RunUpdateTask` and `TaskUpdate.CreatedTask` stop before that record. The fields they model (`TaskUpdate.TaskFields`: tag ids, project id, parsed dates) are not connected to what `Prelude.FormatTask` reads (`Prelude.TaskObject`: status, tag names, project name, date text), because that link goes through the OmniFocus runtime.
- `Listing.ListTasks` starts from the tasks of a project or tag that `Project.byIdentifier` or `Tag.byIdentifier` found. The lookup itself belongs to the OmniFocus runtime.
- `run_jxa_script` catches `Exception` only. A `KeyboardInterrupt` or another `BaseException` propagates unwrapped, and the model has no outcome for it.
- `textwrap.dedent`, `string.Template` and the text of the prelude itself are not modelled. Each generator is modelled by the placeholder values it substitutes. The placeholders are an enumeration, `Literals.Placeholder`, whose doc lists each one's name in the template.
- The other tools are not modelled: perspective switching, Forecast date arithmetic, `markComplete`, `drop`, project and tag listings, and MCP server registration. They are calls into the OmniFocus runtime or glue.
