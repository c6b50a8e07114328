# scancode.io pipeline engine, in Dafny

This project models the core of scancode.io's pipeline runner and its
command-line helpers, and proves properties of that model with the Dafny
verifier.

- **`pipelines.dfy` (module `Pipelines`)** covers `scanpipe/pipelines/__init__.py`:
  - the `group` decorator and `get_steps` group filtering;
  - `get_graph` and `get_available_groups`;
  - the timestamped `log`;
  - the fail-fast `execute` loop over a `Run` record;
  - the built-in `download_missing_inputs` step;
  - the recoverable-error path, `save_errors` and `add_error`.

  `Project`, `Run` and `Pipeline` are classes whose methods update their
  fields in place. The run's log only grows, and the run's `current_step`
  field is overwritten on each step. Each method is proved against
  specification functions:
  - `Raised` / `Recorded` for a step body;
  - `FirstFailure` for where execution stops;
  - `CompletedLog` / `StampAll` for the log;
  - `MissingInputErrors` / `MissingInputLog` for the input check.

  A step body is an `Action` tree: return, raise, `add_error`, `self.log`,
  a `save_errors` block, or a sequence of these. `@profile` wraps a body.
- **`commands.dfy` (module `Commands`)** covers `scanpipe/management/commands/__init__.py`:
  - the `path:tag` parsing of `--input-file`;
  - the `name:groups` parsing of `--pipeline`;
  - renaming and registry validation in `validate_pipelines`;
  - the status code and the report lines of the `status` command.
- **`fetch.py` logic (module `Fetch`)** covers `scanpipe/pipes/fetch.py`:
  - the choice of fetcher;
  - the `fetch_urls` loop, which sorts URLs into downloads and errors;
  - the status-code, file-name and exit-code decisions of `fetch_http` and
    `fetch_docker_image`.
- **`strings.dfy`, `dicts.dfy` and `wrappers.dfy`** hold the few Python
  `str`, `pathlib` and `dict` operations the core relies on, and
  `Option`/`Result`:
  - `split()`, `strip()`, `upper()`, `replace(p, "")`, `Path(p).name`;
  - `sorted` on strings;
  - an insertion-ordered dict.

Python dicts are association lists that keep insertion order. Order
matters here: `validate_pipelines` reports the first unknown name in dict
order, and a repeated key keeps its first position but takes its last
value.

## Model

| member | source | states |
|---|---|---|
| Pipelines.Group | scanpipe/pipelines/__init__.py:45-55 | `@group(*labels)`: the step with the given labels added to those it already has; a step without labels gets exactly the given ones. |
| Pipelines.GroupLabels | scanpipe/pipelines/__init__.py:45-55 | Tagging an untagged step sets exactly the given labels, and tagging a tagged one yields the union of old and new labels. Tagging twice with the same labels changes nothing, and nothing but the labels changes. |
| Pipelines.GetSteps | scanpipe/pipelines/__init__.py:89-99 | Without `groups` the declared steps come back unchanged and in order. |
| Pipelines.Selected | scanpipe/pipelines/__init__.py:95-96 | A step passes the group filter iff it has no labels or one of its labels is among the requested groups. |
| Pipelines.Filter | scanpipe/pipelines/__init__.py:91-97 | Keeps, in declared order, the steps without labels and those whose labels meet the requested groups. |
| Pipelines.FilterIsSubsequence | scanpipe/pipelines/__init__.py:91-97 | Filtering by groups only removes steps; the rest keep their declared order. |
| Pipelines.FilterKeepsExactlySelected | scanpipe/pipelines/__init__.py:91-97 | A step is kept, as many times as it was declared, iff it has no labels or its labels meet the requested groups; otherwise it is dropped. |
| Pipelines.GetStepsFilters | scanpipe/pipelines/__init__.py:89-99 | `get_steps(None)` gives the declared steps. `get_steps(G)` gives a subsequence of them that holds exactly the selected steps. |
| Pipelines.GetStepsExample | scanpipe/pipelines/__init__.py:91-97 | Steps `[A, B(x), C(y)]` filtered by `{x}` give `[A, B]`. |
| Pipelines.GetGraph | scanpipe/pipelines/__init__.py:106-116 | One entry per declared step, in order, with its name, doc and groups; no group filter applies. |
| Pipelines.AllGroups | scanpipe/pipelines/__init__.py:137-141 | The set of every label of every declared step. |
| Pipelines.GetAvailableGroups | scanpipe/pipelines/__init__.py:134-142 | Strictly sorted, so each label appears once. It holds exactly the labels of the declared steps. |
| Strings.Less | scanpipe/pipelines/__init__.py:136-142 | Python's `<` on strings: lexicographic by code point, with a proper prefix first. |
| Strings.SortedSet | scanpipe/pipelines/__init__.py:136-142 | `sorted(set(...))`: strictly increasing in code-point order, with the same elements and the same size as the set. |
| Strings.LessTotal | scanpipe/pipelines/__init__.py:136 | Python's string order is total. |
| Strings.LessTransitive | scanpipe/pipelines/__init__.py:136 | Python's string order is transitive. |
| Pipelines.StampAll | scanpipe/pipelines/__init__.py:144-150 | The lines that logging the messages one after another appends: each message behind the timestamp of its position. |
| Pipelines.StampAllSnoc | scanpipe/pipelines/__init__.py:144-150 | Logging one more message appends exactly its stamped line to the lines already logged. |
| Pipelines.StampAllAt | scanpipe/pipelines/__init__.py:144-150 | The i-th logged line is the i-th message behind the timestamp of its position. |
| Pipelines.StampMessage | scanpipe/pipelines/__init__.py:146-148 | A log line is the timestamp, one space, then the message, unchanged. |
| Pipelines.Stamp | scanpipe/pipelines/__init__.py:146-148 | A log line: the timestamp of its position in the log, one space, the message. |
| Pipelines.Pipeline.Log | scanpipe/pipelines/__init__.py:144-150 | The run's log grows by exactly one line, the stamped message; earlier lines and the current step are unchanged. |
| Pipelines.Run.AppendToLog | scanpipe/pipelines/__init__.py:150 | Appends one line to the run's log, leaving the current step alone. |
| Pipelines.Run.SetCurrentStep | scanpipe/pipelines/__init__.py:167 | Overwrites the current step, leaving the log alone. |
| Strings.NatToString | scanpipe/pipelines/__init__.py:167 | `str(i)` for a natural number: its decimal digits, at least one. |
| Pipelines.Progress | scanpipe/pipelines/__init__.py:167 | The current-step text `"i/N name"`. |
| Pipelines.PlanShape | scanpipe/pipelines/__init__.py:156-159 | With `download_inputs`, `download_missing_inputs` comes first and the filtered steps follow it in order. Group filtering never applies to that first task, and it appears nowhere else. |
| Pipelines.Declare | scanpipe/pipelines/__init__.py:156-159 | The filtered steps as tasks of the list `execute` walks through, in the same order. |
| Pipelines.TaskName | scanpipe/pipelines/__init__.py:165 | `step.__name__`: "download_missing_inputs" for the input check, the declared name otherwise. |
| Pipelines.Plan | scanpipe/pipelines/__init__.py:156-159 | The tasks `execute` runs: `download_missing_inputs` when the pipeline downloads its inputs, then the steps `get_steps` returns for the run's selected groups. |
| Pipelines.DeclaredBehind | scanpipe/pipelines/__init__.py:158-159 | Putting the download task in front shifts every filtered step by exactly one place. |
| Pipelines.TaskRaised | scanpipe/pipelines/__init__.py:171-173 | What `step(self)` raises: the input check's `InputFileError` when sources fail, or what a declared step's body lets escape. |
| Pipelines.TaskRecorded | scanpipe/pipelines/__init__.py:172 | The error records `step(self)` makes: none for the input check, those of a declared step's body otherwise. |
| Pipelines.RecordedUpTo | scanpipe/pipelines/__init__.py:164-172 | The error records of the first n tasks, one task's after another. |
| Pipelines.FirstFailureFrom | scanpipe/pipelines/__init__.py:164-176 | The index of the first task from position j on that raises, or the number of tasks when none does; it lies between j and the end. |
| Pipelines.FirstFailure | scanpipe/pipelines/__init__.py:164-176 | Where the loop of `execute` stops: the first task that raises, or the number of tasks when every task returns. |
| Pipelines.FirstFailureIff | scanpipe/pipelines/__init__.py:164-176 | Execution stops at task k iff no earlier task raises and task k raises, or k is the end of the list. |
| Pipelines.FirstFailureFromIsFirst | scanpipe/pipelines/__init__.py:164-176 | Every task before the stopping point returns normally, and the task at the stopping point raises. |
| Pipelines.FirstFailureStep | scanpipe/pipelines/__init__.py:171-176 | Walking the tasks in order, a task raises iff it is the one execution stops at. |
| Pipelines.PipelineStarting | scanpipe/pipelines/__init__.py:154 | The first line of a run: `"Pipeline [<name>] starting"`. |
| Pipelines.StepStarting | scanpipe/pipelines/__init__.py:168 | The line before a task: `"Step [<task name>] starting"`. |
| Pipelines.StepCompleted | scanpipe/pipelines/__init__.py:179 | The line after a task that returned: `"Step [<task name>] completed in <time>"`. |
| Pipelines.PipelineCompleted | scanpipe/pipelines/__init__.py:183 | The last line of a run whose tasks all returned: `"Pipeline completed in <time>"`. |
| Pipelines.TaskLog | scanpipe/pipelines/__init__.py:172 | What a task logs of its own while `step(self)` runs: the per-source lines of the input check, or the messages a declared step's body passes to `self.log`. |
| Pipelines.StepLog | scanpipe/pipelines/__init__.py:167-179 | The messages of one turn of the loop: the start line, the task's own messages, then `"Pipeline failed"` (the constant `PipelineFailed`, line 174) when the task raises, or else the completion line with the task's run time. |
| Pipelines.CompletedLog | scanpipe/pipelines/__init__.py:164-179 | The messages of the first n turns of the loop, one task's messages after another. |
| Pipelines.StepLogShape | scanpipe/pipelines/__init__.py:167-179 | A task logs its start, then its own output. It then logs its completion time iff it returned normally, and "Pipeline failed" when it raised. |
| Pipelines.FailedLogEnds | scanpipe/pipelines/__init__.py:171-176 | When task k raises, the last message logged is "Pipeline failed". |
| Pipelines.CompletedLogLength | scanpipe/pipelines/__init__.py:164-179 | n tasks log 2n lines of their own, besides what the tasks themselves log. |
| Pipelines.SuccessLogLength | scanpipe/pipelines/__init__.py:154-183 | A run of N tasks that all return normally writes 2N+2 engine lines, besides the tasks' own output. |
| Pipelines.QuietTasksLogNothing | scanpipe/pipelines/__init__.py:152-196 | When no declared step calls `self.log` (no step is profiled, for one) and every input is on disk, the tasks log nothing of their own, so a successful run logs exactly 2N+2 lines. |
| Pipelines.FailureMessageHeader | scanpipe/pipelines/__init__.py:175-176 | The failure message starts with the exception's text followed by `"\n\nTraceback:\n"`. |
| Pipelines.FailureMessage | scanpipe/pipelines/__init__.py:175-176 | The failure result's message: `str(e)`, `"\n\nTraceback:\n"`, then the formatted traceback. |
| Pipelines.Text | scanpipe/pipelines/__init__.py:176 | `str(e)`: the text of an exception; that of an `InputFileError` is the printed list of the errors it collected. |
| Pipelines.Reprs | scanpipe/pipelines/__init__.py:211-212 | The `repr()` of each collected error, in order, as they appear inside the printed list. |
| Pipelines.InputErrorRepr | scanpipe/pipelines/__init__.py:209-212 | `repr()` of a collected error: a quoted message for an unavailable upload, the given `repr` of the exception for a failed fetch. |
| Pipelines.Pipeline.RunStep | scanpipe/pipelines/__init__.py:165-179 | One turn of the loop sets the current step to `"i/N name"`, runs the task, and logs its start, output and completion or failure. The task is recorded as run once, and the records it made are appended. |
| Pipelines.Pipeline.Advance | scanpipe/pipelines/__init__.py:164-179 | Running task i extends the log, the run tasks and the records from covering i tasks to covering i+1. Task i raises iff it is the first failure. |
| Pipelines.Pipeline.RunPlan | scanpipe/pipelines/__init__.py:164-179 | The loop stops exactly at the first task that raises; later tasks never run. The log, the run tasks and the records cover exactly the tasks up to that one. |
| Pipelines.Pipeline.Execute | scanpipe/pipelines/__init__.py:152-185 | When every task returns, the result is `(0, "")`, the current step is cleared, every task ran once in order, and the log is start + task logs + completion. When task k raises, the result is `(1, text + traceback)`, the current step stays `"k/N name"`, only tasks 1..k ran, and the log ends with that task's failure. |
| Pipelines.ExecuteStopsAtFailingStep | scanpipe/pipelines/__init__.py:164-176 | With steps `[A, B, C]` where B raises `ValueError("bad")`, execution stops at B. The message starts with "bad" and the traceback header, and only A's records are made. |
| Pipelines.SavedErrorDoesNotStopExecution | scanpipe/pipelines/__init__.py:218-232 | A step whose exception is caught by `save_errors` lets execution finish and adds exactly one record. |
| Pipelines.UnavailableMessage | scanpipe/pipelines/__init__.py:199 | `f"Uploaded file {input_source} not available."` |
| Pipelines.FetchingMessage | scanpipe/pipelines/__init__.py:204 | `f"Fetching input from {download_url}"` |
| Pipelines.FetchFailedMessage | scanpipe/pipelines/__init__.py:208 | `f"{download_url} could not be fetched."` |
| Pipelines.Fails | scanpipe/pipelines/__init__.py:195-209 | A source makes the input check fail iff it is missing on disk and either uploaded or its fetch raises. |
| Pipelines.SourceErrors | scanpipe/pipelines/__init__.py:195-209 | The errors one source adds: none when on disk; the "not available" message when uploaded; the raised exception when its fetch raises; none when the fetch returns. |
| Pipelines.SourceLog | scanpipe/pipelines/__init__.py:195-208 | The lines one source logs: none when on disk; the "not available" message when uploaded; otherwise `"Fetching input from <url>"`, followed by `"<url> could not be fetched."` when the fetch raises. |
| Pipelines.DownloadOutcome | scanpipe/pipelines/__init__.py:211-212 | `InputFileError` carrying the collected errors when there are any; otherwise nothing is raised. |
| Pipelines.Failing | scanpipe/pipelines/__init__.py:194-209 | The failing sources, in order: those missing on disk that were uploaded or whose fetch raised. |
| Pipelines.MissingInputErrors | scanpipe/pipelines/__init__.py:194-209 | The errors collected over the sources, in order: one message per missing upload, the exception of each missing source whose fetch raised. |
| Pipelines.MissingInputLog | scanpipe/pipelines/__init__.py:194-208 | The lines logged over the sources, in order: the unavailable-upload message, or the fetching line followed by the failure line when the fetch raised. |
| Pipelines.OneErrorPerFailingSource | scanpipe/pipelines/__init__.py:194-209 | Exactly one error per failing source, in the order of the sources. |
| Pipelines.MissingInputsCompose | scanpipe/pipelines/__init__.py:194-209 | No source stops the loop: the errors and the log for two lists of sources are those of each list, one after the other. |
| Pipelines.PresentSourcesAreSkipped | scanpipe/pipelines/__init__.py:195-196 | Sources present on disk add neither errors nor log lines. |
| Pipelines.DownloadFailsIff | scanpipe/pipelines/__init__.py:211-212 | `InputFileError` is raised iff some source is missing and either uploaded or failing to fetch. |
| Pipelines.Pipeline.CheckSource | scanpipe/pipelines/__init__.py:195-209 | For one source: skipped when on disk. When uploaded, one log line and one error. Otherwise a fetch line, plus a failure line and one error when the fetch raises. |
| Pipelines.Pipeline.DownloadMissingInputs | scanpipe/pipelines/__init__.py:187-212 | Every source is checked without stopping. The log grows by the per-source lines, and `InputFileError` with the collected errors is raised iff there are any. |
| Pipelines.Pipeline.RunTask | scanpipe/pipelines/__init__.py:172 | `step(self)`: running a task raises, logs and records exactly what that task's specification gives. |
| Pipelines.Records | scanpipe/pipelines/__init__.py:214-216 | One `ProjectMessage` record per error, in order, each carrying the pipeline's name as its model. |
| Pipelines.Project.AddError | scanpipe/pipelines/__init__.py:216 | Appends exactly one error record with the given model name and exception. |
| Pipelines.Pipeline.AddError | scanpipe/pipelines/__init__.py:214-216 | Appends exactly one record carrying the pipeline's name and the exception. |
| Pipelines.Kind | scanpipe/pipelines/__init__.py:229-231 | The class name an `except` clause of `save_errors` compares against. |
| Pipelines.Raises | scanpipe/pipelines/__init__.py:218-232 | Every exception a step body contains a `raise` of. |
| Pipelines.Guards | scanpipe/pipelines/__init__.py:218-232 | The kind lists of the `save_errors` blocks an escaping exception passes through on its way out. |
| Pipelines.SaveErrorsCatches | scanpipe/pipelines/__init__.py:229-232 | An exception of a listed kind is caught: the block returns normally and adds exactly one record carrying that exception. |
| Pipelines.SaveErrorsPassesOthers | scanpipe/pipelines/__init__.py:229-232 | An exception of any other kind propagates unchanged and adds no record. |
| Pipelines.SaveErrorsNest | scanpipe/pipelines/__init__.py:218-232 | Two nested blocks behave as one block that lists the kinds of both. |
| Pipelines.RaisedIsUncaught | scanpipe/pipelines/__init__.py:218-232 | An exception that escapes a step body was raised in it and caught by none of the `save_errors` blocks around it. |
| Pipelines.Raised | scanpipe/pipelines/__init__.py:171-173 | The exception that escapes a step body: a `raise` not caught by an enclosing `save_errors` block listing its kind; the rest of a sequence does not run after it. |
| Pipelines.Recorded | scanpipe/pipelines/__init__.py:214-232 | The `add_error` records a step body makes, in order, plus one for each exception a `save_errors` block catches; nothing after an escaping exception. |
| Pipelines.Logged | scanpipe/pipelines/__init__.py:144-150 | The messages a step body passes to `self.log`, in order, up to an escaping exception. |
| Pipelines.Profile | scanpipe/pipelines/__init__.py:272-298 | `@profile`: the body runs, then "Profiling results at <file>" is logged. |
| Pipelines.ProfileKeepsBody | scanpipe/pipelines/__init__.py:283-296 | A profiled step raises and records what its body does, and logs the profiling line after the body exactly when the body returns normally. |
| Pipelines.Pipeline.Perform | scanpipe/pipelines/__init__.py:171-172 | Running a step body raises exactly what `Raised` gives, appends exactly the records `Recorded` lists, and logs exactly the messages `Logged` lists, stamped in order. |
| Commands.SplitTag | scanpipe/management/commands/__init__.py:190-195 | A file holding ":" splits into the text before its first colon, which is colon-free, and the rest; the two rejoin to the input. A file without ":" maps to the empty tag. |
| Commands.SplitTagOf | scanpipe/management/commands/__init__.py:191-193 | `key:tag` with a colon-free key parses back to `(key, tag)`, even when the tag holds colons. |
| Commands.ExtractTagFromInputFiles | scanpipe/management/commands/__init__.py:183-196 | The loop builds the dict that assigning each file's `(key, tag)` in order produces. |
| Commands.ExtractedTagKeys | scanpipe/management/commands/__init__.py:189-196 | The keys are exactly the keys of the given files, for any list of files, the empty one included. |
| Commands.ExtractedTags | scanpipe/management/commands/__init__.py:189-196 | A key that no later file repeats holds the tag of its file: the last assignment of a key wins. |
| Dicts.FromPairsKeys | scanpipe/management/commands/__init__.py:189-196 | Assigning pairs in order yields exactly the keys that occur among them. |
| Dicts.FromPairsLastWins | scanpipe/management/commands/__init__.py:268-272 | For a repeated key the value of its last assignment wins. |
| Dicts.Put | scanpipe/management/commands/__init__.py:271 | `d[k] = v`: a new key goes at the end and a present key keeps its place; `k` then maps to `v` and every other key is unchanged. |
| Dicts.FromPairs | scanpipe/management/commands/__init__.py:268-272 | A dict built by assignments never holds a key twice. |
| Commands.ExtractGroupFromPipelines | scanpipe/management/commands/__init__.py:262-272 | The loop builds the dict that assigning each pipeline's `(name, groups)` in order produces. |
| Commands.ExtractedGroupKeys | scanpipe/management/commands/__init__.py:268-272 | The keys are exactly the pipeline names of the arguments, for any list of arguments. |
| Commands.ExtractedGroups | scanpipe/management/commands/__init__.py:268-272 | A pipeline name that no later argument repeats holds the groups of that argument: the last mention wins. |
| Commands.RenameEntry | scanpipe/management/commands/__init__.py:278-281 | One item of the comprehension: the new name of the key, with its groups. |
| Commands.Renamed | scanpipe/management/commands/__init__.py:278-281 | The dict comprehension that renames every key with `get_new_pipeline_name`, keeping its groups. |
| Commands.ValidatePipelines | scanpipe/management/commands/__init__.py:275-290 | Success returns the renamed dict, and every renamed name is registered. Failure names the first renamed name, in dict order, missing from the registry, with the list of available names. |
| Strings.Join | scanpipe/management/commands/__init__.py:287 | `sep.join(parts)`: the parts in order, with `sep` between consecutive ones; "" for no parts. |
| Commands.NotValidMessage | scanpipe/management/commands/__init__.py:285-288 | The `CommandError` text: the name, " is not a valid pipeline. \n", then "Available: " and the registered names joined by ", ". |
| Commands.RenamedKeys | scanpipe/management/commands/__init__.py:278-281 | The renamed dict's keys are exactly the new names of the given pipelines. |
| Commands.RenamedKeepsGroups | scanpipe/management/commands/__init__.py:278-281 | Renaming keeps each pipeline's groups; the last one wins when two old names map to one new name. |
| Commands.Marked | scanpipe/management/commands/__init__.py:67-73 | Which branch of `get_run_status_code` a status takes: success, one of failure, stopped and stale, or neither. |
| Commands.GetRunStatusCode | scanpipe/management/commands/__init__.py:63-73 | Success is shown in the success style, and failure, stopped and stale in the error style. Any other status is upper-cased and unstyled. |
| Commands.StatusCodeText | scanpipe/management/commands/__init__.py:63-73 | Without colours the code is the upper-cased status, which upper-casing again leaves unchanged. |
| Strings.Upper | scanpipe/management/commands/__init__.py:68-73 | `upper()` keeps the length and maps each character to its upper case. |
| Commands.Truthy | scanpipe/management/commands/__init__.py:84 | `if execution_time:`: the time is present and not zero. |
| Commands.ExecutedIn | scanpipe/management/commands/__init__.py:85 | `f" (executed in {execution_time} seconds)"` |
| Commands.ExecutedSuffix | scanpipe/management/commands/__init__.py:83-85 | The "executed in" suffix is present exactly when the execution time is truthy. |
| Commands.RunHead | scanpipe/management/commands/__init__.py:81-82 | A run's line before any suffix: `" [<status code>] <pipeline name>"`. |
| Commands.RunLine | scanpipe/management/commands/__init__.py:81-86 | A run's line: its head, followed by the executed-in suffix when the time is truthy. |
| Commands.Indented | scanpipe/management/commands/__init__.py:88-89 | Each log line behind three spaces, in order. |
| Commands.RunBlock | scanpipe/management/commands/__init__.py:81-89 | The lines one run adds: its line, then each of its log lines indented by three spaces. |
| Commands.RunBlocks | scanpipe/management/commands/__init__.py:80-89 | The lines of the runs, one run's block after another, in the order of the runs. |
| Commands.RunStatusMessages | scanpipe/management/commands/__init__.py:75-91 | No runs give no lines; otherwise the report starts with the header. |
| Commands.RunStatusLine | scanpipe/management/commands/__init__.py:78-86 | The report opens with the header, and each run's line sits at its offset, in run order. |
| Commands.RunStatusLog | scanpipe/management/commands/__init__.py:87-89 | The j-th log line of run i, indented by exactly three spaces, sits j+1 lines after that run's line. |
| Commands.RunBlocksAppend | scanpipe/management/commands/__init__.py:78-89 | The runs are reported independently: the lines for two lists of runs are those of each list, one after the other. |
| Commands.GetRunStatusMessages | scanpipe/management/commands/__init__.py:75-91 | The loop produces exactly the report `RunStatusMessages` describes. |
| Commands.AppendIndented | scanpipe/management/commands/__init__.py:87-89 | The log loop appends each log line, indented by three spaces, in order. |
| Commands.InputHead | scanpipe/management/commands/__init__.py:110 | `f" - {filename} "`, with a missing filename shown as "". |
| Commands.DownloadTag | scanpipe/management/commands/__init__.py:114 | `f"[download_url={download_url}]"`, with a missing URL shown as `None`. |
| Commands.DiskNote | scanpipe/management/commands/__init__.py:115-116 | `" NOT ON DISK"` in the error style unless `exists` is true; nothing otherwise. |
| Commands.SourceTag | scanpipe/management/commands/__init__.py:111-114 | `"[source=uploaded]"` when `is_uploaded` is true; otherwise `"[download_url=<url>]"`, with a missing URL shown as `None`. |
| Commands.InputLine | scanpipe/management/commands/__init__.py:110-116 | One input's line: `" - <filename> "`, then its source tag, then `" NOT ON DISK"` in the error style unless the file is known to exist. |
| Commands.InputLineSource | scanpipe/management/commands/__init__.py:109-114 | Right after `" - <filename> "` the line reads `[source=uploaded]` iff the input was uploaded; otherwise it reads `[download_url=...]`. |
| Commands.InputLineOnDisk | scanpipe/management/commands/__init__.py:115-116 | Without colours a line ends with " NOT ON DISK" iff the input is not known to exist. |
| Commands.InputMessages | scanpipe/management/commands/__init__.py:106-117 | No inputs give no lines; otherwise a header and then one line per input. |
| Commands.InputMessagesAt | scanpipe/management/commands/__init__.py:107-117 | Line i+1 describes input i. |
| Commands.GetInputMessages | scanpipe/management/commands/__init__.py:106-117 | The loop produces exactly the lines `InputMessages` describes. |
| Fetch.GetFetcher | scanpipe/pipes/fetch.py:141-144 | The docker fetcher iff the URL starts with `docker://`, else the HTTP fetcher. |
| Fetch.FetcherByScheme | scanpipe/pipes/fetch.py:141-144 | `docker://name` goes to skopeo, and an `http` URL goes to requests. |
| Fetch.UrlsOf | scanpipe/pipes/fetch.py:156-157 | The URLs the loop visits: the list as given, or `[url.strip() for url in urls.split()]` for a string. |
| Fetch.UrlTextSplit | scanpipe/pipes/fetch.py:156-157 | A string argument yields exactly its whitespace-split pieces, each non-empty and free of whitespace; `strip()` changes none of them. |
| Strings.SplitGivesWords | scanpipe/pipes/fetch.py:157 | Each piece of `split()` is non-empty and holds no whitespace. |
| Strings.SplitJoin | scanpipe/pipes/fetch.py:157 | Splitting words joined by single spaces gives the words back. |
| Strings.Strip | scanpipe/pipes/fetch.py:157 | `strip()`: the text without its leading and trailing whitespace. |
| Strings.StripWord | scanpipe/pipes/fetch.py:157 | `strip()` leaves a piece of `split()` unchanged. |
| Strings.IsSpace | scanpipe/pipes/fetch.py:157 | The characters that `str.split()` and `str.strip()` treat as whitespace. |
| Strings.Split | scanpipe/pipes/fetch.py:157 | `str.split()`: the maximal runs of non-whitespace characters, in order. |
| Fetch.Downloaded | scanpipe/pipes/fetch.py:159-167 | The results of the URLs whose fetch returns, in the order of the URLs. |
| Fetch.Failed | scanpipe/pipes/fetch.py:159-167 | The URLs whose fetch raises, in order. |
| Fetch.FetchUrls | scanpipe/pipes/fetch.py:147-169 | The loop's downloads and errors are exactly `Downloaded` and `Failed` of the URLs visited. |
| Fetch.FetchPartition | scanpipe/pipes/fetch.py:159-169 | Every URL lands in exactly one of the two lists, so their lengths add up to the number of URLs. |
| Fetch.FailedIff | scanpipe/pipes/fetch.py:162-165 | A URL is listed as an error iff its fetch raised. |
| Fetch.DownloadedIff | scanpipe/pipes/fetch.py:162-167 | A download is listed iff some URL's fetch returned it. |
| Fetch.DownloadDirectory | scanpipe/pipes/fetch.py:61 | `to or tempfile.mkdtemp()`: `to` unless it is missing or empty. |
| Fetch.HttpFilename | scanpipe/pipes/fetch.py:53-59 | The non-empty `filename` parameter of the content-disposition header, else the name of the response URL's path. |
| Fetch.DenotesDirectory | scanpipe/pipes/fetch.py:61-66 | A file name that, joined under the download directory, names a directory rather than a file: each of its slash-separated pieces is "", "." or "..". Opening such a path for writing raises `IsADirectoryError`. |
| Fetch.FetchHttpResult | scanpipe/pipes/fetch.py:44-78 | It fails with `RequestException` iff the status is not 200. With status 200 it fails with `IsADirectoryError` iff the file name denotes the download directory or an ancestor (every piece "", "." or ".."). Otherwise the download holds the URI, `to` or the fresh temp dir, the file name and the body's size. |
| Fetch.PlainNameDenotesDirectory | scanpipe/pipes/fetch.py:62-65 | A slash-free name makes `Path(directory, name)` a directory iff it is "", "." or "..". |
| Fetch.PlainNameIsSaved | scanpipe/pipes/fetch.py:59-78 | With status 200, a plain file name other than ".." is saved under that name. |
| Fetch.UrlNameFails | scanpipe/pipes/fetch.py:53-65 | With status 200 and no usable header, the fetch fails iff the URL path's name is "" or "..". |
| Fetch.RootUrlFails | scanpipe/pipes/fetch.py:59-65 | `https://example.org/` answered 200 without a header gives the name "", and writing to the directory fails. |
| Fetch.HttpFilenameFromUrl | scanpipe/pipes/fetch.py:53-59 | Without a usable `filename` parameter, a response URL path `dir/name` saves as `name`. |
| Fetch.HttpFilenameIsPlain | scanpipe/pipes/fetch.py:56-59 | A name taken from the URL is empty or holds no slash and is never "."; it may still be "..". |
| Strings.PathNameOfJoin | scanpipe/pipes/fetch.py:59 | `Path(dir + "/" + name).name` is `name`. |
| Strings.PathNameIsFileName | scanpipe/pipes/fetch.py:59 | `Path(p).name` is empty or a plain file name. |
| Strings.PathName | scanpipe/pipes/fetch.py:59 | `Path(p).name`: the last component once empty and "." pieces are dropped, or "" when there is none. |
| Fetch.FetchDockerImageResult | scanpipe/pipes/fetch.py:101-138 | It fails with `FetchDockerImageError(output)` iff the exit code is non-zero. Otherwise the download is named `safe_name(name).tar` in `to` or the temp dir. |
| Fetch.ImageNameOfReference | scanpipe/pipes/fetch.py:109 | The image name of `docker://name` is `name` when `name` holds no further prefix. |
| Strings.RemoveAll | scanpipe/pipes/fetch.py:109 | `replace(p, "")`: every occurrence of `p`, found left to right without overlap, is removed. |
| Strings.RemoveAllAbsent | scanpipe/pipes/fetch.py:109 | `replace(p, "")` leaves a string without `p` unchanged. |
| Fetch.DockerFilenameIsTar | scanpipe/pipes/fetch.py:111-112 | The archive's file name always ends in `.tar`. |
| Fetch.ImageName | scanpipe/pipes/fetch.py:109 | `docker_reference.replace("docker://", "")`: every occurrence of the prefix is removed. |
| Fetch.DockerFilename | scanpipe/pipes/fetch.py:111-112 | `f"{python_safe_name(name)}.tar"` for the image name. |

## Left out

- Django ORM persistence (`inputsources.all()`, `ProjectMessage`, `Run`
  fields): these are class fields and sequences. `models.py` is not part of
  this model.
- `Run.Status` values: `StatusChoices` supplies them.
- Wall-clock time: the timestamp format, `timer()` and `humanize_time` are
  parameters of `Pipeline`:
  - `clock(n)` gives the timestamp of the n-th log line;
  - `stepTime(i)` and `pipelineTime` give the humanized durations.
- Traceback formatting, `traceback.format_tb`: an opaque `traceback` function.
- `logger.info` output: it is not part of the run's state.
- `is_pipeline`, `get_info`/`get_summary` docstring splitting, and the
  bodies of the pipeline steps are not modelled. A step body is the
  observable `Action` tree.
- Pipelines.Profile: the profiler and the HTML report it writes are not
  modelled. The report's resolved path is a parameter, and writing the
  report is taken not to raise.
- Exceptions outside `Exception`: `except Exception` in `execute`,
  `download_missing_inputs` and `fetch_urls` does not catch a
  `BaseException` such as `KeyboardInterrupt` or `SystemExit`, which would
  end the run with no "Pipeline failed" line and no result. Every exception
  of the model is an `Exception`.
- Pipelines.Pipeline.Execute: `get_steps` is called before the `try` of
  the loop, so its errors escape `execute` with no "Pipeline failed" line
  and no `(1, message)` result. This covers the `TypeError` for a `steps`
  that is not callable and the `NotImplementedError` of the base `steps()`.
  The model takes the declared steps as given and does not model these
  errors.
- Exception class hierarchies: `save_errors` matches an exception by its
  class name only, not by subclassing.
- Pipelines.Group: models `@group` as a pure update of a step record. It does
  not model the in-place attribute change on the shared function object, so
  it does not model aliasing.
- `str(input_source)` and the input source's `fetch()`: the text and the
  outcome are fields of `InputSource`.
- Pipelines.InputErrorRepr: Python's `repr` is computed for an
  uploaded-file message only, and only for a message without quotes,
  backslashes or control characters. Such a message is put in single quotes
  as it is; Python would switch the quoting or escape those characters. The
  `repr` of an exception a fetch raised is given with the input source
  (`fetchErrorRepr`), because it depends on the exception's class and
  arguments: `RequestException()`, `IsADirectoryError(21, 'Is a directory')`.
- Commands.RunStatusMessages: a run's log is given as its list of lines.
  `rstrip("\n").splitlines()` is not modelled.
- Commands.RunStatusMessages: the execution time is a whole number of seconds.
- Strings.Upper: only upper-cases the ASCII letters, not the full Unicode
  case mapping.
- The per-model count lines of `get_queryset_objects_messages` are not
  modelled: they come from database queries. Only the input lines are
  modelled.
- `scanpipe_app.extract_group_from_pipeline`, `get_new_pipeline_name`,
  `python_safe_name` and the pipeline registry are parameters. Their code is
  not part of this model.
- Network and process I/O are given as abstract results:
  - `requests.get`: a `Response` holding the status, the parsed `filename`
    parameter, the URL path and the body size;
  - `cgi.parse_header` and `urlparse`: their results are `Response` fields;
  - skopeo and `run_command`: an exit code and output.
- Checksums, the output path, the skopeo command line and
  `get_skopeo_location` are not modelled.
- Fetch.FetchHttpResult: the exceptions are only identified by their
  kinds, `RequestException` and `IsADirectoryError`.
- Fetch.FetchHttpResult: the file system is not modelled. The download
  directory is taken to exist. An `open` that fails for another reason is
  not a failure of the model: a `filename` parameter whose directory part is
  missing, a name that is an existing sub-directory of `to`, or a
  permission error.
- Fetch.FetchUrls: the fetchers are one function that returns a download or
  an error, and the exception's value is not kept.
- Fetch.ImageName: `replace("docker://", "")` removes every occurrence, as
  Python does. The lemma about it covers references with a single prefix.
- The helper methods are loop or branch bodies of the source, split out to
  keep each proof small: `Pipeline.CheckSource`, `Pipeline.RunStep`,
  `Pipeline.Advance`, `Pipeline.RunPlan` and `Commands.AppendIndented`.
