# ecsta in Dafny

ecsta is a command-line companion for Amazon ECS. It lists and selects tasks, follows
their CloudWatch logs, keeps an interactive console with a selected cluster and task,
and copies files to and from a container. For the copy it boots a small agent in the
container, port-forwards to it and streams the file. This project models the
program's decision-making and proves properties of it:

- `cp.dfy`: the remote copy.
  - parsing `host:path` arguments;
  - choosing the direction and expanding a directory destination;
  - choosing the agent build by CPU architecture and rendering the boot script;
  - the readiness scanner and the dial retry loop;
  - the transfer edge rules;
  - `RunCp` as a sequential trace of steps.
- `utils.go`'s helpers (`utils.dfy`): optional strings, ARN to name, and the SSM target.
- `ecsta.dfy`: task listing.
  - the `ListTasks` page iterator;
  - the RUNNING/STOPPED passes over one or two queries;
  - the AND tag filter and de-duplication by ARN;
  - `findTask`, `findContainerName` and `SetCluster`.
- `format.dfy`: the task formatter choice, the task columns and the TSV formatter.
- `console.dfy`: the console's state, its prompt, command routing, and cluster and task selection.
- `filter.dfy`: the built-in line chooser and the dispatch to an external filter command.
- `config.dfy`: the three-field configuration record, its defaults and its command-line overrides.
- `logs.dfy`: logs.
  - the time window and the millisecond conversions, with Go's `int64` wrap-around;
  - the selection of containers to follow;
  - the text encoder;
  - the `GetLogEvents` paging loop and its stop rules.
- `strs.dfy`, `wrappers.dfy`, `ecs_types.dfy`:
  - the parts of Go's `strings` and `path/filepath` that the program uses;
  - `Option`/`Result`;
  - the ECS record shapes.

Every AWS call, every user prompt, the clock and file or network I/O are turned into
input values. Examples are a `Result` with the call's answer, a sequence of prompt
answers, and a sequence of dial outcomes. An error is a string, and a wrapped error
is its prefix followed by the cause.

## Model

| member | source | states |
|---|---|---|
| Cp.CpOption.constructor | cp.go:23-33 | the copy options are stored as given |
| Cp.ParseCpTarget | cp.go:43-49 | the split is at the first ':' (the host holds none, and host + ":" + path is the argument); an argument without ':' is a local path with an empty host |
| Cp.ParseCpTargetRoundTrip | cp.go:43-49 | parsing host:path gives back a host without ':' and any path, which may hold further colons |
| Cp.ExpandDest | cp.go:115-117 | a destination ending in "/" gets the source's base name appended; any other destination is kept |
| Cp.ExpandDestKeepsName | cp.go:115-117 | an expanded destination's base name is the source's base name |
| Cp.PlanCp | cp.go:113-140 | two local paths and two remote ones are refused with the source's messages; a remote destination means upload (local = source, remote = expanded destination), a remote source means download (local = expanded destination, remote = source); the host "_" names no task |
| Cp.CpuArchitecture | cp.go:152-157 | the value of the first `ecs.cpu-architecture` attribute, or "" when there is none |
| Cp.PrepareCp | cp.go:109-166 | a bad pair of arguments fails before the cluster or the task ID is touched; a host other than "_" becomes the task ID; a failed or empty cluster choice is returned as `SetCluster` gives it; a failed task lookup is wrapped as "failed to select tasks: " and a failed container choice as "failed to select containers: ", and otherwise the copy is prepared; a prepared copy has a selected cluster, the task findTask returns among non-STOPPED tasks, its first architecture attribute or "" without one, the container findContainerName gives, the option's port, and the planned direction and files |
| Cp.AgentArch | cp.go:88-98 | the ARM build exactly when the architecture is "arm64" in any letter case; anything else gets the x86-64 build, and this choice never fails |
| Cp.MissingArchIsX86 | cp.go:85-98 | a copy whose task has no architecture attribute ("") gets the x86-64 build, and its boot script decodes the x86-64 payload |
| Cp.ArchIgnoresCase | cp.go:90 | every spelling of "arm64" in upper or lower case letters selects the ARM build |
| Cp.BootAgentShape | cp.go:57-107 | the script opens by decoding the payload of the build chosen for the task's architecture into /tmp/tncl, and closes with the launch line and the end of the quoted command |
| Cp.BootAgentMakesExecutable | cp.go:57-63 | the line just before the launch line makes /tmp/tncl executable, after a blank line that follows the decoded payload |
| Cp.BootAgent | cp.go:57-107 | the boot script from the template; `BootAgentShape`, `BootAgentLaunches`, `LaunchLineRoundTrip` and `MissingArchIsX86` state what it holds |
| Cp.RedirectRoundTrip | cp.go:61-63 | the redirection can be read back: '>' exactly when uploading, '<' otherwise, and the quoted file |
| Cp.LaunchLineRoundTrip | cp.go:61-63 | the launch line can be read back: the port, '>' exactly when uploading, and the remote file |
| Cp.LaunchLineOneLine | cp.go:61-63 | the launch line is one line when the file name has no newline |
| Cp.BootAgentLaunches | cp.go:85-107 | the rendered script's last line launches the agent on the copy's port, in the copy's direction, on the remote file |
| Cp.ScanReadiness | cp.go:205-218 | `ready` is closed at most once, at the first line containing "listening on port", and only when some line contains it |
| Cp.Retries | cp.go:299-303 | every failed dial is followed by a one-second sleep |
| Cp.RetriesOnlyDial | cp.go:299-303 | the retry rounds before a successful dial hold failed dials and sleeps only |
| Cp.NewNcClient | cp.go:293-307 | the dial succeeds at the first successful attempt after as many dial-and-sleep rounds as failures before it; with no success it is still dialling |
| Cp.SendFile | cp.go:309-339 | stat and open failures are returned wrapped and at once; an empty file gives the progress bar the total -1, any other file its size; a copy failure is wrapped as "failed to send: " |
| Cp.ReceiveFile | cp.go:341-367 | "-" writes to stdout and creates no file; a create failure is wrapped and returned; the bar's total is unknown (-1); a copy failure is wrapped as "failed to receive: " |
| Cp.RunSession | cp.go:174-281 | the agent boots first. If it prints no ready line and stops, the result is "agent stopped" after a cancel, with no port-forward and no dial; if it neither prints the line nor stops, the session waits on it after the boot alone. Readiness starts the port-forward on the copy's port at both ends. With a successful dial and an agent that never returns, the session closes the client and then waits on the agent. `succeeded` holds only after a clean transfer, and the session returns success exactly when it succeeded and the agent returns. A returned session ends with the client closing, then waiting for the agent, cancelling and waiting for the port-forward. |
| Cp.ConnectAndTransfer | cp.go:251-281 | after readiness, dialling goes on exactly when every dial fails; once connected, the session waits on the agent after closing the client exactly when the agent never returns; `succeeded` holds exactly when connected and the transfer succeeded, and the success mark is then among the steps; success is returned exactly when it succeeded and the agent returns; a returned session returns the transfer's result and ends with the four teardown steps; the agent never stops in this phase |
| Cp.RunCp | cp.go:168-282 | a bad pair of arguments, or any failed preparation, returns its error with nothing started; a prepared copy has a cluster, the option's port and the planned files, boots the agent first, fails with "agent stopped" when the agent stops without a ready line, starts the port-forward after readiness, and a returned session returns the transfer's result; success is returned exactly when the copy succeeded and the agent returns, and success implies the success mark |
| Utils.Optional | utils.go:12-17 | nil exactly for "", otherwise a pointer to the string itself |
| Utils.ArnToName | utils.go:27-30 | the suffix after the last '/', holding no '/'; the whole string when it has none |
| Utils.ArnToNameOfPath | utils.go:27-30 | the name after a final slash is given back |
| Utils.RuntimeIdOfLastMatch | utils.go:45-50 | the runtime ID is that of the last container with the target name, or "" when none has it |
| Utils.RuntimeIdOf | utils.go:45-50 | the runtime ID of the last container with the target name, or ""; `RuntimeIdOfLastMatch` states it |
| Utils.BuildSsmRequestParameters | utils.go:41-54 | the target is "ecs:" + cluster + "_" + task ID + "_" + runtime ID, the two being the second and third '/'-separated parts of the ARN; the error is always nil |
| Ecsta.App.constructor | ecsta.go:37-59 | the application starts with the given cluster |
| Ecsta.App.SetCluster | ecsta.go:285-297 | a cluster already set is kept; otherwise a failed or empty choice is an error and leaves none, and a non-empty choice is set; success exactly when a cluster is set afterwards |
| Ecsta.RunPass | ecsta.go:83-97 | one pass consumes a prefix of the page answers and of the describe answers |
| Ecsta.RunPassStarts | ecsta.go:83-97 | the first request is the pass's input, every page is requested when any answer exists, and only non-empty pages are described |
| Ecsta.RunPassCarriesToken | ecsta.go:87-95 | each later request is the previous one with the previous page's token |
| Ecsta.RunPassEnds | ecsta.go:83-136 | the struct a finished pass leaves behind is its last request; a pass that ends on its last page ends on an answer without a token, and one that ends on a ListTasks error ends on that error's answer with its message |
| Ecsta.RunPassDescribeEnds | ecsta.go:83-136 | a pass that ends on a DescribeTasks error ends on the answer to its last describe request, with that answer's message |
| Ecsta.IteratePages | ecsta.go:83-97 | the iterator loop computes `RunPass` |
| Ecsta.Queries | ecsta.go:101-113 | two queries (family alone, then service alone) when both are given, otherwise one with whatever is given |
| Ecsta.PassStart | ecsta.go:114-118 | pass k asks for query k/2, RUNNING then STOPPED, from the first page |
| Ecsta.PassStartAsWritten | ecsta.go:114-118 | as written, the STOPPED pass starts from the request the RUNNING pass's iterator left, whose token it may still carry |
| Ecsta.PassStartsFresh | ecsta.go:114-118 | every pass of the corrected listing starts with no page token |
| Ecsta.StaleTokenAsWritten | ecsta.go:83-118 | a two-page RUNNING pass leaves the STOPPED pass starting with the stale token |
| Ecsta.TagFilter | ecsta.go:139-153 | no more tasks than given, and a task is among those kept exactly when its matched-tag count equals the number of requested tags |
| Ecsta.TagFilterAppend | ecsta.go:139-153 | the filter works task by task: filtering a concatenation is concatenating the filtered parts, so order and multiplicity are kept |
| Ecsta.TagFilterOne | ecsta.go:139-153 | a single task is kept, once, exactly when it matches |
| Ecsta.TagFilterNoTags | ecsta.go:139-141 | without requested tags every task is kept |
| Ecsta.NoTagMatchesNothing | ecsta.go:143-149 | no tag matches an empty request |
| Ecsta.MatchCount | ecsta.go:143-149 | the `matched` counter is at most the number of the task's tags; `MatchedKeysCount` and `DuplicateTagCountsTwice` relate it to the requested keys |
| Ecsta.MatchedKeys | ecsta.go:143-149 | the requested keys some task tag matches |
| Ecsta.MatchedKeysCount | ecsta.go:143-149 | with distinct tag keys the counter is the number of requested keys matched |
| Ecsta.TagFilterIsConjunction | ecsta.go:139-153 | with distinct tag keys a task is kept exactly when it carries every requested key=value pair (AND semantics) |
| Ecsta.KeptHasAll | ecsta.go:139-153 | matching every requested key means carrying every requested pair |
| Ecsta.AllAreMatched | ecsta.go:139-153 | carrying every requested pair means matching every requested key |
| Ecsta.DuplicateTagCountsTwice | ecsta.go:143-151 | a task with one requested pair twice and another missing is kept: the counter counts tags, not requested keys |
| Ecsta.FirstOccurrencesUnique | ecsta.go:155-157 | de-duplication leaves each ARN once, loses none and adds nothing |
| Ecsta.FirstOccurrences | ecsta.go:155-157 | `lo.UniqBy` on the ARN; `FirstOccurrencesUnique` states that each ARN is left once, none lost and nothing added |
| Ecsta.UniqByArn | ecsta.go:155-157 | the de-duplication loop keeps the first task of each ARN |
| Ecsta.ProgressStep | ecsta.go:114-136 | one more pass, run on the answers the earlier ones left, keeps every pass chained on its predecessor and every earlier pass ended on its last page; a pass that reached its last page adds its tasks to those collected |
| Ecsta.ListTasks | ecsta.go:99-158 | the corrected listing (see Findings: every pass starts from the first page, by `PassStart`): at most two passes per query, each chained on the answers the previous one left, each but the last ending on its last page; success exactly when all ran to their last page, and the result is the tag-filtered tasks de-duplicated by ARN; an error carries the failing call's message |
| Ecsta.ExcludeStopped | ecsta.go:204-206 | true exactly when the last status is not STOPPED |
| Ecsta.Select | ecsta.go:232-235 | no more tasks than given, and a task is among those selected exactly when the predicate accepts it |
| Ecsta.SelectAppend | ecsta.go:232-235 | selecting from a concatenation is concatenating the selections, so order and multiplicity are kept |
| Ecsta.SelectOne | ecsta.go:232-235 | a single task is selected, once, exactly when the predicate accepts it |
| Ecsta.FindByName | ecsta.go:277-281 | the first task of the list whose ARN names the ID (no earlier task is named so), and none only when no ARN does |
| Ecsta.FindFrom | ecsta.go:277-281 | the loop from one position on: a task of the list whose ARN names the ID, and none exactly when no task from that position on is named so |
| Ecsta.FindFromFirst | ecsta.go:277-281 | the task the loop returns is the first one whose ARN names the ID |
| Ecsta.FindFromAt | ecsta.go:277-281 | the loop returns the task at a position before which no task is named the ID |
| Ecsta.FindTask | ecsta.go:215-283 | with an ID, success exactly for one described task, else "no tasks found: ", "task not found: " or "multiple tasks found: "; without one, after the selection function, none is "no tasks found", one is returned unprompted, and several go to the filter: a formatter failure is "failed to create formatter: ", a filter failure "failed to run filter: ", an empty choice "task not selected"; otherwise a task is found exactly when some candidate's ARN names the chosen line's first tab field, it is the first such candidate, and else the error is "task … not found" |
| Ecsta.FindTaskExcludesStopped | ecsta.go:204-235 | with the STOPPED filter findTask never returns a stopped task |
| Ecsta.FindTaskOfChosenLine | ecsta.go:250-282 | choosing a task's own formatted line selects a task of that name |
| Ecsta.FindTaskOfLine | ecsta.go:272-282 | a chosen line whose first tab field names a candidate finds a task of that name |
| Ecsta.ChosenLineId | format.go:45-56 | a task's formatted line is not empty and its first tab field is the task ID |
| Ecsta.FindContainerName | ecsta.go:309-325 | an explicit name is returned unchecked; the only container's name is returned unprompted; otherwise the filter's choice or its wrapped error |
| Ecsta.ContainerNames | ecsta.go:316-319 | the containers' names, in order |
| Format.NewTaskFormatter | format.go:16-27 | only "table", "tsv" and "json" are formats, each giving its own formatter (the header flag kept for table and TSV); anything else is "unknown task formatter: " |
| Format.TaskToColumns | format.go:34-56 | one value per header column in header order: the task, task-definition and container-instance ARNs reduced to their names, then the last status, desired status, creation time, group and launch type |
| Format.TsvLineRoundTrip | format.go:93-96 | a TSV line is one newline-terminated line whose tab-separated fields are the values written |
| Format.TsvLine | format.go:93-95 | the fields joined by tabs and a newline; `TsvLineRoundTrip` states that it is one line whose fields read back |
| Format.TaskLineStartsWithId | format.go:45-56 | the first field of a task's TSV line is the task ID |
| Format.TaskFormatterTsv.constructor | format.go:85-91 | the header line is written at construction exactly when asked for |
| Format.TaskFormatterTsv.AddTask | format.go:93-96 | each task appends exactly its one TSV line |
| Format.TaskFormatterTsv.Close | format.go:97-98 | closing writes nothing |
| Console.ConsoleState.constructor | console.go:149-152 | the console starts on the application's cluster with no task, no caches and an empty buffer |
| Console.ConsoleState.Prompt | console.go:52-61 | "task@cluster> " with a task, "cluster> " without one, "> " with neither |
| Console.ConsoleState.Reset | console.go:63-68 | cluster, task and both caches are cleared, the buffer is kept, and the prompt is "> " |
| Console.ConsoleState.DispatchConsole | console.go:233-284 | the command's route; the buffer is reset only once the cluster check is passed; a task command gets the selected task ID |
| Console.TaskOptions.constructor | console.go:22-37 | no task command has an ID yet |
| Console.RouteOf | console.go:233-284 | "save" first; "exit"/"quit" end the console; "help" is refused with "use --help"; without a cluster all but the console's own commands are refused with "no cluster is selected"; "list" and "task" need only the cluster; every other command needs a task ("no task is selected"); a task command is given the selected task; anything else is "unknown command: " |
| Console.RunSelectCluster | console.go:292-311 | a failed interactive choice is not an error and leaves the state alone; a chosen or named cluster resets the state and becomes the console's and the application's cluster; a failed lookup is returned with nothing changed |
| Console.IdsWithPrefix | console.go:337-343 | the task IDs starting with the prefix, each from a listed task, all of them included |
| Console.IdsComeFromTasks | console.go:337-343 | every ID collected is the ID of a listed task |
| Console.MatchTaskIds | console.go:337-343 | the collecting loop computes `IdsWithPrefix` |
| Console.PrefixChoice | console.go:344-351 | exactly one match selects it, and then every listed task with that prefix has that ID; none is "taskID … not found", several "[error] taskID … is ambiguous" |
| Console.OnlyIdWithPrefix | console.go:344-351 | a sole match is the ID of every listed task with the prefix |
| Console.RunSelectTask | console.go:313-353 | no ID uses the filter; an ID of 32 to 36 bytes is looked up exactly and needs exactly one result; other IDs go by prefix; the selection changes only on success |
| Filter.Items | filter.go:41-46 | one item per line, the line's first whitespace-separated field, never empty |
| Filter.ExtractItems | filter.go:41-46 | the scan loop computes `Items` |
| Filter.PrefixItems | filter.go:67-69 | exactly the items starting with the input |
| Filter.Matches | filter.go:61-70 | an item equal to the input is found alone; otherwise every item starting with the input |
| Filter.MatchItems | filter.go:61-70 | the matching loop computes `Matches` |
| Filter.PromptLoop | filter.go:51-88 | the only failure is "Aborted" |
| Filter.PromptLoopChoice | filter.go:51-88 | a selection is an item that the first decisive answer (a non-empty input matching exactly one item) found alone, and every answer before it was typed and undecisive |
| Filter.PromptLoopAborts | filter.go:51-88 | a failure comes from a cancellation, and every answer before it was typed and undecisive |
| Filter.PromptLoopWaits | filter.go:51-88 | still prompting means every answer was typed and none was decisive |
| Filter.RunInternalFilter | filter.go:40-90 | the built-in filter offers the lines' first fields and runs the prompt loop on them |
| Filter.FilterRunner | filter.go:17-26 | no command is the built-in filter; one with a space runs through `sh -c`, any other directly |
| Filter.RunFilter | filter.go:16-38 | the built-in filter for an empty command; a failed command is "failed to execute filter command: "; its output is the choice with trailing carriage returns and newlines dropped, and only those |
| Config.FieldIndex | config.go:87-96 | a name's position among the fields |
| Config.FilledDefaults | config.go:77-85 | non-empty fields are kept, empty ones take their defaults |
| Config.FillDefaultsIdempotent | config.go:77-85 | filling defaults twice is filling them once, and the output format is then never empty |
| Config.StructConfig.Empty | config.go:26-30 | a new record has every field empty |
| Config.StructConfig.SetField | config.go:70 | one field is written and no other |
| Config.StructConfig.Get | config.go:50-60 | the field named by the lower-cased name |
| Config.StructConfig.Set | config.go:62-75 | the field named by the lower-cased name is written and no other |
| Config.StructConfig.FillDefault | config.go:77-85 | the record becomes `FilledDefaults` of itself |
| Config.StructConfig.FieldNames | config.go:87-96 | "filter_command", "output", "task_format_query", in field order |
| Config.StructConfig.ConfigElements | config.go:32-43 | one element per field in field order, with its name, help and default |
| Config.StructConfig.OverrideCLI | config.go:98-105 | a non-empty `--output` or `--task-format-query` replaces the configured one; the filter command is never touched |
| Config.NewConfig | config.go:129-133 | a new configuration is ["", "table", ""] |
| Config.LoadConfig | config.go:139-145 | loading never fails: a read file gets its defaults filled, an unreadable one gives the defaults |
| Logs.Wrap64 | logs.go:241 | an `int64` result equal to the value modulo 2^64, and the value itself when it fits |
| Logs.TruncDiv | logs.go:237 | Go's division, rounding toward zero |
| Logs.Sub | logs.go:237 | `time.Sub` saturates at the bounds of a duration |
| Logs.TimeToMsec | logs.go:236-238 | whole milliseconds since the epoch, always within the range a saturated duration divided by a millisecond allows |
| Logs.MsecToTime | logs.go:240-242 | a time within a duration of the epoch, exactly the milliseconds' nanoseconds when they fit an `int64` |
| Logs.MsecRoundTrip | logs.go:236-242 | milliseconds survive msecToTime then timeToInt64msec whenever their nanoseconds fit an `int64` |
| Logs.MsecTruncates | logs.go:236-242 | converting to milliseconds and back drops less than a millisecond, toward the epoch |
| Logs.MsecWrapsBeyondRange | logs.go:240-242 | beyond the `int64` range the round trip fails |
| Logs.ResolveTimestamps | logs.go:35-57 | the only errors are from the start-time parser; the window is the duration up to now, or from the parsed start time; following leaves its end at the zero time |
| Logs.FollowerOf | logs.go:129-143 | a follower reads the container's `awslogs-group` and the stream "prefix/container/task ID", which names the same task; it carries the container's name, the window's start and end, and the follow and JSON flags as given |
| Logs.Followers | logs.go:115-148 | at most one follower per container, and none exactly when no container is watched (unfiltered or named, logging through awslogs) |
| Logs.FollowersAreWatched | logs.go:115-148 | every follower is the follower of a watched container |
| Logs.WatchedAreFollowed | logs.go:115-148 | every watched container's follower is started |
| Logs.DefinitionNames | logs.go:116 | every container definition's name, in order |
| Logs.SelectContainers | logs.go:115-148 | the selection loop computes `DefinitionNames` and `Followers` |
| Logs.RunLogs | logs.go:93-154 | a failed or empty cluster choice is returned as `SetCluster` gives it; task and task-definition failures are wrapped; a window error is returned as it is; success exactly when some container is watched, and then every follower of a watched container is started with the resolved window, and a configured JSON output forces JSON lines; otherwise "no logs found. available containers: " with all names |
| Logs.EncodeRoundTrip | logs.go:73-76 | a record is written as one line whose tab-separated fields are the time, the container and the message |
| Logs.Encode | logs.go:73-76 | the time, the container and the message joined by tabs, as one line; `EncodeRoundTrip` states that the fields read back |
| Logs.FirstRequest | logs.go:172-180 | the first request names the follower's log group and stream, asks for 1000 events, starts at the window's start in milliseconds, and has an end, the window's end in milliseconds, exactly when the stream is not followed |
| Logs.Follows | logs.go:166-168 | a stream is followed when asked to or when the window has no end; `FirstRequest`, `PageLines`, `FollowStopRule` and `FollowStaysInWindow` state what it decides |
| Logs.FollowSteps | logs.go:170-232 | the paging loop over the waits; `FollowStepsCount`, `FollowNextRequest`, `FollowStopRule`, `FollowStaysInWindow` and `FollowRequests` state its properties |
| Logs.FollowStepsCount | logs.go:183-198 | one request per answered wait: never more requests than waits, and as many while still polling |
| Logs.PageLines | logs.go:210-222 | no more lines than events, every line carrying the container's name; a stream not followed writes no line after the window's end; a followed one writes every event and never stops on a page |
| Logs.PageLinesEach | logs.go:210-222 | the lines are those of the events before the first late one, each turned into its line, and the page stops early exactly at a late event |
| Logs.PageLinesPast | logs.go:210-214 | a page ends the loop exactly when one of its events is late |
| Logs.FollowStopRule | logs.go:210-229 | for a stream not followed, a page with a late event ends the loop after its one request with the lines before it; a page with no late event whose token is the one just used ends it with all its lines |
| Logs.FollowStaysInWindow | logs.go:170-232 | a stream not followed never writes a line after the window's end; a followed one ends only by cancellation |
| Logs.FollowRequests | logs.go:172-198 | every request is the first one or asks for the page after a token; `FollowNextRequest` says which token |
| Logs.FollowNextRequest | logs.go:191-229 | after a page with a new forward token the next request asks for the page after that token; after a failed call, a page without a token, or an unchanged token on a followed stream, the same request is sent again |
| Logs.TokenRequestsOnly | logs.go:191-198 | once a token request is sent, every later request is one |
| Logs.PageEvents | logs.go:210-222 | the event loop computes `PageLines` |
| Logs.FollowLogs | logs.go:170-232 | the paging loop computes `FollowSteps` from the first request |

## Left out

- AWS calls (ListTasks, DescribeTasks, DescribeTaskDefinition, GetLogEvents, ExecuteCommand, port forwarding) are input values. Their pagination, retries and credentials are not modelled.
- Goroutines, channels, the `WaitGroup`s and `atomic.Bool` of `RunCp` are reduced to one ordered trace of steps. A timing in which the agent prints its ready line and stops at once is resolved in favour of `ready`.
- File, network and terminal I/O are left out: `os.Stat`/`Open`/`Create`, `net.DialTimeout`, `io.Copy`, the progress bar's drawing, readline and prompter, and the configuration file's reading, writing and backup. Only the decisions around them are modelled.
- The embedded agent binaries and their base64 encoding (section 4 of RFC 4648) are opaque strings.
- The parsetime library, `flextime.Now`, RFC 3339 formatting in local time, `json.Marshal`/`Indent`, tablewriter and reflection are left out. The clock, the parsed start time and the formatted event time are inputs, and `StructConfig` is a fixed three-field record.
- `ssmRequestParameters.String` is not modelled, because its JSON escaping belongs to `encoding/json`. Only the target it carries is.
- `RunConsole`'s readline loop, `RunConsoleSave`, the completer and the kong/shellwords parsing of console lines are left out. Routing is modelled, not the commands that routes lead to.
- `sleepWithContext` is a `Poll` that is either interrupted or answered. The encoder's write errors and the JSON encoder are left out.
- `bufio.Scanner`'s line splitting is not modelled. The agent's output and the filter's input are already sequences of lines.
- The table and JSON task formatters are left out; only the formatter choice and the TSV formatter are modelled.
- `findTask` builds its formatter with `newTaskFormatter(buf, formatterOption{...})`, a newer signature than `format.go`'s `newTaskFormatter(w, t, hasHeader)`; `formatterOption`, its `AppendTaskID` and `Query` fields and the JSON query formatter are not part of this model. Whether that formatter could be made is an input of `FindTask`, and the chosen line follows `format.go`'s TSV line.
- Cp.NewNcClient: the source retries for ever and never checks for cancellation. The model runs over a finite sequence of dial outcomes and ends "still dialling" when all fail. It does not claim that cancellation stops the loop.
- Strs.ToLower: only ASCII letters are lowered. Go's Unicode case mapping is not modelled, and every name it is applied to here is ASCII.
- Ecsta.TagFilterIsConjunction: the AND reading holds only when a task's tag keys are distinct, which ECS guarantees. Ecsta.DuplicateTagCountsTwice shows what the counter does otherwise.
- Ecsta.ListTasks: the page and describe answers are finite sequences. A pass that runs out of them ends `Unanswered`, which the source cannot do.
- Filter.Items: a line without a field is excluded by precondition. The source indexes the empty result of `strings.Fields` there and panics.
- Logs.MsecRoundTrip: the round trip holds only when the millisecond count's nanoseconds fit an `int64`. Logs.MsecWrapsBeyondRange shows the failure beyond that.
- Logs.ResolveTimestamps: the duration is an `int64`, and `time.Time.Add`'s wall-clock and monotonic details are not modelled. Times are nanoseconds since the Unix epoch.
- Cp.CpOption.SrcTarget and Cp.CpOption.DestTarget are `ParseCpTarget` applied to the field. Their properties are `ParseCpTarget`'s.

## Findings

| source | as written | input that shows it | evidently intended | confidence | as-written member | corrected member |
|---|---|---|---|---|---|---|
| ecsta.go:83-118 | `input := input` copies a pointer, and the iterator writes each page's token into that shared request, so the STOPPED pass starts from the RUNNING pass's last token | no family or service; the RUNNING listing returns a first page with token "t1" and a last page without one | each RUNNING and STOPPED pass starts from the first page | not executed | Ecsta.PassStartAsWritten, Ecsta.StaleTokenAsWritten | Ecsta.PassStart, Ecsta.PassStartsFresh |
