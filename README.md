# for-IT core, modelled in Dafny

for-IT is a small configuration-management system.

- A **server** keeps a table of *environments*. Each environment is a directory of YAML playbooks, and the table is reloaded when filesystem events arrive.
- The server records every *agent* it hears from in an *inventory*.
- On `/playbooks` it serves each agent the tasks whose `When` condition selects it, with a SHA-256 ETag.
- An **agent** polls the server. When the ETag changed, it runs every task through the *executor*, or only reports the tasks in check mode.
- The executor runs one shell command. Before that it overlays an environment and rewrites package-manager commands (`apt-get`/`apt`/`yum`/`dnf`) to be non-interactive. As written, the rewritten command never reaches the shell (see "## Findings"). The agent is modelled with the executor as written.
- Two output packages render a task block and a play recap as text.

Each Go file of the core is one Dafny module, in the form of the Go code:

| Dafny file | module | Go file |
|---|---|---|
| `models.dfy` | `Models` | `internal/models/models.go` |
| `executor.dfy` | `Executor` | `internal/executor/executor.go` |
| `inventory.dfy` | `Inventory` | `internal/api/inventory.go` |
| `environment.dfy` | `Environment` | `internal/api/environment.go` |
| `client.dfy` | `ApiClient` | `internal/api/client.go` |
| `server.dfy` | `ApiServer` | `internal/api/server.go` |
| `api_output.dfy` | `ApiOutput` | `internal/api/output.go` |
| `output.dfy` | `Output` | `internal/output/output.go`, and the two identical formatters at the end of `internal/api/client.go` |
| `strings.dfy`, `seqs.dfy`, `wrappers.dfy` | `Strings`, `Seqs`, `Wrappers` | support: Go's `strings`/`strconv` on `seq<char>`, sequence lemmas, `Option`/`Result` |

Objects whose fields the Go code updates are classes, with `modifies` on their methods:
- `Executor.Executor`;
- the caller's environment map `Executor.EnvMap`, which the executor writes in place;
- `Inventory.InventoryManager`;
- `Environment.EnvironmentManager`;
- `ApiClient.Client`;
- `ApiServer.Server`;
- net/http's `ApiServer.ResponseWriter`.

Every loop of the Go code is a `while` loop, proved against a function that specifies its result:
- the environment overlay;
- the walk of an environment directory;
- the event loop over a finite stream of notices;
- the host query;
- the flattening of the fetched playbooks into one task list;
- the agent's task loop;
- the output-line and recap-counting loops.

The rest of the environment is parameters:
- the clock;
- the filesystem (`Environment.Disk`);
- the child process (`Invocation -> RunOutcome`);
- the network;
- `os.Hostname`;
- the glob library;
- JSON, SHA-256 and hex (`ApiServer.Codec`).

The model follows the code where it differs from the project's documentation:
- The Debian branch of the rewrite fires on the bare substring `"apt"`, so `"laptop"` takes it too (`Executor.DebianOnBareApt`).
- The server selects a task when its `When` is empty or *equal* to the hostname. The agent treats a non-empty `When` as a glob pattern, and also marks a skipped task with `"Condition not met: " + When`.
- A playbook's `Hosts`, `Customer` and `Environment` fields select nothing (`Environment.HostsIgnored`). The `customer` and `environment` query parameters the agent sends are never read.
- The whole rewrite is not idempotent, although each of its steps is (`Executor.RewriteNotIdempotent`).

Where the code disagrees with itself (a format string, or two files that do not fit together), the model keeps the code as written and proves the difference. These are listed under "## Findings".

## Model

| member | source | states |
|---|---|---|
| Executor.Executor.constructor | internal/executor/executor.go:16-25 | the shell is cmd.exe on Windows and /bin/sh otherwise |
| Executor.Executor.Execute | internal/executor/executor.go:27-29 | runs the command as ExecuteWithEnv, as written, does with a nil map: the child gets the original command over the overlay of an empty map, and output and error follow that run |
| Executor.Overlay | internal/executor/executor.go:41-53 | PATH is always the standard path; DEBIAN_FRONTEND=noninteractive and DEBIAN_PRIORITY=critical are set exactly for Debian-branch commands; every other caller key keeps its value; the key set is the caller's keys plus the managed ones |
| Executor.ChildEnv | internal/executor/executor.go:89-93 | the child's environment is the parent environment with every overlay entry winning over the parent's value |
| Executor.Executor.Prepare | internal/executor/executor.go:40-87 | the caller's map becomes its overlay in place, and the returned command is the rewrite of the input |
| Executor.Executor.RewriteCommand | internal/executor/executor.go:48-87 | the switch yields Rewrite(command): the first of the apt, yum and dnf branches whose guard holds |
| Executor.Executor.RewriteDebian | internal/executor/executor.go:49-70 | the Debian branch applies the apt-get step, then the apt step, then the Dpkg step |
| Executor.Executor.AddYesAfterAptGet | internal/executor/executor.go:55-58 | "-y " is inserted after the first "apt-get " only when no -y is present |
| Executor.Executor.AddYesAfterApt | internal/executor/executor.go:60-63 | "-y " is inserted after the first "apt " only when no -y is present |
| Executor.Executor.AddYesAfterTool | internal/executor/executor.go:74-86 | the yum and dnf branches give InjectYes: "-y " is inserted after the first "yum " or "dnf " only when no -y is present |
| Executor.Executor.AddDpkgOptions | internal/executor/executor.go:65-70 | the two Dpkg options are appended to install commands that do not already carry "-o Dpkg::Options" |
| Executor.Executor.ExecuteWithEnvAsWritten | internal/executor/executor.go:31-110 | as written, the child is given the original command, while the caller's map still receives the overlay; output and error are those of that run |
| Executor.Executor.ExecuteWithEnv | internal/executor/executor.go:31-110 | corrected: the child is given the rewritten command with the overlaid environment; the caller's map receives the overlay |
| Executor.Executor.Report | internal/executor/executor.go:99-109 | the output is trimmed stdout, or on failure trimmed stderr unless that is empty; the error wraps the run error and the selected output |
| Executor.DebianOnBareApt | internal/executor/executor.go:50 | the Debian guard is equivalent to containing the bare substring "apt" |
| Executor.InjectYesAfterFirst | internal/executor/executor.go:56-63 | an injection changes the command only when it lacks -y, and then inserts "-y " right after the first occurrence of the tool and changes nothing else |
| Executor.InjectedYesIsVisible | internal/executor/executor.go:56-63 | after an injection behind a space-terminated tool name the command carries " -y " |
| Executor.InjectYesIdempotent | internal/executor/executor.go:56-63 | each -y injection step applied twice equals applying it once |
| Executor.YesInjectedAtMostOnce | internal/executor/executor.go:55-63 | the apt-get and apt injections never both fire on one command |
| Executor.AppendDpkgIdempotent | internal/executor/executor.go:65-70 | the Dpkg step applied twice equals applying it once |
| Executor.InjectAtStart | internal/executor/executor.go:56-58 | a command that starts with the tool and lacks -y gets "-y " directly after the tool |
| Executor.AptGetStepExample | internal/executor/executor.go:55-58 | "apt-get install nginx" becomes "apt-get -y install nginx" |
| Executor.DpkgStepExample | internal/executor/executor.go:65-70 | "apt-get -y install nginx" gets the Dpkg options appended |
| Executor.AptGetInstallRewrite | internal/executor/executor.go:49-70 | the rewrite of "apt-get install nginx" is "apt-get -y install nginx" followed by the Dpkg options |
| Executor.RewriteDiscarded | internal/executor/executor.go:34-38 | for "apt-get install nginx" the command line built as written carries the original command, the intended one carries the rewrite, and the two differ |
| Executor.InstallAptFirstPass | internal/executor/executor.go:49-70 | the rewrite of "install apt" only appends the Dpkg options |
| Executor.StepsNeverShorten | internal/executor/executor.go:55-86 | no rewrite step shortens the command |
| Executor.RewriteNotIdempotent | internal/executor/executor.go:49-70 | rewriting "install apt" twice differs from rewriting it once |
| Executor.NonDebianRewrite | internal/executor/executor.go:72-86 | outside the Debian branch the rewrite adds nothing or exactly "-y ", and the overlay only sets PATH |
| Executor.ErrorEmbedsOutput | internal/executor/executor.go:99-107 | an error is returned exactly when the run failed, and its message ends with "\nOutput: " and the selected output |
| Strings.IndexOf | internal/executor/executor.go:57 | strings.Index: -1 exactly when the pattern is absent, otherwise the first occurrence |
| Strings.ReplaceFirst | internal/executor/executor.go:57 | strings.Replace with n=1: unchanged when the pattern is absent; otherwise the part before the first occurrence, the replacement, and the part after it |
| Strings.TrimSpace | internal/executor/executor.go:100 | strings.TrimSpace: the result is the input with only white space removed at both ends, and it neither starts nor ends with white space |
| Strings.Split | internal/api/output.go:76 | strings.Split on one character: the pieces contain no separator and joining them with it gives the input back |
| Strings.Repeat | internal/api/output.go:60 | strings.Repeat: n copies of the character |
| Strings.Itoa | internal/api/output.go:142 | the %d rendering of a count: decimal digits without a leading zero |
| Strings.AtoiItoa | internal/api/output.go:142 | reading the rendered digits back gives the count, so different counts print differently |
| Inventory.IpOf | internal/api/inventory.go:57-61 | the recorded address is the host part of host:port, or the raw address when it does not split |
| Inventory.Upsert | internal/api/inventory.go:63-77 | only the hostname's entry is written; a first sighting is seen first and last now; a later one keeps its first-seen time and updates the address and last-seen time |
| Inventory.InventoryManager.constructor | internal/api/inventory.go:32-37 | an empty inventory stored at dataDir/inventory.json |
| Inventory.InventoryManager.New | internal/api/inventory.go:31-50 | a directory error or a load error other than a missing file fails with its message; a missing file leaves the inventory empty; a decoded file becomes the inventory |
| Inventory.InventoryManager.Load | internal/api/inventory.go:95-105 | decoding fills the map; every failure returns its error and leaves the map unchanged |
| Inventory.InventoryManager.UpdateClient | internal/api/inventory.go:53-80 | the entries become the upsert of the sighting, and the save's error is returned with the new entry in place |
| Inventory.InventoryManager.GetInventory | internal/api/inventory.go:83-92 | one entry per key: every key listed exactly once with its entry |
| Inventory.SecondSightingKeepsFirstSeen | internal/api/inventory.go:64-77 | after two sightings the entry has the second address and time and the first sighting's first-seen time |
| Inventory.UpsertSize | internal/api/inventory.go:64-77 | the inventory grows by one exactly on a first sighting |
| Inventory.UpsertIdempotent | internal/api/inventory.go:63-77 | the same sighting recorded twice equals recording it once |
| Inventory.UpsertCommutes | internal/api/inventory.go:63-77 | sightings of two different hosts commute |
| Environment.Ext | internal/api/environment.go:82 | filepath.Ext: a suffix of the path that is empty or a dot followed by no dot or slash |
| Environment.Base | internal/api/environment.go:131 | filepath.Base: never empty, and slash-free when the path has a non-slash character |
| Environment.Dir | internal/api/environment.go:144 | filepath.Dir without Clean: a prefix of the path that is empty or ends in a slash |
| Environment.EnvironmentManager.constructor | internal/api/environment.go:29-33 | an empty table over the base directory |
| Environment.EnvironmentManager.New | internal/api/environment.go:23-42 | succeeds exactly when the watcher, the base directory, its watch and its listing all succeed, and then holds the startup scan; the failure messages are those of the code |
| Environment.EnvironmentManager.LoadEnvironments | internal/api/environment.go:44-67 | fails with the first failing setup step and then changes nothing; otherwise every subdirectory is loaded in listing order, and failed loads are only skipped |
| Environment.EnvironmentManager.LoadEnvironment | internal/api/environment.go:69-103 | the environment's entry is replaced by the collected playbooks, unless watching or walking fails, which returns the error and keeps the old entry |
| Environment.EnvironmentManager.Walk | internal/api/environment.go:77-92 | the walk's error is the first error step; without one the result is the parsed ".yml" regular files, in walk order |
| Environment.EnvironmentManager.Watch | internal/api/environment.go:119-157 | the table after a stream of notices is their replay in order |
| Environment.EnvironmentManager.HandleNotice | internal/api/environment.go:122-148 | one notice: an extensionless name is loaded on exactly Create and deleted on exactly Remove, a ".yml" name reloads its directory's environment, and anything else changes nothing |
| Environment.EnvironmentManager.GetPlaybooksForHost | internal/api/environment.go:159-175 | the tasks, over every environment once in map order, then playbooks, then tasks, whose When is empty or equal to the hostname |
| Environment.EnvironmentManager.MatchingInPlaybooks | internal/api/environment.go:165-171 | the matching tasks of one environment's playbooks, in order |
| Environment.EnvironmentManager.GetEnvironments | internal/api/environment.go:177-187 | the copy equals the table |
| Environment.WalkStopsAt | internal/api/environment.go:77-80 | the first error step is the walk's error |
| Environment.WalkErrorExtends | internal/api/environment.go:77-80 | once the walk has an error, later steps do not change it |
| Environment.CollectedComplete | internal/api/environment.go:82-88 | every regular ".yml" file that parses is collected, whatever its siblings do |
| Environment.CollectedSound | internal/api/environment.go:82-88 | every collected playbook comes from a regular ".yml" file that parses to it |
| Environment.CollectedAppend | internal/api/environment.go:77-92 | collecting over a concatenated walk concatenates the two collected lists |
| Environment.ReloadedKeepsOnFailure | internal/api/environment.go:94-100 | a failed load keeps the table; a successful one stores exactly the collected list |
| Environment.ReloadedFrame | internal/api/environment.go:98-100 | a load touches no other environment |
| Environment.RemoveEventDeletes | internal/api/environment.go:134-137 | an extensionless Remove deletes that environment and keeps every other one |
| Environment.OtherDirectoryEventIgnored | internal/api/environment.go:128-139 | an extensionless event whose op set is not exactly Create or exactly Remove changes nothing |
| Environment.OtherExtensionIgnored | internal/api/environment.go:128-148 | an event on a name with another extension changes nothing |
| Environment.YmlExt | internal/api/environment.go:143 | every name ending in ".yml" has extension ".yml" |
| Environment.LastElementAfterSlash | internal/api/environment.go:144 | the last element of dir/name is name when name has no slash |
| Environment.DirAfterSlash | internal/api/environment.go:144 | the directory of dir/name is dir/ when name has no slash |
| Environment.BaseOfDirectory | internal/api/environment.go:131 | the base of dir/env/ is env |
| Environment.RouteYml | internal/api/environment.go:143-144 | a ".yml" event reloads the environment named by the base of its directory |
| Environment.PlaybookEventReloadsItsEnvironment | internal/api/environment.go:142-148 | an event on base/env/file.yml reloads exactly env |
| Environment.ReplayAppend | internal/api/environment.go:119-157 | handling two streams one after the other equals handling their concatenation |
| Environment.MatchingTasksMembership | internal/api/environment.go:166-170 | a task of a list is selected exactly when it is in the list and its When is empty or equal to the hostname |
| Environment.PlaybookTasksMembership | internal/api/environment.go:164-172 | a task is selected from a playbook list exactly when it matches and some playbook holds it |
| Environment.HostTasksPrefix | internal/api/environment.go:164-172 | a task is selected over some environments exactly when it matches and one of those environments holds it |
| Environment.HostTasksMembership | internal/api/environment.go:159-175 | the host query returns exactly the matching tasks held by any environment, whatever the iteration order |
| Environment.HostsIgnored | internal/api/environment.go:164-172 | changing every playbook's host list changes no answer |
| ApiClient.GetTasks | internal/api/client.go:179-204 | succeeds exactly on a 200 response that decodes, and then gives the fetched playbooks' tasks in order with the ETag; a transport error, a non-200 status and a decoding error each fail with the code's message |
| ApiClient.Client.FetchTasks | internal/api/client.go:179-204 | the early returns and the flattening loop give exactly GetTasks |
| ApiClient.Client.constructor | internal/api/client.go:53-62 | a client with the given settings, no ETag recorded, and check mode off |
| ApiClient.Client.New | internal/api/client.go:39-63 | fails on a hostname error, then on a missing customer, then on a missing environment, with the code's messages; otherwise builds the client |
| ApiClient.Client.SetDryRun | internal/api/client.go:65-67 | sets check mode and nothing else |
| ApiClient.Client.CheckAndExecute | internal/api/client.go:81-132 | a hostname or fetch error ends the cycle with no results; an unchanged ETag runs nothing; otherwise the results and error are those of running the tasks in order, each command through the executor as written, and the new ETag is recorded only when every task was processed |
| ApiClient.Client.ExecuteTask | internal/api/client.go:134-177 | an uncompilable condition fails the task, an unmatched one skips it, check mode marks it changed; otherwise the shell gets the task's command unrewritten (the executor as written) and the result is sent, whose error is the one returned |
| ApiClient.FlattenAppend | internal/api/client.go:198-201 | the task list of two playbook lists is the concatenation of their task lists |
| ApiClient.FlattenMembership | internal/api/client.go:198-201 | a task is fetched exactly when some fetched playbook holds it |
| ApiClient.ServedTasksFlattenToNothing | internal/api/client.go:193-201 | whatever task list the server serves, decoding it as playbooks yields no tasks |
| ApiClient.ServedTasksArrive | internal/api/client.go:193-201 | served in the shape the agent decodes, as one playbook holding the tasks, the agent's task list is exactly the served tasks with the ETag |
| ApiClient.InvalidConditionFails | internal/api/client.go:139-146 | an uncompilable condition gives a failed result with the compiler's message; nothing is run or sent |
| ApiClient.UnmatchedConditionSkips | internal/api/client.go:147-151 | an unmatched condition gives a skipped result with "Condition not met: " and the condition; nothing is run or sent |
| ApiClient.ExecutedTaskOutcome | internal/api/client.go:160-176 | an executed task is either changed or failed, never both; it fails exactly when the run of the unrewritten command fails; it carries the executor's output and error; only the send error is returned |
| ApiClient.OneResultPerTask | internal/api/client.go:110-124 | a completed cycle has one result per task, with the task's name, in task order; a stopped one has fewer results than tasks |
| ApiClient.CheckModeMarksAllChanged | internal/api/client.go:114-117 | in check mode every task yields a changed result and no condition is evaluated |
| ApiClient.RunTasksStops | internal/api/client.go:119-121 | when a task errs, the cycle's error names it, the results are those of the tasks before it, and later tasks are never run |
| ApiClient.RunTasksFailsAt | internal/api/client.go:119-121 | a task that errs ends the cycle with "failed to execute task" and the task's error |
| ApiClient.RunTasksFailureSticks | internal/api/client.go:119-121 | after a failure, further tasks change nothing |
| ApiServer.PlaybooksReply | internal/api/server.go:61-79 | 500 exactly when marshalling fails; otherwise the ETag is the hash of the JSON, and the reply is 304 with no body exactly when If-None-Match equals it, else 200 with the JSON |
| ApiServer.EqualListsEqualETags | internal/api/server.go:68-70 | lists with the same JSON get the same ETag |
| ApiServer.ResultsReply | internal/api/server.go:96-124 | 405 exactly when the method is not POST, 400 exactly when the body does not decode, otherwise 200 |
| ApiServer.Server.constructor | internal/api/server.go:36-40 | a server over the given managers and address |
| ApiServer.Server.HandlePlaybooks | internal/api/server.go:47-80 | a missing hostname is a 400 and records nothing; otherwise the sighting is upserted into the inventory and the reply is PlaybooksReply of the host's tasks |
| ApiServer.Server.AnswerPlaybooks | internal/api/server.go:61-79 | the writer ends holding PlaybooksReply |
| ApiServer.Server.HandleInventory | internal/api/server.go:83-92 | any method but GET is a 405; GET answers the JSON of every inventory entry, each once |
| ApiServer.Server.HandleResults | internal/api/server.go:95-125 | the reply is ResultsReply; a 200 upserts the decoded report's hostname, and any other reply leaves the inventory unchanged |
| ApiServer.NewServer | internal/api/server.go:25-41 | succeeds exactly when every step of the environment manager over dataDir/environments and of the inventory over dataDir succeeds, and then holds the startup scan and the loaded inventory; otherwise the first failure is the error, wrapped with the code's messages |
| ApiServer.AgentReportsRecordEmptyHost | internal/api/server.go:101-117 | an agent's result decodes to a report with an empty hostname, is accepted, and is recorded under "" |
| ApiServer.AgentReportsRecordHostname | internal/api/server.go:101-117 | a report carrying the agent's hostname is accepted and refreshes that host's entry, and no other host's |
| Output.FormatTaskOutput | internal/output/output.go:10-25 | the block is the TASK header line, then the status line, then "(check mode)" exactly in dry-run |
| Output.FormatPlaybookSummary | internal/output/output.go:27-45 | the recap is the header, one entry per result in order, the timing line, and the check-mode line in dry-run |
| Output.StatusLineFollowsKind | internal/output/output.go:12-20 | the status line is skipping, failed, changed or ok exactly as the precedence skip > failed > changed picks |
| Output.RecapVerdictFollowsKind | internal/output/output.go:30-38 | each recap entry's verdict follows the same precedence |
| Output.TaskCheckModeIff | internal/output/output.go:21-23 | the block ends with "(check mode)" exactly in dry-run |
| Output.SummaryCheckModeIff | internal/output/output.go:40-43 | the recap ends with "(check mode)" exactly in dry-run |
| Output.RecapLinesAppend | internal/output/output.go:29-39 | the entries of two lists of results are the first list's entries followed by the second's |
| Output.TimingFollowsEntries | internal/output/output.go:40-43 | the recap is the header and entries, then the timing line, then the check-mode line in dry-run |
| ApiOutput.StatusOf | internal/api/output.go:34-57 | in dry-run the status is "skipped" exactly when there is a skip reason and "check mode" otherwise; outside dry-run it names the bucket failed > changed > skipped > ok |
| ApiOutput.Details | internal/api/output.go:100-119 | the details are in the fixed order check_mode, changed, failed, skip_reason, and the duration is always present and last |
| ApiOutput.DetailsFlags | internal/api/output.go:103-117 | each flag is listed exactly when it is set, and the listed skip reason is the result's |
| ApiOutput.FailedDetails | internal/api/output.go:103-119 | a plain failed result lists failed then the duration, with check_mode in front in dry-run |
| ApiOutput.FormatTaskOutput | internal/api/output.go:30-98 | the block is the header, the result line and the output lines, joined with newlines |
| ApiOutput.GatherOutputLines | internal/api/output.go:72-90 | the "Output:" line, each non-empty output line indented in order, then the error line |
| ApiOutput.HeaderWidth | internal/api/output.go:60 | the header is 81 characters wide for any name that fits, and starts with "TASK [name] " |
| ApiOutput.OutputBlockIff | internal/api/output.go:73-90 | the output block is present exactly when there is output or an error, and starts with "Output:" |
| ApiOutput.ErrorLineLast | internal/api/output.go:82-89 | an error line is present and comes last |
| ApiOutput.BodyLinesMembership | internal/api/output.go:76-80 | a line is shown exactly when it is a non-empty line of the output |
| ApiOutput.BodyLinesAppend | internal/api/output.go:76-80 | the shown lines keep the output's order |
| ApiOutput.FormatPlaybookSummary | internal/api/output.go:125-156 | the recap is the banner, the recap line as fmt prints it from the four bucket counts of the results, the timing, and the check-mode banner in dry-run |
| ApiOutput.RecapAsWrittenDiffers | internal/api/output.go:142-148 | the recap line as written, six verbs for nine arguments, equals the intended line for no counts at all |
| ApiOutput.RecapLineDeterminesCounts | internal/api/output.go:142-148 | the intended recap line, each label with its own count, determines all four counts |
| ApiOutput.CountsCoverResults | internal/api/output.go:128-139 | every result is counted in exactly one bucket, so the four counts add up to the number of results |
| ApiOutput.StatusAgreesWithRecap | internal/api/output.go:43-56 | outside dry-run the task status names the bucket the recap counts the result in |
| ApiOutput.SummaryCheckModeIff | internal/api/output.go:150-155 | the recap ends with the check-mode banner exactly in dry-run |
| ApiOutput.TimingEndsWithS | internal/api/output.go:150 | the timing line ends with "s" |

## Left out

- Logging, `fmt.Println` of task blocks and recaps, the PLAY banner and the "No changes needed" lines: output to the terminal is not state.
- `Client.Start`: its ticker loop never ends. One cycle is `ApiClient.Client.CheckAndExecute`.
- `Server.Start` and `Stop`: the ServeMux and `http.ListenAndServe`. The three handlers are modelled on a request value and a `ResponseWriter`.
- `EnvironmentManager.Close` and the watcher's goroutine: the event loop is modelled over a finite sequence of notices.
- Mutexes and concurrent handlers: each method is modelled as one atomic step.
- `sendResult` and `getTasks` network I/O: modelled as a result value (`Host.send`, `Fetch`). The JSON encoding of the posted result is not modelled.
- `loadPlaybook` (reading a file and decoding its YAML): modelled as `Disk.parse`.
- JSON encoding and decoding, SHA-256 and hex: parameters (`ApiServer.Codec`). Go renders a nil task list as `null`; this is left to the codec.
- `load`/`save` of inventory.json: modelled as outcome values. `os.IsNotExist` is the `NotExist` outcome.
- `net.SplitHostPort`: a parameter (`splitHost`).
- `glob.Compile`: a parameter (`Host.compile`).
- `os.Hostname`: a parameter.
- `time.Now` and `time.Since`: parameters (`now`, `Host.elapsed`).
- `time.Duration`'s `%s` rendering and `%.2f` of seconds: given as strings (`took`, `secs`). No floating point is modelled.
- `filepath.Join` and the `Clean` step of `filepath.Dir`: Join is plain concatenation with "/", and Dir keeps its trailing slash. This makes no difference to `Base`.
- Go strings are byte sequences and the model uses characters. The two agree on the ASCII patterns the code searches for. `ApiOutput.Header` counts characters where Go counts bytes.
- `Executor.Executor.ExecuteWithEnv`: Go's `exec` passes `os.Environ()` followed by "k=v" entries, with the later duplicate winning. This is modelled as the map union `parent + overlay`; the order of entries is not modelled.
- `Executor.Executor.ExecuteWithEnv`: the caller's `env` map is modelled as `EnvMap`; a nil map becomes a fresh one, as in the code.
- `ApiOutput.FormatTaskOutput`: requires a task name of at most 73 characters. For a longer name `strings.Repeat` panics on a negative count, and that panic is not modelled.
- `ApiServer.ResponseWriter.WriteHeader`: requires a status code of 100-999. net/http panics outside that range, and the handlers use only 200-500.
- The agent's `executeTask` check-mode branch: `CheckAndExecute` never calls `executeTask` in check mode. The branch is still modelled in `ApiClient.Client.ExecuteTask`.
- `cmd/` entry points (flag parsing, main): outside the core.

## Findings

| source | as written | input that shows it | evidently intended | confidence | as-written member | corrected member |
|---|---|---|---|---|---|---|
| internal/executor/executor.go:34-38 | `exec.Command` captures `command` before lines 49-87 rewrite it, so the rewritten command (`-y`, Dpkg options) never reaches the shell; only the environment writes take effect | command "apt-get install nginx" on Linux: the shell runs "apt-get install nginx", while the rewrite is "apt-get -y install nginx -o Dpkg::Options::=..." | build the command line from the rewritten command | not executed | Executor.RewriteDiscarded | Executor.AptGetInstallRewrite |
| internal/api/output.go:142-148 | the recap format has six verbs for nine arguments, so fmt pairs "changed=%d" with the yellow colour string, "failed=%d" with the changed count and the last `%s` with the failed count, and reports the blue colour, skipped count and reset as EXTRA | one failed result: the line reads "failed=0" followed by "%!s(int=1)", never "failed=1" | each label followed by its colour and its own count | not executed | ApiOutput.RecapAsWrittenDiffers | ApiOutput.RecapLineDeterminesCounts |
| internal/api/client.go:193-201 | the server (internal/api/server.go:61-79) answers `/playbooks` with a JSON list of tasks, and the agent decodes it as a list of playbooks, whose elements then hold no tasks | any non-empty served task list: the agent's task list is empty and a cycle runs nothing | the served tasks reach the agent's task loop | not executed | ApiClient.ServedTasksFlattenToNothing | ApiClient.ServedTasksArrive |
| internal/api/server.go:101-117 | the agent (internal/api/client.go:206-226) posts its TaskResult, which has no "hostname" key, and the server upserts the decoded report's hostname | any result an agent posts: the inventory records it under "" | the report carries the agent's hostname, and that host's entry is refreshed | not executed | ApiServer.AgentReportsRecordEmptyHost | ApiServer.AgentReportsRecordHostname |
