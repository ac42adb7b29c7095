# EAGLE kill-chain core, modelled in Dafny

EAGLE runs simulated intrusion "attack chains" against an 18-phase kill-chain
catalog. An operator command is passed through a deny-list gate, run on the
"zero" agent through the Mythic C2 server, and recorded as an attack step. A
chain can be exported as a JSON tree, and an LLM can be queried either through
a local Ollama model or through a list of free proxy providers.

This project models the logic behind those features:

- `Config` (config.dfy): the catalog. It holds the ordered phase names, the
  canonical commands per phase as an insertion-ordered table, and the
  deny-list. Lemmas cover their shape, their distinctness, and how the table
  and the deny-list relate.
- `Proc` (proc.dfy): `check_and_process_local_cmd` and `get_agent_status`.
  - The gate refuses a command only when it is exactly a deny-list entry.
  - The step is built from the backend's answer.
  - The tool name follows Python's `str.split()`, and a blank command raises
    IndexError.
- `C2Tool` (c2_tool.dfy): the Mythic adapter.
  - Callback liveness, and the identifiers of the first payload.
  - The result of a local execution.
  - The module-global connection, as a class holding it. The server's startup
    hook calls `init_mythic` at once and carries on without a connection when
    the login fails. Every `init_mythic` that succeeds replaces the
    connection. `execute_local_command` logs in only when there is no
    connection yet. `check_status` and `get_payload_ids` never log in: they
    use whatever connection there is, None included.
- `LlmAnalysis` (llm_analysis.dfy): the LLM service.
  - The local flag is the raw environment string.
  - The `</think>` stripping of local replies.
  - The named-provider path and the ordered fallback loop, written as an
    imperative method proved against a function.
  - The wrapping of every error as HTTP 500.
- `KillChainExport` (kill_chain_export.dfy): `result_to_dict_recursive`, the
  export serialiser.
  - An object graph (a map from object identities to objects with columns and
    relationships) becomes a JSON-like tree.
  - The recursive method is proved equal to a recursive specification
    function.
  - Lemmas state what the tree holds:
    - the empty dict for no instance;
    - the circular marker for a key already on the path;
    - columns first, in mapper order, with dates as ISO text;
    - then the loaded, non-None relationships;
    - lists ordered by id;
    - the sort's TypeError when an id is missing;
    - only TypeError ever escapes;
    - the tree is bounded in depth by the number of keys;
    - a concrete graph where a shared child is expanded under both siblings,
      while the back-link to an ancestor is cut.
- Support modules:
  - `Wrappers`: Option, and exceptions as values.
  - `PyStr`: Python `str.split`, `rsplit`, substring search and `str(int)`.
  - `PyDict`: an insertion-ordered dict, where assigning to a present key
    keeps that key's place.
  - `IsoFormat`: `date.isoformat()` and naive `datetime.isoformat()`, each with
    a parse-back round trip.

Every call to an outside service becomes an input of the model:

- the Mythic login;
- the task output;
- the active-callback and payload lists;
- the g4f provider replies;
- the Ollama reply;
- the `LLMSERVICE__LOCAL` environment value.

Two behaviours of the gate and the step builder are worth stating plainly:

- The deny-list check is exact list membership (`cmd not in UNSAFE_CMD`). A
  command that merely contains a deny-list entry passes.
- A backend failure is not recorded as a failed step. The backend's exception
  propagates out of `check_and_process_local_cmd`, and no step is built.

## Model

| member | source | states |
|---|---|---|
| Config.PhasesShape | backend/app/core/config.py:137-143 | There are 18 phases, the first is "Reconnaissance" (the phase a new chain starts in) and the last is "Objectives". |
| Config.PhasesDistinct | backend/app/core/config.py:137-143 | No phase name occurs twice. |
| Config.CommandTableCoversPhases | backend/app/core/config.py:354-431 | The keys of `PHASE_COMMANDS` are exactly the 18 phases, in phase order, and every phase lists at least one command. |
| Config.CommandTableKeysDistinct | backend/app/core/config.py:354-431 | No phase is a key of `PHASE_COMMANDS` twice. |
| Config.CommandsOfEveryPhase | backend/app/core/config.py:354-431 | For every phase, `PHASE_COMMANDS[phase]` gives the commands listed at that phase's position, and there is at least one. |
| PyDict.GetFinds | backend/app/core/config.py:354-431 | In a dict with distinct keys, looking up the key of any entry returns that entry's value. |
| Config.UnsafeCmdShape | backend/app/core/config.py:433-434 | The deny-list has six entries, with no repeats. |
| Config.NoCanonicalCommandIsUnsafe | backend/app/core/config.py:354-434 | No canonical command of any phase is a deny-list entry. |
| Config.ImpactCommands | backend/app/core/config.py:423-426 | The Impact phase lists "rm -rf /important/data" and then "shutdown -h now". |
| Config.ImpactCommandHasUnsafePrefix | backend/app/core/config.py:424 | The Impact command contains the deny entry "rm -rf /" without being a deny entry. A substring gate would reject it; the exact gate admits it. |
| Proc.CopiesAgree | backend/app/cmd/proc.py:9-18 | The module's own copies of the phase names and of the deny-list equal the catalog's, entry for entry and in order. |
| Proc.GetAgentStatus | backend/app/cmd/proc.py:29-32 | A failing callback listing propagates its error. Otherwise the result is "success" exactly when some active callback has the display id, and "fail" otherwise. |
| Proc.CheckAndProcessLocalCmd | backend/app/cmd/proc.py:35-57 | A deny-list entry raises AssertionError. Past the gate, the backend's error propagates. With a backend answer, the call raises exactly when the command is blank, and then the error is IndexError. A returned step has status "success". |
| Proc.UnsafeCommandRejected | backend/app/cmd/proc.py:40-44 | A deny-list entry raises AssertionError whatever the backend would answer, so the backend is never consulted. |
| Proc.BuiltStep | backend/app/cmd/proc.py:35-57 | A step is returned exactly when the command is not a deny entry, the backend answered and the command is not blank. The step then carries the chain id, phase and command unchanged, the first whitespace-delimited word as tool name, the backend's output, task id, payload id and payload uuid in their fields, and status "success". |
| Proc.BlankCommandReachesBackend | backend/app/cmd/proc.py:40-49 | A blank command passes the gate. The backend's error propagates, and a backend answer leads to IndexError with no step built. |
| Proc.GateIsExactMembership | backend/app/cmd/proc.py:40 | "rm -rf /" is refused, while "sudo rm -rf /" and "rm -rf / " contain it and still pass. |
| Proc.CanonicalCommandsPassGate | backend/app/cmd/proc.py:40 | Every canonical catalog command passes the gate. |
| Proc.StepFromLocalExecution | backend/app/cmd/proc.py:42-56 | With `execute_local_command` as the backend, a step is built exactly when the command passes the gate, is not blank and the execution succeeds. The step's log is the shell task's output on the connection then open, its task id is the display id, and its payload ids are what `get_payload_ids` reads on that connection. |
| PyStr.SplitEmpty | backend/app/cmd/proc.py:49 | `cmd.split()` is empty exactly when the command is all whitespace. |
| PyStr.SplitWords | backend/app/cmd/proc.py:49 | Every word of `cmd.split()` is non-empty and holds no whitespace. |
| PyStr.SplitFirstWord | backend/app/cmd/proc.py:49 | For a non-blank command, `cmd.split()[0]` is its first maximal run of non-whitespace characters, with the whitespace before it skipped. |
| C2Tool.HasDisplayId | backend/app/cmd/c2_tool.py:48 | `any(...)` holds exactly when some active callback's `display_id` equals the argument. |
| C2Tool.CheckStatusResult | backend/app/cmd/c2_tool.py:38-53 | A failing listing propagates its error. Otherwise the result is "success" exactly when some callback matches, and "fail" otherwise, including when the list is empty. No third value occurs. |
| C2Tool.MythicModule.CheckStatus | backend/app/cmd/c2_tool.py:38-53 | The method lists the active callbacks on the current connection, None included, and returns `CheckStatusResult` of that listing. |
| C2Tool.PayloadIdsResult | backend/app/cmd/c2_tool.py:56-61 | A failing listing propagates its error. An empty payload list raises IndexError and a null `filemetum` raises AttributeError. A missing `filemetum` gives (None, None). A present one gives the first payload's `id` and `agent_file_id`, each None when missing. |
| C2Tool.MythicModule.GetPayloadIds | backend/app/cmd/c2_tool.py:56-61 | The method lists the payloads on the current connection, None included, and returns `PayloadIdsResult` of that listing. |
| C2Tool.PayloadIdsReadFirstOnly | backend/app/cmd/c2_tool.py:56-61 | The result does not depend on the display id or on any payload after the first. |
| C2Tool.ConnectionAfter | backend/app/cmd/c2_tool.py:68-70 | An existing connection is kept. Without one, a successful login's connection is there afterwards, and after a failed login there is still none. |
| C2Tool.ExecuteLocalCommandResult | backend/app/cmd/c2_tool.py:64-83 | A failed first login raises the login's error. On the connection then open, a failing "shell" task (the command, timeout 500) raises its error, and then a failing payload read raises its error. Otherwise the result is the task output, the display id as task id, and the payload identifiers read. |
| C2Tool.MythicModule.constructor | backend/app/cmd/c2_tool.py:12 | At import time there is no connection. |
| C2Tool.MythicModule.InitMythic | backend/app/cmd/c2_tool.py:16-35 | Returns the login. A successful login replaces the global connection; a failed one leaves the global as it was. |
| C2Tool.OnStartup | backend/app/main.py:77-84 | At startup the module logs in at once. A successful login becomes the global connection, and a failed one is swallowed and leaves the global as it was. |
| C2Tool.MythicModule.ExecuteLocalCommand | backend/app/cmd/c2_tool.py:64-83 | The result is `ExecuteLocalCommandResult` of the state before the call. The global connection becomes `ConnectionAfter`, and an existing one is never replaced. |
| C2Tool.ConnectionIsLazyAndSticky | backend/app/cmd/c2_tool.py:68-70 | Once a connection exists, later logins play no part. After a failed first login, the next call behaves as if it were the first. |
| C2Tool.LocalExecutionShape | backend/app/cmd/c2_tool.py:68-83 | A successful execution had a connection, and its output is the shell task's output on it. It reports the display id as task id and the identifiers of the first payload alone, so the payload list was not empty. |
| IsoFormat.DigitsRoundTrip | backend/app/api/endpoints/kill_chain.py:53-54 | Zero-padded decimal digits read back as the number. |
| IsoFormat.DigitsValueInjective | backend/app/api/endpoints/kill_chain.py:53-54 | Two digit strings of one width that denote the same number are the same text. |
| IsoFormat.IsoDate | backend/app/api/endpoints/kill_chain.py:53-54 | `date.isoformat()` is ten characters with '-' at positions 4 and 7 and a decimal digit everywhere else. |
| IsoFormat.IsoDateRoundTrip | backend/app/api/endpoints/kill_chain.py:53-54 | Parsing the ISO text of a valid date gives the date back. |
| IsoFormat.IsoDateDetermined | backend/app/api/endpoints/kill_chain.py:53-54 | Any text shaped "YYYY-MM-DD" that reads back as a date is exactly that date's ISO text. |
| IsoFormat.ClockText | backend/app/api/endpoints/kill_chain.py:53-54 | The clock is "HH:MM:SS" with ':' at positions 2 and 5 and digits elsewhere. When microseconds are non-zero, and only then, it continues with '.' and six digits. |
| IsoFormat.IsoDateTime | backend/app/api/endpoints/kill_chain.py:53-54 | `datetime.isoformat()` is the date's ISO text, then 'T', then the clock text. It is 26 characters exactly when microseconds are non-zero, and 19 otherwise. |
| IsoFormat.ClockRoundTrip | backend/app/api/endpoints/kill_chain.py:53-54 | Parsing the clock text gives the time back, microseconds included. |
| IsoFormat.IsoDateTimeRoundTrip | backend/app/api/endpoints/kill_chain.py:53-54 | Parsing the ISO text of a valid date-time gives it back. |
| IsoFormat.ClockDetermined | backend/app/api/endpoints/kill_chain.py:53-54 | Any clock-shaped text that reads back as a time, with a fraction exactly when the microseconds are non-zero, is exactly that time's ISO text. |
| IsoFormat.IsoDateTimeDetermined | backend/app/api/endpoints/kill_chain.py:53-54 | Any ISO-shaped date-time text that reads back as a date-time is exactly its ISO text. Together with the round trip, the text and the value determine each other. |
| LlmAnalysis.LocalFlagIsRawString | backend/app/cmd/llm_analysis.py:15-16 | "false" and "0" select the local model. Only an unset or empty variable selects the providers. |
| PyStr.RSplitOnce | backend/app/cmd/llm_analysis.py:53 | `rsplit(sep, 1)` gives one part, the whole text, when `sep` does not occur. Otherwise it gives two parts around the last occurrence: the first part ends where that occurrence starts, and the second part does not contain `sep`. |
| LlmAnalysis.StripThink | backend/app/cmd/llm_analysis.py:53-54 | The result is a suffix of the reply and never contains "</think>". It is the whole reply when the tag does not occur; otherwise the reply is the text before the last tag, the tag, and the result. |
| PyDict.Get | backend/app/cmd/llm_analysis.py:59-60 | `name in self.providers` holds exactly when the table has that key, and `self.providers[name]` is the provider stored under it. |
| LlmAnalysis.FirstUsable | backend/app/cmd/llm_analysis.py:74-86 | None exactly when no provider gives a non-empty reply. Otherwise the answer is some provider's non-empty reply, and every earlier provider failed or gave an empty reply. |
| LlmAnalysis.LocalAnswer | backend/app/cmd/llm_analysis.py:46-54 | The Ollama error propagates. A reply gives exactly `StripThink` of it: a suffix that never contains "</think>", and the whole reply when the tag does not occur. |
| LlmAnalysis.G4fAnswer | backend/app/cmd/llm_analysis.py:56-88 | A known name returns that provider's reply, or raises HTTP 500 "Provider <name> failed: <error>". Otherwise the call never raises. When some provider gives a non-empty reply, the answer is the first such reply in table order, every earlier provider having failed or replied empty. When none does, it is the fixed message. |
| LlmAnalysis.QueryAnswer | backend/app/cmd/llm_analysis.py:30-44 | Every error is HTTP 500 with the fixed prefix. In local mode the call succeeds exactly when Ollama answers, and then gives `LocalAnswer`. In provider mode it succeeds exactly when `G4fAnswer` does, and then gives its answer. |
| LlmAnalysis.LlmService.constructor | backend/app/cmd/llm_analysis.py:23-28 | The provider table is aichat, bing, you, in that order. |
| LlmAnalysis.LlmService.G4fLlm | backend/app/cmd/llm_analysis.py:56-88 | The method, with its loop over the providers, returns exactly what `G4fAnswer` specifies. |
| LlmAnalysis.LlmService.QueryLlm | backend/app/cmd/llm_analysis.py:30-44 | The method returns exactly what `QueryAnswer` specifies. |
| LlmAnalysis.NamedProviderAlone | backend/app/cmd/llm_analysis.py:59-72 | A known name asks only that provider. Its reply is returned as is, even when empty, and its failure raises HTTP 500 "Provider <name> failed: <error>". Other providers' replies do not matter. |
| LlmAnalysis.FallbackOrder | backend/app/cmd/llm_analysis.py:74-88 | With no name, an empty name or an unknown name, the answer is the first non-empty reply of aichat, bing, you, or else the fixed message. This path never raises. |
| LlmAnalysis.QueryErrorsAreWrapped | backend/app/cmd/llm_analysis.py:35-44 | Every error leaving `query_llm` is HTTP 500 whose detail starts with the fixed prefix. A local-model error keeps its text after the prefix. |
| LlmAnalysis.ModeSelection | backend/app/cmd/llm_analysis.py:36-39 | In local mode the answer is the stripped local reply. In provider mode the local model plays no part. |
| LlmAnalysis.StatusText500 | backend/app/cmd/llm_analysis.py:43 | `str(500)` is "500", so an HTTP 500 exception reads as "500: " followed by its detail, whatever the detail. |
| LlmAnalysis.NamedProviderFailureText | backend/app/cmd/llm_analysis.py:42-44 | A failing named provider reaches the caller as HTTP 500 with detail "<prefix>500: Provider <name> failed: <error>". |
| PyDict.PutThenGet | backend/app/api/endpoints/kill_chain.py:54-56 | After `data[k] = v`, `data[k]` is `v` and every other key keeps its value. |
| PyDict.PutKeys | backend/app/api/endpoints/kill_chain.py:54-56 | Assigning to a new key appends it; assigning to a present key leaves the key order unchanged. |
| PyDict.PutKeepsKeysDistinct | backend/app/api/endpoints/kill_chain.py:54-56 | Assignment never duplicates a key. |
| KillChainExport.UnvisitedShrinks | backend/app/api/endpoints/kill_chain.py:42-45 | Adding an unvisited key leaves one key fewer to visit. This is the termination measure of the recursion. |
| KillChainExport.Exported | backend/app/api/endpoints/kill_chain.py:50-56 | A date becomes the text `date.isoformat()` gives, and a date-time the text `datetime.isoformat()` gives, so no date or date-time survives. Every other value is copied unchanged. |
| KillChainExport.ExportedReadsBack | backend/app/api/endpoints/kill_chain.py:53-54 | The text written for a date is "YYYY-MM-DD" with digits in every field. The text for a date-time is that date layout, then 'T', then "HH:MM:SS" with an optional '.' and six digits. Either text reads back as the value it came from. |
| KillChainExport.SortById | backend/app/api/endpoints/kill_chain.py:67 | The result is ordered by ascending id and is a permutation of the input. |
| KillChainExport.SortChildren | backend/app/api/endpoints/kill_chain.py:66-67 | The sort raises exactly when there are two or more objects and one lacks an id, and then the error is TypeError. Otherwise the result is a permutation of the input, ordered by id when it has two or more elements. |
| KillChainExport.Collect | backend/app/api/endpoints/kill_chain.py:69-72 | The list comprehension succeeds exactly when every element does, and then it is their values in order. Otherwise the error is the first element's error. |
| KillChainExport.CollectErrorSticks | backend/app/api/endpoints/kill_chain.py:69-72 | After an element raises, later elements do not change the outcome. |
| KillChainExport.Assemble | backend/app/api/endpoints/kill_chain.py:58-76 | The relationship loop succeeds exactly when no contribution raises. Otherwise its error is the one the first raising contribution raised. |
| KillChainExport.AssembleKeys | backend/app/api/endpoints/kill_chain.py:58-76 | With distinct keys not already in the dict, the loop appends the keys of the present contributions, in order. |
| KillChainExport.AssembleGets | backend/app/api/endpoints/kill_chain.py:58-76 | Each present contribution is what the dict holds under its key. |
| KillChainExport.ResultToDictRecursive | backend/app/api/endpoints/kill_chain.py:28-77 | The method's tree or exception is `ToDict`. The caller's visited set gains the instance's key. |
| KillChainExport.ColumnValues | backend/app/api/endpoints/kill_chain.py:50-56 | The column loop builds the dict `ColumnsDict` specifies. |
| KillChainExport.RelationshipValue | backend/app/api/endpoints/kill_chain.py:58-76 | One step of the relationship loop contributes what `RelEntry` specifies. |
| KillChainExport.ChildValues | backend/app/api/endpoints/kill_chain.py:69-72 | The comprehension over the sorted children gives the `Collect` of their trees, each built with its own copy of the visited set. |
| KillChainExport.NoneAndRepeatedKey | backend/app/api/endpoints/kill_chain.py:39-44 | No instance gives `{}`. An instance whose key is already visited gives exactly `{'id': id, '__ref__': 'Circular'}`. |
| KillChainExport.ObjectsWithoutIdShareKey | backend/app/api/endpoints/kill_chain.py:42-44 | Two objects of one class that both lack an id share a key, so once one is on the path the other is cut too. |
| KillChainExport.ColumnsDictSpec | backend/app/api/endpoints/kill_chain.py:50-56 | With distinct column keys, every column appears as a key, in mapper order, holding its exported value. |
| KillChainExport.RelEntryPresence | backend/app/api/endpoints/kill_chain.py:58-63 | A relationship contributes an entry exactly when it is loaded and not None. |
| KillChainExport.ObjectOutcome | backend/app/api/endpoints/kill_chain.py:45-77 | An object met for the first time is serialised exactly when none of its relationships raises, and then it is a dict. Otherwise the error of its first raising relationship, in mapper order, escapes. |
| KillChainExport.ObjectEntries | backend/app/api/endpoints/kill_chain.py:48-77 | The dict's keys are the column keys and then the keys of the loaded, non-None relationships, both in mapper order. Each column holds its exported value and each such relationship holds its contribution. |
| KillChainExport.ScalarRelationship | backend/app/api/endpoints/kill_chain.py:73-76 | A scalar relationship holds the related object's tree, built with the parent's key added. A target with the parent's own key becomes the marker. |
| KillChainExport.ListRelationship | backend/app/api/endpoints/kill_chain.py:64-72 | Two or more children with a missing id raise TypeError. Otherwise the list holds one tree per child, in ascending id order, each built with the parent's key added, or the first child's error escapes. |
| KillChainExport.ToDict | backend/app/api/endpoints/kill_chain.py:28-77 | A tree is always a dict. An exception escapes only from an object met for the first time, and it is the error of that object's first raising relationship. |
| KillChainExport.ToDictShape | backend/app/api/endpoints/kill_chain.py:28-77 | Only TypeError ever escapes, and nothing escapes when every listed object has an id. The tree holds no date, and its depth is at most twice the number of unvisited keys plus one. |
| KillChainExport.StepBelowChain | backend/app/api/endpoints/kill_chain.py:42-45 | A step written below its chain has its link back to the chain cut to the marker. |
| KillChainExport.SiblingsAreNotCut | backend/app/api/endpoints/kill_chain.py:70-75 | A step reached through two sibling relationships is written out in full under both, because each child gets its own copy of the visited set. |

## Left out

- HTTP endpoints, database sessions and schemas are not modelled, including `prepare_export_data` and the `export_json`/`export_yaml` streams. The AssertionError-to-400 mapping is transport only.
- Settings loading, logging, prompt templates and credentials are not modelled. Environment values appear only where they decide behaviour (`LLMSERVICE__LOCAL`).
- `await`, async scheduling and `print` are not modelled. The awaited calls run one after another.
- The Mythic, g4f and Ollama services are outside the model. Their answers are inputs.
- C2Tool.ExecuteLocalCommandResult: the output of a task is taken as the text `str(output)` already gives; what Mythic returns and how it prints is outside the model.
- LlmAnalysis.ExceptionText: `str(e)` is fixed text for the four built-in exceptions. The TypeError text is the one `None < int` gives; with the operands the other way round Python swaps the two type names, and the model does not track which order the sort compared.
- LlmAnalysis.G4fAnswer: a provider reply is text. A None reply, which the fallback loop would skip, is represented by the empty string.
- KillChainExport.ToDict: column values are None, bool, int, text, naive date and naive date-time. Floats, time-zone-aware date-times and other mapped types are not modelled. The ORM mapper is an explicit graph of columns and relationships.
- KillChainExport.ResultToDictRecursive: `visited.add` changes the caller's set in place. The model returns the new set as a value instead, so aliasing of that set is not captured. Each child already receives a copy.
- KillChainExport.ResultToDictRecursive: the relationship loop is proved against a specification that computes every relationship's contribution first. The two agree because each contribution depends only on the graph and the visited set, so no order of side effects is lost.
- KillChainExport.SortById: the result is stated to be ordered by id and a permutation of the input. The stability of Python's sort, which keeps objects with equal ids in their original order, is not stated.
- C2Tool.OnStartup: the warning the startup hook prints when the login fails is not modelled. Only its effect on the connection is.
- KillChainExport.SortChildren: `related_list.sort` sorts a fresh list in place; the model returns the sorted sequence. The result is stated to be ordered and a permutation. The stability of Python's sort for equal ids is not stated.
- KillChainExport.ToDictShape: the depth bound is an upper bound in terms of the unvisited keys, not the exact depth.
- Phase advance and setting, a per-phase allow-list, multi-type dispatch and chain replay with cancellation are not modelled. None of them has an implementation in the repository's code.
