# Kali AI Terminal: workflow engine and command engine in Dafny

This project models the decision logic of the Kali AI Terminal backend and proves properties of it. Everything that talks to the outside world is an input to the model:

- **Workflow engine** (`backend/core/workflow_engine.py`). A natural-language request goes through a thinking → planning → execution pipeline.
  - Thinking: lexical classifiers pick an intent, a target, a risk word and the required capabilities. A language-model reply is kept beside them and replaced by a fallback notice when the call fails.
  - Planning: a fixed step template is chosen per intent and assembled into a plan.
  - Execution: the steps are dispatched on their operation type and run in order until a critical step fails. The results are then folded into a summary.
  - The engine walks IDLE → THINKING → PLANNING → EXECUTING → COMPLETED, or falls into ERROR when an exception escapes a phase.
- **Command engine** (`backend/core/command_engine.py`).
  - A deny-list validator and a first-token classifier.
  - A follow-up predictor whose answer order is unspecified.
  - A three-rule output analyzer.
  - The mapping from a process outcome (exited, timed out, failed to start) to a result record.
  - `process_command`, which blocks denied commands before they run.
  - The history tail slice.
- **Simulated server handlers** (`backend/server.py`). The prefix-dispatched tool reply and the keyword-precedence AI reply.

The regular expressions of `_extract_target` are modelled by deterministic scanners (`Patterns.Ipv4End`, `Patterns.DomainEnd`). Each is proved equal to a declarative description of the text the regex accepts (`Patterns.Matches`), and the search is proved to report the leftmost match.

## Where the code departs from its documentation or tests

The model follows the code in each of these cases:

- **Target "local".** `_extract_target` answers "127.0.0.1" for any request containing "local" without a dotted address or domain. The repository's own test expects "unknown" for "Analyze the local network topology" (`backend/test_backend.py:80-82`). `Intent.LocalNetworkTarget` proves the code's answer.
- **Failed-step count.** `failed_steps` is `total_steps - successful_steps`, so steps skipped after a critical failure count as failed. A critical first step that fails in a two-step plan gives `failed_steps == 2` (`Executor.CriticalFirstStepAborts`).
- **Missing methods.** `IntelligentCommandEngine` has no `execute_command` method and `NetworkMonitor` has no `get_network_info` method. So these handlers always raise `AttributeError`, and their steps always fail with that message:
  - the reconnaissance fallback route;
  - the tool-step fallback route;
  - the generic handler;
  - the network-analysis handler.

  The exception is caught by `_execute_workflow_step` (`Executor.RouteFor`, `Executor.NetworkStepsFail`, `Pipeline.NetworkRequestsFail`).
- **Shadowed deny-list entry.** The entry "curl | sh" can never be the one reported, because every command containing it also contains the earlier entry "curl" (`Validator.CurlPipeShShadowed`).
- **Bare-substring matching.** The entry "format" is matched as a bare substring, so `cat information.txt` is denied (`Validator.InformationIsDenied`).
- **Unreachable error branch.** `SecurityToolsHandler.execute_command` cannot reach its `except` branch: formatting strings with `str` arguments does not raise. So the tool is always nmap, sqlmap or terminal, and progress is always 10, 15 or 100.

## Model

| member | source | states |
|---|---|---|
| `Keywords.FirstWordIn` | backend/core/command_engine.py:42-47 | the index of the first table entry occurring in the text, or the table length when none does; every earlier entry is absent |
| `Keywords.FirstRuleIn` | backend/core/workflow_engine.py:485-496 | the first keyword group with a word in the text; every earlier group has none |
| `Text.FirstField` | backend/core/command_engine.py:50-52 | `split()` yields no field exactly when the command is all whitespace; otherwise the first field starts at the first non-space character and runs to the next whitespace |
| `Text.FirstFieldUnique` | backend/core/command_engine.py:50-52 | any field that starts after leading whitespace and ends at whitespace or the end is the one `split()[0]` returns |
| `Validator.Validate` | backend/core/command_engine.py:35-65 | denied exactly when a deny-list entry occurs in the lower-cased command, exactly when the level is 10; an allowed command has level 0, 2 or 5; at most two warnings, none only when allowed |
| `Validator.DeniedReport` | backend/core/command_engine.py:42-47 | a denied command's first warning names the earliest entry in table order, and exactly one warning carries the danger prefix |
| `Validator.FieldClassification` | backend/core/command_engine.py:50-58 | the case-sensitive first field: a security tool raises the level to at least 2 with a "Security tool" warning, a non-benign field to at least 5 with an "Unknown command" warning, a benign or missing field changes nothing |
| `Validator.CurlPipeShShadowed` | backend/core/command_engine.py:20-23 | the entry "curl \| sh" is never the reported match |
| `Validator.CurlBeforePipe` | backend/core/command_engine.py:42-47 | the deny-list scan never stops at the last entry |
| `Validator.InformationIsDenied` | backend/core/command_engine.py:20-23 | "cat information.txt" is denied with level 10 |
| `Validator.CountStartingWithAppend` | backend/core/command_engine.py:45-58 | warnings with a given prefix add up over appended warning lists |
| `Predictor.Suggestions` | backend/core/command_engine.py:86-88 | a command is suggested exactly when it is among the first three follow-ups of a key occurring in the lower-cased input |
| `Predictor.TakeDistinct` | backend/core/command_engine.py:91-95 | de-duplication through a set and the cap: distinct members of the set, as many as the set has up to the cap |
| `Predictor.PredictNextCommands` | backend/core/command_engine.py:81-95 | predictions are duplicate-free, never the input itself, each a top-three follow-up of a matching key, min(5, number of candidates) of them, and none when no key matches |
| `Analyzer.FiredInOrder` | backend/core/command_engine.py:122-134 | whichever rules fire, their findings come in the order the rules are checked, each at most once |
| `Analyzer.AnalyzeOutput` | backend/core/command_engine.py:108-136 | risk high iff "vulnerable" occurs, else medium iff "open" and "port" occur, else low; each finding is present iff its rule fires and is paired with its recommendation; findings appear at most once each, in the order open ports, vulnerabilities, large output; large output adds a finding without touching risk; output length and command are recorded |
| `CommandEngine.ExecuteOutcome` | backend/core/command_engine.py:230-268 | success iff the process exited with code 0 (iff the return code is 0); a timeout gives empty output, the timeout message, code -1 and 30 seconds; a spawn failure gives empty output, its message and code -1 |
| `CommandEngine.Blocked` | backend/core/command_engine.py:163-171 | a blocked answer is unsuccessful with error "Security violation", no predictions and no insights |
| `CommandEngine.ProcessCommand` | backend/core/command_engine.py:152-198 | a denied command gets the blocked answer and leaves history unchanged whatever the process would do; an allowed one is answered from the process outcome with its insights and predictions, and one history entry is appended |
| `CommandEngine.SliceFrom` | backend/core/command_engine.py:272 | Python's `h[start:]` is a suffix of `h` |
| `CommandEngine.CommandHistory` | backend/core/command_engine.py:270-272 | the last `limit` entries for a positive limit, the whole list when the limit is at least its length, the whole list for limit 0, all but the first `-limit` for a negative limit; always a suffix |
| `Patterns.Run` | backend/core/workflow_engine.py:501-507 | a greedy repetition stays inside the text and stops at its end or at the first character outside the class |
| `Patterns.RunInClass` | backend/core/workflow_engine.py:501-507 | every character a greedy repetition consumes belongs to its class |
| `Patterns.RunExact` | backend/core/workflow_engine.py:501-507 | a stretch of class characters that ends at the text's end or at a character outside the class is exactly what the repetition consumes |
| `Patterns.MatchEnd` | backend/core/workflow_engine.py:501-507 | a match found from an index ends after it |
| `Patterns.Ipv4EndSound` | backend/core/workflow_engine.py:501 | the IPv4 scanner only reports dotted quads of 1-3 digit groups between word boundaries |
| `Patterns.Ipv4EndComplete` | backend/core/workflow_engine.py:501 | every such dotted quad starting at an index is what the scanner reports there |
| `Patterns.DomainEndSound` | backend/core/workflow_engine.py:507 | the domain scanner only reports label-dot-letters spans between word boundaries |
| `Patterns.DomainEndComplete` | backend/core/workflow_engine.py:507 | every such span starting at an index is what the scanner reports there |
| `Patterns.MatchEndSpec` | backend/core/workflow_engine.py:501-508 | the scanners accept exactly the declared matches |
| `Patterns.SearchFrom` | backend/core/workflow_engine.py:502-508 | a reported span starts at or after the given index and is a match the scanner accepts |
| `Patterns.SearchFromLeftmost` | backend/core/workflow_engine.py:502-508 | no match starts between the given index and the reported one |
| `Patterns.SearchFromNone` | backend/core/workflow_engine.py:502-508 | nothing is reported only when no match starts at or after the given index |
| `Patterns.SearchSpec` | backend/core/workflow_engine.py:502-508 | `re.search` reports the leftmost match, and nothing only when nothing matches |
| `Patterns.NoDotNoMatch` | backend/core/workflow_engine.py:501-508 | text without a dot matches neither pattern |
| `Intent.ExtractIntent` | backend/core/workflow_engine.py:481-496 | each intent holds exactly when its group matches and no earlier group does; reconnaissance also when nothing matches |
| `Intent.ExtractTarget` | backend/core/workflow_engine.py:498-516 | the target is never empty |
| `Intent.LeftmostIsSearch` | backend/core/workflow_engine.py:502-508 | a leftmost match is the one the search reports |
| `Intent.TargetSpec` | backend/core/workflow_engine.py:498-516 | the leftmost IPv4 match wins, then the leftmost domain match, then "127.0.0.1" exactly when a local word occurs, else "unknown" |
| `Intent.LocalNetworkTarget` | backend/core/workflow_engine.py:513-514 | "Analyze the local network topology" has target "127.0.0.1" and intent network_analysis |
| `Intent.AssessRisk` | backend/core/workflow_engine.py:518-527 | high iff a high-risk word occurs, medium iff none does and a medium-risk word does, low otherwise; never critical |
| `Intent.RequiredCapabilities` | backend/core/workflow_engine.py:529-543 | a capability is listed iff its keyword occurs; the list is strictly ordered as port_scanning, vulnerability_assessment, exploitation_framework, network_analysis, so duplicate-free and at most four long |
| `Intent.FallbackThinking` | backend/core/workflow_engine.py:545-555 | the fallback keeps the request, carries the fallback notice, a non-empty target and a non-critical risk |
| `Intent.ThinkingPhase` | backend/core/workflow_engine.py:184-206 | the analysis is the fallback notice exactly when the model call fails; apart from the analysis the result is the fallback analysis |
| `Intent.OracleOnlyChangesAnalysis` | backend/core/workflow_engine.py:184-206 | two model replies give thinking results that differ only in the analysis |
| `Planner.GenerateSteps` | backend/core/workflow_engine.py:418-479 | reconnaissance: step_1 (60s) then step_2 (120s), both low, step_2 depending on step_1; vulnerability scan: one 180s medium step; network analysis: one 30s low step; otherwise none; ids unique, dependencies earlier, no critical step, every step carries the target |
| `Planner.PlanningPhase` | backend/core/workflow_engine.py:208-244 | the plan is the intent's template on the target; step count is its length; estimated time is the sum of durations (180, 180, 30 or 0 per intent); approval is required iff risk is high or critical |
| `Planner.ApprovalFromRequest` | backend/core/workflow_engine.py:235-241 | a request's plan needs approval iff the request carries a high-risk word |
| `Planner.TotalDurationAppend` | backend/core/workflow_engine.py:228 | the duration sum is additive over concatenated step lists |
| `Planner.ReconStepsRunTheirCommand` | backend/core/security_tools.py:138-143 | the nmap command built from a reconnaissance step's scan type and target is the step's own command text |
| `Executor.RouteFor` | backend/core/workflow_engine.py:315-416 | network and generic steps always reach a missing method; vulnerability steps always call the scanner; reconnaissance calls a tool iff its command mentions nmap or dirb; tool steps iff their tool is metasploit, sqlmap or hydra |
| `Executor.ExecuteStep` | backend/core/workflow_engine.py:315-416 | an exception gives a failed result with its message, empty output and no artifacts; otherwise no error and one artifact (none for generic steps), with the tool's success and output passed through, and a started vulnerability scan reported as success |
| `Executor.NetworkStepsFail` | backend/core/workflow_engine.py:398-406 | a network-analysis step always fails with the missing `get_network_info` message |
| `Executor.RecordStep` | backend/core/workflow_engine.py:269-276 | the recorded result carries the step id, the handler's success and the elapsed time |
| `Executor.RunFrom` | backend/core/workflow_engine.py:258-284 | one result per step in listed order, continuing past every step that does not halt and stopping right after a failed critical step |
| `Executor.RunSteps` | backend/core/workflow_engine.py:255-284 | the run of a whole plan; never more results than steps |
| `Executor.RunsFromTail` | backend/core/workflow_engine.py:258-284 | after a step that does not halt, the remaining results are a run of the remaining steps |
| `Executor.RunsFromIsRunFrom` | backend/core/workflow_engine.py:258-284 | from any step, every sequence of results the stop rule allows is the one `RunFrom` records |
| `Executor.RunIsDetermined` | backend/core/workflow_engine.py:258-284 | the stop rule allows exactly one sequence of results |
| `Executor.NoCriticalRunsAll` | backend/core/workflow_engine.py:281-284 | a plan without critical steps runs every step |
| `Executor.CountSuccesses` | backend/core/workflow_engine.py:299 | at most the number of results; all of them iff every result succeeded; none iff none did |
| `Executor.CountSuccessesSnoc` | backend/core/workflow_engine.py:299 | appending a result adds one to the success count exactly when it succeeded |
| `Executor.CountIsSuccessIndices` | backend/core/workflow_engine.py:299 | the success count is the number of positions holding a successful result |
| `Executor.SuccessRate` | backend/core/workflow_engine.py:306 | 0 when there are no steps, otherwise between 0 and 100, and 100 exactly when every step succeeded |
| `Executor.ArtifactCountBound` | backend/core/workflow_engine.py:309 | with at most one artifact per result, there are at most as many artifacts as results |
| `Executor.Summarize` | backend/core/workflow_engine.py:298-310 | the successful count is the number of successful results; successful + failed = total, so unexecuted steps count as failed; the rate is successful / total × 100, 0 for an empty plan, between 0 and 100, and 100 exactly when nothing failed; the time is the sum of the results' times and the artifact count the sum of their artifact-list lengths |
| `Executor.ExecutionPhase` | backend/core/workflow_engine.py:246-313 | the summary's results are the run of the plan under the stop rule, at most one per step, with at most one artifact each; its counts, rate, time and artifact total are those of that run |
| `Executor.CriticalFirstStepAborts` | backend/core/workflow_engine.py:281-305 | a failing critical first step leaves one result, no success, and every step counted as failed |
| `Pipeline.ProcessRequest` | backend/core/workflow_engine.py:121-158 | without a fault: THINKING, PLANNING, EXECUTING, COMPLETED and status "success", the plan current and the results logged; with one: the states up to the failing phase then ERROR, the new plan current after an execution fault and the previous one otherwise, status "error" with the message and state error; every move is a valid transition |
| `Pipeline.FailedTraceValid` | backend/core/workflow_engine.py:126-158 | the states of a failing request are valid transitions from any prior state |
| `Pipeline.CompletedTraceValid` | backend/core/workflow_engine.py:126-141 | the states of a completed request are valid transitions from any prior state |
| `Pipeline.IsReady` | backend/core/workflow_engine.py:566-572 | a ready engine is not in ERROR |
| `Pipeline.ReadinessAfterRequest` | backend/core/workflow_engine.py:566-572 | after a failed request the engine is not ready; after a successful one it is exactly as ready as the tools |
| `Pipeline.OracleDoesNotSteer` | backend/core/workflow_engine.py:184-206 | the model reply changes neither the engine, nor the states, nor the status, nor the plan, nor the execution |
| `Pipeline.GeneratedPlansRunToEnd` | backend/core/workflow_engine.py:418-479 | generated plans have no critical step, so every planned step executes |
| `Pipeline.NetworkRequestsFail` | backend/core/workflow_engine.py:464-477 | a network-analysis request runs one step, which fails with the missing-method message |
| `Pipeline.ApprovalNeedsHighRiskWord` | backend/core/workflow_engine.py:240 | a completed request needs approval iff it carries a high-risk word |
| `ToolRouter.ExecuteCommand` | backend/server.py:69-91 | tool nmap iff the command starts with "nmap", sqlmap iff with "sqlmap", else terminal; status, progress (10, 15, 100) and output follow from the tool; a non-terminal tool is a prefix of the command |
| `ToolRouter.ScanOutputNamesTarget` | backend/server.py:71-84 | a scan reply's output names the target, or "localhost" for nmap without one |
| `ToolRouter.TerminalEchoesCommand` | backend/server.py:85-91 | the terminal reply gives the command back right after the "$ " prompt |
| `ToolRouter.ReplyKindFor` | backend/server.py:53-62 | "scan" beats "exploit", which beats "help", in the lower-cased query |
| `ToolRouter.ProcessQuery` | backend/server.py:53-62 | each reply kind is recognisable from its reply, and the exploit and default replies quote the query verbatim, the default one followed by its fixed closing text |
| `ToolRouter.QueryCaseInsensitive` | backend/server.py:55-59 | queries equal after lower-casing get the same reply kind |
| `ToolRouter.ScanTakesPrecedence` | backend/server.py:55-56 | a query mentioning "scan" gets the scan reply whatever else it says |

## Left out

- Timestamps and time-derived identifiers are left out: plan ids, `created_at`, and the timestamp fields of validation results, insights, history entries and thinking results.
- Execution times are whole seconds (`nat`) rather than floats, and `success_rate` is a Dafny `real`.
- Lower-casing, `\b` and word characters are ASCII only. `str.split()` uses Python's whitespace set.
- The regex engine itself is left out. The two patterns are specified directly and implemented by scanners proved equal to the specification.
- The language-model client (`DeepSeekAgent`) is left out. Its reply is an input (`Intent.OracleReply`), and the prompt text is not built.
- Serialising the context with `json.dumps` is left out. That call sits outside the thinking phase's `try` and can raise; the model treats it and every other escaping exception as a `Pipeline.Fault` input.
- Process spawning is left out: the choice between `cmd` and `bash`, the 1 MB stream limit, and kill/wait on timeout. The process outcome is an input (`CommandEngine.ProcessOutcome`).
- The external tools are inputs (`Executor.CallOutcome`): `SecurityToolManager`'s nmap, dirb, metasploit, sqlmap and hydra wrappers, and the vulnerability scanner's `start_scan`. `backend/core/vulnerability_scanner.py` is not part of this model, and neither is the `asyncio.sleep(2)` pause after starting a scan.
- The tool manager's `is_ready` is an input to `Pipeline.IsReady`. The command engine's `is_ready` always answers true.
- The `except` branch of `process_command` (command_engine.py:200-209) is left out. Nothing the model calls there raises, so the branch is unreachable.
- The per-step `except` of `_execution_phase` (workflow_engine.py:286-296) is left out. `_execute_workflow_step` already catches every exception from a handler, so this branch is unreachable.
- The `except` branch of `SecurityToolsHandler.execute_command` (server.py:92-98) is left out as unreachable. So the model never produces tool "error" or progress 0.
- The network handler's `json.dumps(network_info)` output is left out, because that path always raises first.
- `get_workflow_status`, `workflow_history` and the unused security knowledge base are left out: no modelled operation reads them.
- The caller's `context` is left out. The predictor ignores it and history entries' copies of it are not modelled.
- Predictor.PredictNextCommands: states the answer's contents and size but not its order, because the source's order is a Python set's iteration order.
- CommandEngine.ProcessCommand: states the predictions' contents and size but not their order, for the same reason.
- Pipeline.ProcessRequest: a fault in the planning phase is modelled as raised before the plan is stored, so the previous workflow stays current. In the source the plan is stored (workflow_engine.py:233) before the planning result is built, so an exception from building that result would leave the new plan current.
- Pipeline.ProcessRequest: a fault in the execution phase is modelled as raised before any step runs, so the engine's log is unchanged. In the source, such an exception cannot come from a step, since step handlers' exceptions are caught.
