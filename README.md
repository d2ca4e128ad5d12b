# ArcheTYPE core, modelled in Dafny

ArcheTYPE is a personal focus assistant for a Linux desktop. This project models the
deterministic rule and state logic that sits between its operating-system probes and its
language-model calls:

- the Flow Lock daemon's per-cycle decision (idle branch, whitelist/blacklist match,
  policy-gated kill, notification and correction);
- the Flow Lock state file and its command line;
- the score dashboard;
- the chat command parser;
- shadow mode's classifiers and drift de-duplication;
- task detection and task memory;
- the agent core's plan parser, command safety check, reasoning prompt and process snapshot;
- the rule engine and the canned command-line reply;
- the local adapter's few-shot prompt, retrieval fallback and guarded model call;
- the intent executor's command lines;
- the distillation filter and output file.

Time, probe outputs, file contents and responder replies are parameters. Side effects
(log lines, kills, notifications, responder requests, sleeps) are recorded as `Effects.Event`
lists. Objects whose fields the source updates in place are classes:

- `FlowControl.StateStore` holds the state file;
- `TaskMemory.TaskMemoryStore` holds the memory file;
- `ArchetypeCli.MemoryFile` holds memory.json;
- `IntentExecutor.Executor` holds the commands started;
- `Distill.Distiller` holds the output file and the console.

Every loop of the source is a `while` loop. Each is proved against a specification function,
and the properties are proved about that function.

Shared modules:

- `Wrappers`: Option and Result.
- `Text`: ASCII case mapping, substring search, `strip`, split at the first occurrence,
  `splitlines`, `~` expansion and number rendering.
- `Seqs`: filter, flat-map and an insertion sort with its sortedness and permutation lemmas.
- `Json`: a flat JSON value and a stored file that is missing, corrupt or a document.
- `Effects`: the event type.

## Model

The specification functions (`LockDaemon.Cycle`, `Scan`, `ProcStep`, `IdleBranch` and `Run`;
`FlowControl.Effect`, `Output` and `Logged`; `CommandMode.Parse`, `Effect`, `ReplyOf` and
`Logged`; `ShadowMode.DriftContext`, `HandleDrift`, `Step`, `FocusStep` and `Run`; `AgentCore.PlanOf`,
`RecentOf` and `PromptLines`; `LocalAdapter.CombinedPrompt`, `LlamaCommand` and
`LlamaCommandAsWritten`; `Distill.Pairs`, `Jsonl` and `JsonlAsWritten`;
`IntentExecutor.IntentCommands`) have no contract of their own. The methods that compute them
and the lemmas listed here state what they mean.

| member | source | states |
|---|---|---|
| LockDaemon.LoadList | flow_lock/lock_daemon.py:23-28 | A list file that is missing or not JSON loads as the empty list. |
| LockDaemon.LoadPolicy | flow_lock/lock_daemon.py:23-28 | The policy loads as the `[]` fallback exactly when the file is missing or not JSON. |
| LockDaemon.IdleMs | flow_lock/lock_daemon.py:39-49 | A failing idle probe reads as 0 ms. |
| LockDaemon.HandleIdle | flow_lock/lock_daemon.py:61-70 | The idle branch's events equal the specification: an optional correction request and its log line, the "Wake up." notification, a 20 s sleep. |
| LockDaemon.IdleAsksIff | flow_lock/lock_daemon.py:61-70 | The idle branch asks for exactly one correction, "I am idle for N minutes.", if and only if `correction_on_violation` is true. It ends with the "Wake up." notification and the 20 s sleep if and only if nothing raised before them. |
| LockDaemon.HandleProc | flow_lock/lock_daemon.py:73-93 | One process's events equal the specification: nothing for a whitelisted or clean name; for a violator a log line, a kill when the kill flag is set, a notification, and a correction request when the correction flag is set. |
| LockDaemon.RunCycle | flow_lock/lock_daemon.py:59-102 | One loop body, with its `for` loop over processes, equals the cycle function, including the exception handler's log line and 3 s sleep. |
| LockDaemon.ScanProcs | flow_lock/lock_daemon.py:73-93 | The `for` loop over processes yields the events of the scan function and stops at the first exception, carrying its message. |
| LockDaemon.FlowLockLoop | flow_lock/lock_daemon.py:52-102 | The daemon logs its start line, loads the three files once, then runs the cycles in order with that configuration. |
| LockDaemon.WhitelistBeatsBlacklist | flow_lock/lock_daemon.py:76-81 | A process whose name matches the whitelist is not a violator and produces no event, even when it also matches the blacklist. |
| LockDaemon.KillsOnlyViolators | flow_lock/lock_daemon.py:61-93 | Every kill in a cycle is of a violating process and happens only with `kill_distracting_immediately` true. |
| LockDaemon.ScanKills | flow_lock/lock_daemon.py:73-85 | The same property for the process scan alone. |
| LockDaemon.ProcStepKills | flow_lock/lock_daemon.py:74-85 | Handling one process kills only that process, only when it violates the lists, and only with the kill flag set. |
| LockDaemon.ProcEffects | flow_lock/lock_daemon.py:81-93 | For one process handled to the end: one kill exactly for a violator with the kill flag; one notification for every violator; one correction request exactly for a violator with the correction flag. |
| LockDaemon.CleanScanKills | flow_lock/lock_daemon.py:73-85 | A scan that completes kills exactly the violators, in scan order, when the kill flag is set, and none otherwise. |
| LockDaemon.CleanScanNotices | flow_lock/lock_daemon.py:81-87 | A scan that completes notifies every violator in scan order, whatever the kill flag. |
| LockDaemon.CleanScanAsks | flow_lock/lock_daemon.py:89-93 | A scan that completes asks for one correction per violator when the correction flag is set, and none otherwise. |
| LockDaemon.CmdlineIgnored | flow_lock/lock_daemon.py:73-81 | Blanking every command line leaves the scan unchanged: only the lowercased name is matched. |
| LockDaemon.IdleSkipsScan | flow_lock/lock_daemon.py:61-70 | When the idle time reaches the limit, the cycle does not depend on the process list and kills nothing. |
| LockDaemon.ProbeFailureMeansActive | flow_lock/lock_daemon.py:39-62 | With a positive idle limit, a failed probe takes the scan branch. With a limit of 0 or less, it takes the idle branch. |
| LockDaemon.MissingPolicyDoesNothing | flow_lock/lock_daemon.py:56-102 | With policy.json missing or corrupt, every cycle only logs the subscript error and sleeps 3 s: no kill, notification or request. |
| LockDaemon.QuietScan | flow_lock/lock_daemon.py:73-95 | A process list with no violator produces no event in the scan. |
| FlowControl.Ensured | flow_lock/control.py:24-34 | The default record is written when the state file is missing; any existing file is kept. |
| FlowControl.ReadView | flow_lock/control.py:36-41 | A parsed file reads as its record; an unparsable one reads as `{}`. |
| FlowControl.Stamped | flow_lock/control.py:43-46 | The written record has every key of the given record, with `last_update` set to the clock and every other value unchanged. |
| FlowControl.StateStore.EnsureDirs | flow_lock/control.py:24-34 | The store's file becomes the ensured file and the log is unchanged. |
| FlowControl.StateStore.ReadState | flow_lock/control.py:36-41 | Ensures the file, then returns its record view. |
| FlowControl.StateStore.WriteState | flow_lock/control.py:43-46 | The file becomes the stamped record. |
| FlowControl.StateStore.SetLock | flow_lock/control.py:55-60 | The file and the returned record become the lock-updated record. One "Flow Lock set to ON/OFF" log line is appended. |
| FlowControl.StateStore.SetProfile | flow_lock/control.py:62-67 | The file and the returned record become the profile-updated record. One "Profile changed -> n" log line is appended. |
| FlowControl.StateStore.GetStatus | flow_lock/control.py:69-71 | Same as reading the state. |
| FlowControl.StateStore.Cli | flow_lock/control.py:74-109 | Sets the exit status (1 exactly for usage), the new file and the printed output according to the dispatched branch, and appends that branch's log lines. |
| FlowControl.Dispatch | flow_lock/control.py:97-102 | A profile command names the third argument. |
| FlowControl.DefaultOnlyWhenMissing | flow_lock/control.py:24-41 | Ensuring changes the file exactly when it is missing. A missing file then reads as the default record; a corrupt one reads as `{}`. |
| FlowControl.LockFrame | flow_lock/control.py:55-60 | `set_lock(e)` sets `lock_enabled` to e and `last_update` to the clock, and keeps every other key and value of the record it read. |
| FlowControl.ProfileFrame | flow_lock/control.py:62-67 | `set_profile(n)` sets `current_profile` to n and `last_update` to the clock, and keeps everything else. |
| FlowControl.ProfileIdempotent | flow_lock/control.py:62-67 | Setting a profile twice equals setting it once at the later time. |
| FlowControl.LockIdempotent | flow_lock/control.py:55-60 | Setting the lock twice to the same value equals setting it once at the later time. |
| FlowControl.LockProfileCommute | flow_lock/control.py:55-67 | Setting the lock and setting the profile commute. |
| FlowControl.UsageIff | flow_lock/control.py:78-109 | Usage is chosen if and only if there are fewer than two arguments, the first is not "lock", or the subcommand is unknown. |
| FlowControl.OnOff | flow_lock/control.py:88-93 | "on"/"enable" if and only if lock on; "off"/"disable" if and only if lock off. |
| FlowControl.ReadOnlyBranches | flow_lock/control.py:94-109 | Every branch other than the two setters at most creates the default file and logs nothing. |
| FlowControl.ProfileHintWritesNothing | flow_lock/control.py:97-100 | "lock profile" without a name prints the hint and leaves an existing file untouched. |
| FlowControl.SettersLogOnce | flow_lock/control.py:55-67 | Exactly the two setters log, one line each: "Flow Lock set to ON/OFF" for the lock, "Profile changed -> n" for the profile, with n the third argument. |
| ScoreDashboard.Round2 | flow_lock/score_dashboard.py:22 | `round(x, 2)` is a whole number of hundredths within half a hundredth of x. |
| ScoreDashboard.Round2Nearest | flow_lock/score_dashboard.py:22 | No whole number of hundredths is closer to x than `round(x, 2)`. |
| ScoreDashboard.Round2TiesToEven | flow_lock/score_dashboard.py:22 | A value exactly halfway between two hundredths rounds to the even one. |
| ScoreDashboard.RoundedScore | flow_lock/score_dashboard.py:22 | The stored score reads as a whole number of hundredths. A numeric score is within half a hundredth of its rounding. |
| ScoreDashboard.DailyScore | flow_lock/score_dashboard.py:16-24 | The score is 0 for an unreadable file and for a missing or stale `last_score_date`. Otherwise it is the rounded `daily_score`, and 0 when that key is absent. It is always a whole number of hundredths. |
| ScoreDashboard.Bars | flow_lock/score_dashboard.py:29 | At most 20 filled cells; 0 for a score of 0 or less; 20 from 40 up. |
| ScoreDashboard.BarsMonotone | flow_lock/score_dashboard.py:29 | A larger score never draws fewer cells. |
| ScoreDashboard.BarsOfScore | flow_lock/score_dashboard.py:29 | Within range, the filled cells are the floor of half the score. |
| ScoreDashboard.BarShape | flow_lock/score_dashboard.py:30 | The bar is exactly 40 characters: the filled cells first, then empty cells, and its second half is always empty. |
| ScoreDashboard.StaleDayResets | flow_lock/score_dashboard.py:19-21 | A score dated another day reads as 0 and draws an empty bar. |
| ScoreDashboard.ThreeLines | flow_lock/score_dashboard.py:32-37 | The dashboard splits into the dated header, the score line and the bracketed bar. |
| CommandMode.MatchRest | engine/comand_mode.py:27-31 | A captured group follows the prefix, holds no newline, and is lowercase when the line is. |
| CommandMode.MatchRestOf | engine/comand_mode.py:27-38 | A non-empty rest of the line after the prefix is captured, stripped. |
| CommandMode.MatchRestNeedsText | engine/comand_mode.py:27-38 | Nothing after the prefix captures nothing, since `(.+)` needs a character. |
| CommandMode.ProfilePhrase | engine/comand_mode.py:14-38 | A line that normalises to "lock profile x" or "switch profile x" parses as setting the profile to x stripped. |
| CommandMode.NotOnOffPhrase | engine/comand_mode.py:18-24 | No line of 14 or more characters starting with "l" or "s" is an on or off phrase, so the profile phrases reach their regular expressions. |
| CommandMode.MatchShorthand | engine/comand_mode.py:42 | A match is a listed profile that follows "lock " at the start. No match means no listed profile does. |
| CommandMode.Normalize | engine/comand_mode.py:15 | The normalised line has no upper-case letter. |
| CommandMode.TryParseCommand | engine/comand_mode.py:14-59 | The reply, the new state file and the new log lines are those of the parsed command. An unrecognised line returns None and leaves the file and the log unchanged. |
| CommandMode.ProfileNamesLowercase | engine/comand_mode.py:15-31 | A profile name captured from chat is lowercase. |
| CommandMode.OnOffPhrases | engine/comand_mode.py:18-24 | A line is lock-on if and only if it is an on phrase, and lock-off if and only if it is an off phrase. |
| CommandMode.OffKeepsProfile | engine/comand_mode.py:22-24 | Turning the lock off sets `lock_enabled` false and keeps the profile. |
| CommandMode.UnlockIsOff | engine/comand_mode.py:22 | "unlock" turns the lock off. |
| CommandMode.ProfileKeepsLock | engine/comand_mode.py:27-38 | "lock/switch profile X" sets the profile to X and leaves `lock_enabled` as it was. |
| CommandMode.RunCommand | engine/comand_mode.py:18-56 | Each recognised command makes its store calls and replies with its text. The new state file is the command's effect on the old one. The log gains one lock line, one profile line, or for the shorthand the profile line then "Flow Lock set to ON"; status and score log nothing. |
| CommandMode.ShorthandNamesKnown | engine/comand_mode.py:42-44 | A "lock <profile>" command always names one of the five listed profiles. |
| CommandMode.ShorthandEnables | engine/comand_mode.py:42-47 | The shorthand leaves the named profile as the current one and the lock enabled. |
| CommandMode.LockStudying | engine/comand_mode.py:42 | The unanchored shorthand reads "lock studying" as profile "study". |
| CommandMode.ReadOnlyPhrases | engine/comand_mode.py:50-56 | The status and score phrases at most create the default file and leave an existing one unchanged. |
| ShadowMode.ExactApp | shadow_mode.py:157-158 | A result exists if and only if some table key equals the name, and it is that key's value. |
| ShadowMode.SubstringApp | shadow_mode.py:160-162 | The result is absent if and only if no key occurs in the name. Otherwise it is the value of a key that occurs. |
| ShadowMode.AppOf | shadow_mode.py:153-163 | A missing or empty process name, and only that, gives no application. |
| ShadowMode.MapProcToApp | shadow_mode.py:153-163 | The `for` loop returns the exact key's id, else the first substring key's id, else the lowercased name. |
| ShadowMode.FirstSubstringKey | shadow_mode.py:160-162 | The loop over the table returns the value of the first key that occurs in the name, or nothing. |
| ShadowMode.AppOfCases | shadow_mode.py:156-163 | An exact key gives its own id. A name containing no key comes back lowercased. |
| ShadowMode.IsWhitelisted | shadow_mode.py:210-220 | The early-return loops compute the whitelist predicate. |
| ShadowMode.WhitelistedIff | shadow_mode.py:210-220 | Whitelisted if and only if some entry occurs in the lowercased title or application id; never when both are absent. |
| ShadowMode.IsDistracting | shadow_mode.py:222-234 | The early-return loops compute the distraction predicate. |
| ShadowMode.DistractingIff | shadow_mode.py:222-234 | Distracting if and only if an application entry occurs in the lowercased id, or a title entry occurs in the lowercased title. |
| ShadowMode.AnyXIsDistracting | shadow_mode.py:33-38 | Because "x" is a blacklist entry, any application id containing "x" is distracting. |
| ShadowMode.FirefoxIsDistracting | shadow_mode.py:33-38 | "firefox" is distracting. |
| ShadowMode.ParseIdle | shadow_mode.py:168-172 | All-digit output reads as its value; anything else, including a failed command, reads as 0. |
| ShadowMode.QdbusTitle | shadow_mode.py:91-96 | A title exists if and only if the output is present and not blank. It is the stripped output, without leading or trailing whitespace. |
| ShadowMode.DetectFocus | shadow_mode.py:177-208 | Source "qdbus" if and only if there is a title, which is returned. Source "xdotool-pid" if and only if there is none and the pid is non-zero; the application is then that of the process name, with no title. "unknown" otherwise, with neither. |
| ShadowMode.TitleApps | shadow_mode.py:186-198 | With a title, the application is "youtube" if and only if the title names YouTube; else "firefox" if and only if it names Firefox or Mozilla; else "chrome" if and only if it names Chrome or Chromium; else none. |
| ShadowMode.YoutubeBeforeBrowsers | shadow_mode.py:188-198 | A title naming YouTube gives the "youtube" app even when it also names a browser. |
| ShadowMode.NotificationBounded | shadow_mode.py:242-261 | Handling drift gives four events ending in the notification. Its body has no newline and at most 300 characters. |
| ShadowMode.ContextFields | shadow_mode.py:244-251 | The context joins only the present fields with " \| ". |
| ShadowMode.HandleTick | shadow_mode.py:270-300 | One loop iteration's events and new `last_seen` equal the step function. |
| ShadowMode.ShadowLoop | shadow_mode.py:266-300 | The loop logs its start line, then the steps in order, carrying `last_seen`. |
| ShadowMode.SeenChangesOnlyOnDrift | shadow_mode.py:287-297 | `last_seen` changes if and only if a non-idle tick's focus is distracting, not whitelisted and new. It then becomes that focus. |
| ShadowMode.FocusStepQuiet | shadow_mode.py:286-300 | After the focus probe, a whitelisted, neutral or repeated focus asks nothing and keeps `last_seen`. |
| ShadowMode.WhitelistedNeverDrifts | shadow_mode.py:286-290 | A whitelisted focus asks nothing and keeps `last_seen`, even when it is distracting. |
| ShadowMode.RepeatSuppressed | shadow_mode.py:293-298 | A repeat of the last handled focus asks nothing. |
| ShadowMode.NeutralKeepsLastSeen | shadow_mode.py:299-300 | A focus that is not distracting asks nothing and keeps `last_seen`. |
| ShadowMode.IdleIsDrift | shadow_mode.py:271-276 | Idle of at least 300000 ms asks with source "idle". The step does not depend on the focus probes and keeps `last_seen`. |
| TaskDetector.FromWindow | engine/task_detector.py:19-39 | The window never reports devops, processes or merged. The confidence follows the type: coding 0.9, research 0.85, entertainment 0.95, communication 0.9, unknown 0.2 (always from the window title). A file-name source is always coding. |
| TaskDetector.FromProcesses | engine/task_detector.py:41-52 | The processes never report research, and the source is always processes. The confidence follows the type: coding 0.8, devops 0.9, communication 0.9, entertainment 0.95, unknown 0.1. |
| TaskDetector.DetectTask | engine/task_detector.py:54-75 | The returned confidence lies in [0.1, 1.0]. |
| TaskDetector.Combine | engine/task_detector.py:64-73 | The more confident detection is chosen, the window's on a tie. A merge keeps its type and adds 0.1 capped at 1.0. |
| TaskDetector.WindowOrder | engine/task_detector.py:22-29 | The first keyword list with a hit decides the window's type (productive, research, entertainment, chat), in both directions. |
| TaskDetector.ProcessOrder | engine/task_detector.py:43-52 | The first keyword list with a hit decides the processes' type (productive, devops, chat, entertainment), else unknown, in both directions. |
| TaskDetector.FilenameFallbackUnreachable | engine/task_detector.py:31-37 | Every file-name hit already contains a productive keyword, so the file-name source never occurs. |
| TaskDetector.TiesGoToWindow | engine/task_detector.py:65-68 | When the window's confidence is at least the processes', the window's type is returned. |
| TaskDetector.OnlyCodingMerges | engine/task_detector.py:71-73 | Merged if and only if both sides report coding, and a merge reaches 1.0. |
| TaskDetector.CombineMerges | engine/task_detector.py:71-73 | The same property for the combination step alone. |
| TaskMemory.Loaded | engine/task_memory.py:18-22 | A failed load gives the default record with no current task. |
| TaskMemory.Updated | engine/task_memory.py:28-46 | `last_seen` moves. A new or first task replaces the current task and `task_start`, pushing the old task when there was one, and keeps the newest 200 entries. The same type keeps the current task, its start and the history. |
| TaskMemory.Reset | engine/task_memory.py:52-64 | Clears the current task and its start and sets `last_seen`. The old task is appended only if present. |
| TaskMemory.TaskMemoryStore.LoadMemory | engine/task_memory.py:18-22 | Returns the file's record or the default. |
| TaskMemory.TaskMemoryStore.SaveMemory | engine/task_memory.py:24-26 | The file becomes the record. |
| TaskMemory.TaskMemoryStore.UpdateTask | engine/task_memory.py:28-46 | The returned and saved record is the updated record. |
| TaskMemory.TaskMemoryStore.GetCurrentTask | engine/task_memory.py:48-50 | Returns the loaded current task. |
| TaskMemory.TaskMemoryStore.ResetTask | engine/task_memory.py:52-64 | The returned and saved record is the reset record. |
| TaskMemory.SwitchPushesBounded | engine/task_memory.py:34-41 | A switch pushes the old task as the newest entry and keeps the newest entries of the pushed history: all of them below 200, exactly 200 from 200 up. |
| TaskMemory.SameTypeKeepsTask | engine/task_memory.py:32-44 | The same `task_type` changes only `last_seen`, even when other fields differ. |
| TaskMemory.ResetDoesNotTrim | engine/task_memory.py:52-59 | A reset grows the history by one when there is a task, with no trimming. |
| TaskMemory.UpdateKeepsOrder | engine/task_memory.py:34-41 | With the clock moving forward, an update keeps the history chronological. |
| TaskMemory.ResetKeepsOrder | engine/task_memory.py:54-59 | A reset keeps the history chronological. |
| TaskMemory.LoadFallback | engine/task_memory.py:18-22 | A failed load has no current task and an empty history. |
| AgentCore.Truncated | agent_core.py:89-94 | An entry keeps the pid and cuts the name to 60 and the command line to 180 characters. |
| AgentCore.GetProcessSnapshot | agent_core.py:86-98 | The loop's result is the truncated entries sorted by pid, then cut to `limit`. |
| AgentCore.SnapshotShape | agent_core.py:97-98 | The snapshot is sorted by pid and has at most `limit` entries, each an enumerated process within the length bounds. |
| AgentCore.RecentEvents | agent_core.py:110-121 | The loop skips unparsable lines and keeps the newest n entries. |
| AgentCore.RecentBounds | agent_core.py:121 | A missing file gives no entries. For n = 0 every parsed entry is returned. For positive n, exactly the newest min(n, count) entries are returned, as a suffix of the parsed lines. |
| AgentCore.BuildReasonPrompt | agent_core.py:126-151 | The loop appends one line per recent event between the fixed header and footer, and joins them with newlines. |
| AgentCore.PromptLength | agent_core.py:133-150 | The prompt has seven header lines, at most six event lines and ends with the six fixed footer lines. |
| AgentCore.PromptProcesses | agent_core.py:137-138 | The fifth line joins the names of the first six processes with ", ". |
| AgentCore.PromptEvents | agent_core.py:140-144 | Right after the header come the lines of the last six events, oldest first. |
| AgentCore.EventLines | agent_core.py:140-144 | There is one event line per event, in the events' order. |
| AgentCore.SplitCommand | agent_core.py:172-178 | A parsed step text has at most 300 characters. |
| AgentCore.ClassifyLine | agent_core.py:161-189 | An added step has at most 300 characters. |
| AgentCore.ParsePlanFromText | agent_core.py:153-190 | The loop with its early return equals the plan function, including the IndexError it can raise. |
| AgentCore.PlanBounds | agent_core.py:178-190 | A plan has at most three steps, each at most 300 characters. |
| AgentCore.NoActionDiscards | agent_core.py:166-167 | A NO_ACTION line returns the empty plan, dropping the steps already collected. |
| AgentCore.LowercaseMarkerRaises | agent_core.py:172-175 | A step line with "command:" not in upper case passes the test, but taking `parts[1]` raises IndexError. |
| AgentCore.CommandBetweenMarkers | agent_core.py:172-178 | The command is the stripped text between the first and second "COMMAND:"; the step text is the stripped text before the first. |
| AgentCore.StepLinesAlwaysCount | agent_core.py:169-181 | Step-prefixed lines are taken at any count. Other lines are dropped once three steps exist. |
| AgentCore.CommandVerdict | agent_core.py:201-202 | Everything is refused when autonomy is off. |
| AgentCore.CheckCommand | agent_core.py:201-215 | The loops over the pattern lists give the verdict function, with the first blocked pattern named. |
| AgentCore.PermittedIff | agent_core.py:201-215 | A command is permitted if and only if autonomy is on, no blocked pattern occurs, and it names a low-risk program or is an allowlist entry exactly. |
| AgentCore.BlockedBeatsAllowlist | agent_core.py:204-209 | A blocked pattern refuses a command even when it is on the allowlist. |
| RulesEngine.DetectDrift | rules_engine.py:9-15 | False for None and ""; otherwise true if and only if some keyword occurs in the lowercased text. |
| RulesEngine.DecideMode | rules_engine.py:17-27 | Silence if and only if the text is None. Voice if and only if a summoning phrase occurs and there are fewer than 10 words. Text otherwise. |
| RulesEngine.SummonIsArchetype | rules_engine.py:22 | The phrase list matches if and only if "archetype" occurs. |
| RulesEngine.BuildPrompt | rules_engine.py:29-35 | The prompt starts with the upper-case mode header and ends with the user text. |
| RulesEngine.PromptHoldsBoth | rules_engine.py:35 | The prompt contains "SYSTEM:\n", the system text, "\nUSER:\n" and the user text, in that order. |
| ArchetypeCli.WordingFor | archetype_cli.py:22-31 | The drift wording is chosen if and only if drift is detected on the stripped text; the calm wording otherwise. |
| ArchetypeCli.LocalResponse | archetype_cli.py:33 | The reply starts with "DIAGNOSIS: ". |
| ArchetypeCli.ReplyLines | archetype_cli.py:18-33 | The reply is exactly the diagnosis, action and metric lines of the chosen wording. |
| ArchetypeCli.DiagnosisRevealsDrift | archetype_cli.py:22-33 | The first line is the drift diagnosis if and only if drift was detected. |
| ArchetypeCli.ModeIgnored | archetype_cli.py:18-33 | The reply does not depend on the mode. |
| ArchetypeCli.UserText | archetype_cli.py:36 | Without arguments the typed line is used. A single argument is used as is. |
| ArchetypeCli.Remembered | archetype_cli.py:46-53 | Only `last_interaction` is replaced; every other key of the file (of `{}` when it is missing or unparsable) is kept. |
| ArchetypeCli.LastInteractionWins | archetype_cli.py:53 | A second interaction overwrites the first. |
| ArchetypeCli.MemoryFile.Interact | archetype_cli.py:35-54 | Produces the prompt, the three printed blocks and the remembered file for the decided mode. |
| LocalAdapter.SearchTopk | adapters/local_adapter.py:54-60 | A non-empty index answer is returned. Otherwise the result is the last k texts newest first (all of them for k = 0), or [] when there are none. |
| LocalAdapter.ExampleLines | adapters/local_adapter.py:75-81 | An example with " -> " gives two lines; one without it gives one "EXAMPLE: " line. Every line carries a label. |
| LocalAdapter.ArrowSplit | adapters/local_adapter.py:76-79 | The split is at the first arrow: the halves rebuild the example, the prompt half holds no arrow, and the lines are both halves stripped. |
| LocalAdapter.FewShotShape | adapters/local_adapter.py:74-83 | Each example gives one or two labelled lines. |
| LocalAdapter.FewShotAppend | adapters/local_adapter.py:75-81 | The lines keep the order of the examples. |
| LocalAdapter.CollectFewShot | adapters/local_adapter.py:74-81 | The loop builds the few-shot lines of the examples. |
| LocalAdapter.AddExample | adapters/local_adapter.py:76-81 | One pass of the loop appends the example's lines (prompt and teacher lines when it holds " -> ", one example line otherwise) after the lines collected so far. |
| LocalAdapter.BuildCombinedPrompt | adapters/local_adapter.py:63-94 | The prompt is the stripped persona, format, few-shot block and user part. |
| LocalAdapter.PromptEndsWithUser | adapters/local_adapter.py:85-94 | With a non-blank user text the prompt ends with "USER:\n" and the stripped user text. |
| LocalAdapter.Quote | adapters/local_adapter.py:121-125 | `shlex.quote` leaves safe, non-empty text as it is and otherwise wraps it in single quotes. |
| LocalAdapter.RunnerCommand | adapters/local_adapter.py:120-126 | The flags sit right after the quoted binary and a space. |
| LocalAdapter.ThreadsArgumentGlued | adapters/local_adapter.py:122-123 | As written, the thread count runs into "--temp". The corrected flags separate them. |
| LocalAdapter.CallLocalModel | adapters/local_adapter.py:97-134 | A missing or empty model key gives "Model path missing." and an absent model file gives "Model not found"; neither runs anything. The runner is started if and only if the key is set and the path exists. The command started is the one as written: "--threads 10-" follows the quoted binary and a space. |
| LocalAdapter.RunModel | adapters/local_adapter.py:106-134 | Past the guards the runner is always started, with "--threads 10-" right after the quoted binary and a space. |
| IntentExecutor.Quoted | engine/intent_executor.py:22 | The text between double quotes comes back out. |
| IntentExecutor.TabCommand | engine/intent_executor.py:28 | `xdg-open ` followed by the quoted tab. |
| IntentExecutor.TabCommands | engine/intent_executor.py:27-28 | One command per tab, in order. |
| IntentExecutor.Commands | engine/intent_executor.py:11-32 | One command line per launch, terminal or notification action; one per tab; none for an unknown type. |
| IntentExecutor.LaunchDefaultsToHome | engine/intent_executor.py:14-18 | A launch without a path opens the home directory in the background: the home directory as it is when it has no trailing slash, and `/` when it is `/`. |
| Text.ExpandUserPlainHome | engine/intent_executor.py:17 | With a home directory that is non-empty and has no trailing slash, `~` expands to it and `~/rest` to it followed by `/rest`. |
| Text.ExpandUserRootHome | engine/intent_executor.py:17 | With the home directory `/` or empty, `~` expands to `/` and `~/rest` to `/rest`. |
| IntentExecutor.ArgumentsRecoverable | engine/intent_executor.py:14-32 | Each command line gives back its action's argument. For a launch this is the `~`-expanded path, the home directory when the path is absent. |
| IntentExecutor.IntentInOrder | engine/intent_executor.py:34-36 | The commands of two action lists run one after the other. |
| IntentExecutor.Executor.RunCmd | engine/intent_executor.py:5-9 | Appends the command line. |
| IntentExecutor.Executor.OpenTabs | engine/intent_executor.py:25-28 | The tab loop appends the tab commands. |
| IntentExecutor.Executor.ExecuteAction | engine/intent_executor.py:11-32 | Appends the action's command lines. |
| IntentExecutor.Executor.ExecuteIntent | engine/intent_executor.py:34-36 | Appends the command lines of every action, in list order. |
| Distill.StrLeTotal | distill.py:10 | String order is total. |
| Distill.StrLeTrans | distill.py:10 | String order is transitive. |
| Distill.FilesInNameOrder | distill.py:10 | The files are read in name order, each exactly once. |
| Distill.LinePairs | distill.py:14-23 | An unparsable line gives nothing. A line gives a pair if and only if user and response are truthy and the engine is "online"; the pair is its user and response. |
| Distill.LinesInFileOrder | distill.py:13-21 | Pairs of earlier lines come first. |
| Distill.FilePairsBounded | distill.py:13-21 | At most one pair per line. |
| Distill.PairsNonEmpty | distill.py:19 | Every kept pair has a non-empty prompt and a non-empty response. |
| Distill.Dumped | distill.py:27-28 | One rendered text per pair, in order. |
| Distill.AsWrittenIsOneLine | distill.py:27-28 | As written, the output is a single line, whatever the number of pairs. |
| Distill.LinesRoundTrip | distill.py:24-28 | With a newline after each pair, reading the file line by line gives the rendered pairs back in order. |
| Distill.SavedMessage | distill.py:29 | The message starts with "Saved ". |
| Distill.SavedCountReadsBack | distill.py:29 | The number in the message reads back as the count of kept pairs. |
| Distill.Distiller.CollectFile | distill.py:13-23 | The inner loop collects the file's pairs. |
| Distill.Distiller.CollectAll | distill.py:12-23 | The outer loop collects every file's pairs in order. |
| Distill.Distiller.Render | distill.py:26-28 | The writing loop writes each rendered pair followed by a backslash and "n", as written. |
| Distill.Distiller.BuildDataset | distill.py:9-29 | The output file holds the kept pairs of the name-sorted files, each followed by a backslash and "n", and the printed message counts them. |
| Distill.Distiller.RenderLines | distill.py:24-28 | With a newline after each pair, the writing loop gives one pair per line. |
| Distill.Distiller.BuildDatasetLines | distill.py:9-29 | With that correction, the output file holds one kept pair per line, and the message is unchanged. |

## Left out

- Operating-system probes and effects are inputs or events:
  - psutil enumeration and kill, the dbus idle time, xprintidle, qdbus, xdotool and `/proc`;
  - notify-send and subprocess starts, for which a `Kill`/`Notify` event or a command-line string stands in.
- The language-model responder (`router.archetype_respond`, the online adapter, the llama-run process) is an opaque parameter returning a reply or an error.
- File persistence is an in-memory value. A file is missing, unreadable or a document; JSON parsing and `json.dumps` are parameters where their output matters. `logger.py` and the log files are `Log` events or lists of lines.
- A JSON file whose top level is not an object is treated as unreadable.
- Sleeps, `KeyboardInterrupt` and clocks: sleeps are events, the loops run over a finite list of ticks, and times and dates are parameters.
- Floats:
  - task confidences are integer hundredths;
  - the daily score is a `real`;
  - the rendering of the score and of a state record (`str`, f-strings) is a `show` parameter or a record value.
- `lower()`, `upper()` and `isdigit()` are modelled on ASCII letters and digits only. `str.strip` and `str.split` use the whitespace set of `Text.IsSpace`.
- Text.ExpandUser: expands `~` and `~/` against a given `$HOME`, dropping its trailing slashes and reading an empty result as `/`. It does not expand `~user`, and it does not model the password-database lookup used when `$HOME` is unset.
- The embedding search (`_faiss_search`, `retriever.py`) and `_load_index_texts` are parameters of `LocalAdapter.SearchTopk`.
- Intent actions are assumed well formed: a missing `app`, `command`, `tabs` or `message` key, which raises KeyError in the source, is not modelled. The intent loader, the intent parser and `archetype_intent.py` are not part of this model.
- In `ShadowMode.DetectFocus`, the xdotool pid and the process name are separate inputs. The `/proc` lookup is not modelled.
- CommandMode.TryParseCommand: the set-lock and set-profile calls of the shorthand branch read the clock once; the source reads it twice.
- AgentCore.RecentEvents: the memory file is given as its lines, each already parsed or not.
- Network engine selection (`router.choose_engine`) is not part of this model.
- The lost-update race between concurrent writers of the state file is not modelled.
- The aliasing of the history list in `load_memory`'s fallback copy is not modelled (value semantics).
- The code has no XP, streak, level, reward or penalty logic, so none is modelled.
- The daemon loads its lists and policy once and never reloads them (`LockDaemon.FlowLockLoop`).
- The daemon never reads `lock_enabled`, so the state file does not reach `LockDaemon`.
- Process command lines are fetched but never matched (`LockDaemon.CmdlineIgnored`).
- The file-name fallback of `detect_task_from_window` is modelled, but `TaskDetector.FilenameFallbackUnreachable` shows it never fires. Its extra `filename` key is not modelled.

## Findings

| source | as written | input that shows it | evidently intended | confidence | as-written member | corrected member |
|---|---|---|---|---|---|---|
| adapters/local_adapter.py:120-126 | the f-string pieces `"--threads 10"` and `"--temp 0.2 "` are adjacent with no space, so the shell receives `--threads 10--temp 0.2` | any call that reaches the runner, e.g. model key `local_fast` with an existing model file | `--threads 10 --temp 0.2` as two separate options | high (not executed) | LocalAdapter.LlamaCommandAsWritten, shown by LocalAdapter.ThreadsArgumentGlued | LocalAdapter.LlamaCommand; LocalAdapter.CallLocalModel runs the as-written command |
| distill.py:28 | each pair is followed by the two characters backslash and `n` (`"\\n"`), although the comment on line 24 promises newline-separated pairs | any two kept pairs: the file is one line, `{...}\n{...}\n` with literal backslashes | a newline after each pair, so the `.jsonl` file has one pair per line | high (not executed) | Distill.JsonlAsWritten, shown by Distill.AsWrittenIsOneLine | Distill.Jsonl, with Distill.LinesRoundTrip, used by Distill.Distiller.RenderLines and Distill.Distiller.BuildDatasetLines |
