# A verified model of a small Unix shell's command engine

This project models the part of a small Unix shell that decides what to run, in two versions:

- `CP_1.c` is the full shell. It has these parts:
  - a history log of 1000 lines that drops its oldest line when full;
  - `!!` and `!n` history expansion;
  - `trim` and `strtok` tokenizing;
  - builtins run in the shell's own process;
  - the `handle_redirection_in_tokens` resolver for `<`, `>` and `>>`;
  - pipelines of any length, with a trailing `&` on the last stage.
- `CP.c` is the earlier shell. It has these parts:
  - a history of 100 lines that stops recording when full;
  - `!n` recall;
  - `handle_builtin`;
  - `execute_command`, which honours only the first `>` or `<` and a final `&`;
  - `execute_pipeline`, with its fixed `commands[10]` array and its `j += 2` descriptor counter.

## Kernel and worlds

The operating system becomes a `Kernel` object (module `Os`). Nothing is executed; everything is a record:

- `open` succeeds exactly for the paths a `FileSystem` oracle allows, and returns the next number of a counter that only grows (see "Left out").
- `pipe` returns the next two numbers of that counter.
- `fork` followed by `dup2` and `execvp` becomes a `Launch` record. It holds:
  - the stage number;
  - the program: an argument vector, a builtin run in the child, or an exit before `execvp`;
  - the stdin and stdout streams;
  - the set of descriptors the child still holds when it starts its program.
- A builtin run in the shell's process, each `wait` and each line printed are also recorded.

`Kernel.State()` takes a snapshot of all of this as a `World` value. Each shell operation is modelled in two parts:

- A method over the kernel, the token arrays and the character buffers. It has the source's loops, its `NULL` terminators and its in-place shifts.
- A function from the old `World` to the new one. The method's postcondition states that the kernel moved from the old state to exactly the state this function gives.

The properties are lemmas about those functions: wiring, no leaked pipe descriptor, round trips, and the history contents.

The files are:

| file | contents |
|---|---|
| `text.dfy` | `trim`, `strtok` and `tokenize`, with token arrays as `array<Option<string>>`, where `None` is `NULL` |
| `numerals.dfy` | `atoi` |
| `os.dfy` | the kernel |
| `history.dfy` | both history logs |
| `redirection.dfy` | the resolver |
| `plumbing.dfy` | `pipe`, close and wait loops shared by both shells |
| `cp1.dfy` | the full shell (module `ShellCp1`) |
| `cp.dfy` | the earlier shell (module `ShellCp`) |

## Model

| member | source | states |
|---|---|---|
| History.Appended | CP_1.c:67-75 | An empty line leaves the log unchanged. Otherwise the log keeps the newest `cap` lines of itself followed by the line, so it never holds more than `cap`. |
| History.AppendedEvicts | CP_1.c:69-74 | A non-empty line becomes the newest entry. When the log was full, old entries 2..cap move down one place. |
| History.HistoryLog.Add | CP_1.c:67-75 | `add_history` on the slot array: the entries afterwards are `Appended` of the entries before, and the log stays valid. |
| History.AppendedAllKeepsNewest | CP_1.c:67-75 | Adding non-empty lines one at a time leaves the newest `cap` lines of the old log followed by the new lines. |
| History.AppendedThen | CP_1.c:67-75 | Adding a line and then more lines keeps the newest `cap` lines of the log followed by all of them. |
| History.NewestOfNewest | CP_1.c:69-74 | Dropping the oldest lines first and then again after more lines arrive is the same as dropping them once at the end. |
| History.Recorded | CP.c:37-39 | The bounded append of `main`: the line is added while there is room, and dropped once the log is full. The result is the first `cap` lines of the log followed by the line. |
| History.HistoryLog.Record | CP.c:37-39 | The same append on the slot array: the entries afterwards are `Recorded` of the entries before. |
| History.RecordedAllKeepsOldest | CP.c:37-39 | Recording several lines keeps the first `cap` of all lines ever recorded. |
| History.OldestOfOldest | CP.c:37-39 | Keeping the oldest lines twice is the same as keeping them once. |
| History.OldestIn | CP.c:37-39 | Every line in the log was once recorded. |
| Text.Lead | CP_1.c:107-108 | The leading run of spaces and tabs: every character before the position is blank, and the character at it is not. |
| Text.Tail | CP_1.c:111-112 | The trailing run of spaces and tabs, the same way from the end. |
| Text.Trimmed | CP_1.c:105-113 | The trimmed text is a contiguous slice of the input. Every character outside the slice is a space or tab, and the slice neither starts nor ends with one. |
| Text.TrimmedIdempotent | CP_1.c:105-113 | Trimming twice gives the same text as trimming once. |
| Text.Strlen | CP_1.c:111 | `strlen` on a NUL-terminated buffer returns the length of the text from the given position. |
| Text.MoveToFront | CP_1.c:109 | `memmove(s, p, strlen(p) + 1)` leaves the buffer holding the text from `p` on, NUL included. |
| Text.Trim | CP_1.c:105-113 | `trim` in place: the buffer afterwards holds `Trimmed` of the text before. |
| Text.SkipDelimsSpec | CP_1.c:120 | The delimiter run `strtok` skips: only delimiters, up to a non-delimiter or the end. |
| Text.RunEndSpec | CP_1.c:120 | The token `strtok` returns: only non-delimiters, up to a delimiter or the end. |
| Text.Strtok | CP_1.c:120-123 | One call of `strtok` resuming at a position: a token is non-empty and holds no delimiter, and the next call resumes past the current position. |
| Text.StrtokSpec | CP_1.c:120-123 | `strtok` finds nothing exactly when only delimiters remain. Otherwise the token is the slice `s[b..e]` described by `TokenAt`: only delimiters between the resume position and `b`, none inside the token, and a delimiter or the end of the text right after it. The next call resumes just past that delimiter. |
| Text.FieldsFrom | CP_1.c:120-124 | Every token from a position on is a non-empty run with no delimiter. |
| Text.StrtokShift | CP_1.c:120-123 | `strtok` on a suffix of a string finds the same token at the shifted position. |
| Text.FieldsShift | CP_1.c:120-124 | The tokens from a position in a suffix are the tokens of the suffix. |
| Text.FieldsOfJoin | CP_1.c:116-127 | Round trip: words joined by a delimiter tokenize back into exactly those words, in order. `Fields` is the sequence of tokens successive `strtok` calls return. |
| Text.SpacedDrop | CP_1.c:116-127 | A text that starts with a run of delimiters starts, after its first character, with a run one shorter. |
| Text.SkipDelimsOver | CP_1.c:120 | `strtok` steps over any run of delimiters before a token. |
| Text.LeadingDelims | CP_1.c:120-124 | Leading delimiters yield no token. |
| Text.RunEndAt | CP_1.c:120 | A token runs up to the first delimiter after its start, or the end. |
| Text.FirstToken | CP_1.c:120-123 | A word followed by a delimiter or the end is the next token, and the following call resumes past that delimiter. |
| Text.FieldsOfSpaced | CP_1.c:116-127 | Round trip for any spacing: words with any runs of delimiters before, between and after them (`Spaced`), non-empty between two words, tokenize back into exactly those words. Runs of delimiters collapse, and leading or trailing ones yield no token. |
| Text.TakeWhenDone | CP_1.c:121 | The loop stops either when `strtok` finds nothing or when `MAX_TOKENS - 1` tokens are stored. In both cases the stored tokens are the first that many tokens of the line. |
| Text.TokenizeBounded | CP_1.c:116-127 | `tokenize`, and `tokenize_input` (CP.c:104-116), whose loop is the same. The array holds the line's tokens in left-to-right order, capped at `MAX_TOKENS - 1` and NULL-terminated, and the rest are dropped. |
| Text.ArgvOf | CP_1.c:401 | Reading a NULL-terminated array up to its NULL yields exactly the argument vector it holds. |
| Text.DropBackground | CP.c:161-165 | A final `&` is removed, and only then: the remaining words followed by the removed `&` give back the original vector, and the flag is set exactly when the last word is `&`. |
| Text.StripBackground | CP.c:161-165 | The same, in place: the `&` slot becomes NULL, and the array then holds the remaining words. The same code appears at CP_1.c:327-328 and CP_1.c:484-488. |
| Numerals.Decimal | CP.c:50 | A decimal numeral is a non-empty string of digits. |
| Numerals.DecimalValue | CP.c:50 | The digits of a numeral have the numeral's value. |
| Numerals.AtoiDecimal | CP.c:50 | `Atoi` models `atoi` as called at CP.c:50 and CP_1.c:446: leading white space, an optional sign, then the digits up to the first non-digit, with no digits read as 0. For the numeral of any `n` it gives `n`, so `!n` can name any entry. |
| Os.Kernel.Open | CP_1.c:274-275 | `open` returns the next number of the descriptor counter and opens it when the oracle allows the path and mode. Otherwise it returns -1 and changes nothing. |
| Os.Kernel.Pipe | CP_1.c:351 | `pipe` opens two new consecutive descriptors, the read end first. |
| Os.Kernel.Close | CP_1.c:417 | `close` removes the descriptor from the shell's open set. |
| Os.Kernel.Spawn | CP_1.c:374 | A `fork` records one launch. |
| Os.Kernel.Wait | CP_1.c:421 | Each `wait` is counted. |
| Os.Kernel.RunBuiltin | CP_1.c:239 | A builtin run in the shell's own process is recorded. |
| Os.Kernel.Say | CP_1.c:449 | A line printed to the console is recorded. |
| Os.FreshRange | CP_1.c:351 | Descriptors at or above the next unused one are not open. |
| Redirection.Parse | CP_1.c:271-299 | Splits a token list into three parts: the plain arguments, each operator with the token after it, and a trailing operator with no file. It accounts for every token, and no kept argument is an operator. |
| Redirection.ParsePlainArgs | CP_1.c:271-299 | A list with no operator is all arguments. |
| Redirection.ParseRender | CP_1.c:271-299 | Spelled-out redirections parse back to themselves. |
| Redirection.ParseRoundTrip | CP_1.c:271-299 | Round trip: arguments followed by spelled-out redirections parse back into those arguments and redirections. |
| Redirection.LastIndex | CP_1.c:276 | The last input, or output, redirection of a list: no later one has the same direction. |
| Redirection.ResolveFromSucceeds | CP_1.c:273-290 | `ResolveFrom` and `Resolve` give what `handle_redirection_in_tokens` (CP_1.c:267-301) computes. The resolver fails, returning -1, exactly when one of two things happens: an operator is the last token (lines 273, 285), or the file of some redirection cannot be opened in its mode (lines 275, 290). |
| Redirection.ResolveFromArgs | CP_1.c:277-283 | On success the remaining tokens are the plain arguments in their original order. One descriptor is used per redirection. |
| Redirection.ResolveFromFds | CP_1.c:268-291 | On success `in_fd` is the descriptor of the last `<` and `out_fd` that of the last `>` or `>>`, each -1 when there is none. `append_flag` is set by the last output operator. |
| Redirection.ResolveFromResult | CP_1.c:267-301 | The two previous results together. |
| Redirection.ResolveFromNext | CP_1.c:274 | The resolver never gives back a descriptor number. |
| Redirection.RemovePair | CP_1.c:279-282 | The left shift removes the operator and its file, and keeps every other token in order. |
| Redirection.Operand | CP_1.c:271-296 | One operator: the scan fails when the operator is the last token or its file does not open. Otherwise the file's new descriptor is recorded for the operator's direction, both tokens leave the array, and the scan resumes at the same slot. |
| Redirection.ResolveFromPlain | CP_1.c:269 | A token that is not an operator stays as an argument. |
| Redirection.OpenOperand | CP_1.c:274-283 | One operator: when its file opens, the fresh descriptor is returned and both tokens are removed. Otherwise the result is -1 and nothing changes. |
| Redirection.HandleRedirectionInTokens | CP_1.c:267-301 | The in-place scan with its `i--` rescan. The return value is 0 or -1. Every descriptor it opened stays open. On success the array holds the resolved arguments and the out-parameters hold the resolved descriptors and flag. |
| Plumbing.Ends | CP_1.c:349-352 | The `pipefds` array holds two ends per pipe. |
| Plumbing.EndsAt | CP_1.c:379-386 | Slot `2i` holds the read end of pipe `i`, and slot `2i+1` its write end. |
| Plumbing.PipesShape | CP_1.c:350-352 | `n` calls of `pipe` add `n` pairs of consecutive new descriptors and change nothing else. |
| Plumbing.PipesKeep | CP_1.c:350-352 | Those calls open exactly their `2n` descriptors and launch, run and wait for nothing. |
| Plumbing.PipesFresh | CP_1.c:350-352 | The new pipes use exactly the descriptors allocated for them, and no two pipe ends coincide. |
| Plumbing.NewPipes | CP_1.c:350-352 | The pipes a pipeline makes: `n` of them, appended to the pipe list, over the new descriptors. |
| Plumbing.PipesHeld | CP_1.c:417 | Closing every pipe descriptor leaves the shell with exactly what it held before the pipes. |
| Plumbing.EndsSnoc | CP_1.c:351 | One more pipe appends its two ends. |
| Plumbing.PipeInto | CP_1.c:351 | `pipe(pipefds + 2i)` fills slots `2i` and `2i+1` and makes one pipe. |
| Plumbing.MakePipes | CP_1.c:349-352 | The loop makes `n` pipes, and `pipefds` lists their ends. |
| Plumbing.CloseAll | CP_1.c:417 | The shell's close loop removes every pipe descriptor and changes nothing else. |
| Plumbing.ChildCloseAll | CP_1.c:392 | A child's close loop keeps what it held, less every pipe descriptor. |
| Plumbing.WaitTimes | CP_1.c:421 | The wait loop waits `n` times and changes nothing else. |
| ShellCp1.ChildProgram | CP_1.c:396-403 | A stage child runs a builtin in itself, with its whole vector, exactly for `cd`, `pwd`, `echo` and `history`, and exits for an empty vector. Otherwise it calls `execvp` on the whole vector. `IsBuiltin` is `is_builtin` (CP_1.c:135-142), which also counts `exit` and rejects NULL. |
| ShellCp1.ExpandHistory | CP_1.c:437-451 | Only a line starting with `!` is expanded. `!!` recalls the newest entry, or is "No history" when the history is empty. A recalled line is always an entry of the history. |
| ShellCp1.SimpleCommand | CP_1.c:220-263 | An empty vector changes nothing. A builtin, `exit` included, is run once in the shell with the given descriptors as its streams: nothing is launched or waited for. The return value is 1 for `cd`, `pwd`, `echo` and `history` and 0 for `exit`. Any other word launches one child holding the shell's descriptors, waited for unless in the background, and returns 0. The shell's descriptors are unchanged. |
| ShellCp1.ExecuteSimpleCommand | CP_1.c:220-263 | `execute_simple_command` ends in the world and value that `SimpleCommand` gives. |
| ShellCp1.TrimAll | CP_1.c:311-313 | One trimmed part per part. |
| ShellCp1.TrimAllSnoc | CP_1.c:311-313 | Trimming one more part appends its trimmed text. |
| ShellCp1.StageWords | CP_1.c:355-365 | One word list per stage. |
| ShellCp1.SplitPipeline | CP_1.c:309-316 | The `strtok_r` loop on `|` yields the trimmed parts of the line, at most `MAX_COMMANDS - 1` of them. |
| ShellCp1.StageArgv | CP_1.c:355-365 | A stage's tokens, with a final `&` removed on the last stage only. The flag is set exactly when it was removed. |
| ShellCp1.CommandResolves | CP_1.c:330-331 | `Command` is the single-command path of CP_1.c:321-345. When its redirections resolve, the resolver yields three things: <br>- its parsed arguments; <br>- the descriptors of its last `<` and its last `>`/`>>`; <br>- one new descriptor per redirection. |
| ShellCp1.CommandFails | CP_1.c:331-337 | When an operator lacks its file or a file does not open, the syntax error is printed and nothing runs. |
| ShellCp1.CommandKeeps | CP_1.c:330-340 | Whatever a single command does, the shell keeps every descriptor it held and makes no pipe. |
| ShellCp1.CommandEmpty | CP_1.c:221 | A command made only of redirections runs nothing. |
| ShellCp1.CommandBuiltin | CP_1.c:224-247 | A builtin runs once in the shell. Its stdin is the descriptor of the last `<` and its stdout that of the last `>`/`>>`, or the shell's own streams when there is none. |
| ShellCp1.CommandExternal | CP_1.c:250-262 | Any other command launches one child with the same streams. The child holds every descriptor the shell holds, the redirection ones included. The shell waits for it unless the line ends in `&`. |
| ShellCp1.CommandRuns | CP_1.c:338-340 | A command that resolves to some arguments and descriptors runs those arguments with those descriptors, in the shell for a builtin and in a child otherwise. |
| ShellCp1.RunCommand | CP_1.c:321-345 | The single-command path ends in the world and value that `Command` gives. |
| ShellCp1.StageKeepsOpen | CP_1.c:367-410 | A stage opens only new descriptors, closes none the shell held before, and touches neither the pipes nor the wait count. |
| ShellCp1.StageFacts | CP_1.c:367-410 | A stage whose tokens resolve launches one wired child. Any other stage launches nothing. |
| ShellCp1.StageWired | CP_1.c:374-394 | The child a resolving stage launches is wired as `PipelineWiring` describes. |
| ShellCp1.LaunchedOne | CP_1.c:374-403 | One wired launch extends the launches in order. |
| ShellCp1.LaunchedNone | CP_1.c:368-372 | A skipped stage adds no launch. |
| ShellCp1.LaunchedInOrderTrans | CP_1.c:354-414 | Launches in order compose. |
| ShellCp1.StagesKeepOpen | CP_1.c:354-414 | The stage loop keeps every descriptor the shell held and opens only new ones. |
| ShellCp1.StagesFacts | CP_1.c:354-414 | The stage loop launches one wired child per resolving stage, in stage order. |
| ShellCp1.StagesOf | CP_1.c:354-414 | The stages that launch are among the first `i`. |
| ShellCp1.PipedStagesOver | CP_1.c:347-424 | A pipeline (`Piped`) is its stages (`Stages`, each a `Stage`, CP_1.c:354-414) run over the world with the pipes made, then the shell's close and wait. The pipeline runs in the background (`PipelineBackground`) when the caller said so or the last stage ends in `&`. |
| ShellCp1.PipelineWiring | CP_1.c:348-424 | For `N` stages there are `N - 1` new pipes over descriptors the shell did not hold. The children are launched in stage order, one per stage whose redirections resolve. Stage `i` starts in the world left by the pipes and the stages before it, and its redirections take descriptors, in order, from the next number of that world's descriptor counter. Each child is wired as follows: <br>- stdin is the read end of pipe `i - 1`, or on the first stage the descriptor of its last `<`; <br>- stdout is the write end of pipe `i`, or on the last stage the descriptor of its last `>`/`>>`; <br>- it holds what the shell held and the stage's redirection descriptors, less every pipe descriptor and the descriptors of its last `<` and last `>`/`>>`. |
| ShellCp1.PipelineCleanup | CP_1.c:416-424 | After a pipeline the shell still holds everything it held before, and holds no pipe descriptor. It waited `N` times, or not at all in the background. |
| ShellCp1.RunStage | CP_1.c:354-414 | One stage: the kernel ends as `Stage` gives. |
| ShellCp1.StageLoop | CP_1.c:354-414 | The stage loop ends as `Stages` gives. The background flag is set by the last stage's `&`. |
| ShellCp1.FinishPipeline | CP_1.c:416-424 | The shell's close loop, then the waits or the background notice. |
| ShellCp1.PipedStages | CP_1.c:347-428 | The multi-stage path ends as `Piped` gives. |
| ShellCp1.ExecutePipeline | CP_1.c:304-429 | `execute_pipeline` returns 0 and ends as `Pipeline` gives: nothing for no part, `Command` for one part, `Piped` otherwise. `Parts` are the trimmed `|` parts, at most 63. |
| ShellCp1.Run | CP_1.c:453-502 | After expansion the history gains the line. The return value is 2 exactly when the line has no `|` and its first token is `exit`; otherwise it is 0. |
| ShellCp1.LineOutcome | CP_1.c:431-503 | `Line` is `execute_line`. It returns 0 or 2. The history gains the expanded line and is unchanged when the line is blank or the expansion is rejected. It returns 2 exactly when the expanded line has no `|` and starts with the token `exit`. |
| ShellCp1.RecallNumbered | CP_1.c:445-449 | `!n` recalls entry `n` when `1 <= n <= count`, and is otherwise rejected. |
| ShellCp1.RecallLast | CP_1.c:439-443 | After a line runs, `!!` recalls that line. |
| ShellCp1.Recall | CP_1.c:437-451 | The expansion step: it returns the expanded line and prints either the recalled line or the rejection message. |
| ShellCp1.RunLine | CP_1.c:453-502 | The steps after expansion end in the world, history and value that `Run` gives. |
| ShellCp1.ExecuteLine | CP_1.c:431-503 | `execute_line` on a buffer ends in the world, history and value that `Line` gives. |
| ShellCp.Execvp | CP.c:195-198 | `execvp` with a NULL name makes the child exit. |
| ShellCp.Builtin | CP.c:119-153 | `handle_builtin` returns 1 exactly for `cd`, `pwd`, `echo` and `history` (`IsBuiltin`), and 0 otherwise, leaving everything unchanged. It reports "cd: missing argument" exactly for a bare `cd`. |
| ShellCp.HandleBuiltin | CP.c:119-153 | The method ends in the world and value that `Builtin` gives. |
| ShellCp.FirstOperator | CP.c:170-191 | The position of the first `>` or `<`. No operator comes before it. |
| ShellCp.FirstOperatorOnly | CP.c:170-191 | Only the first operator is honoured (`ChildSetup`). The vector is cut at it, its file becomes stdin for `<` or stdout for `>`, and the later words, later operators included, are dropped. |
| ShellCp.NoOperator | CP.c:170-191 | Without an operator the child runs the whole vector with the shell's streams. |
| ShellCp.ChildRedirect | CP.c:170-191 | The child's scan, which puts NULL over the operator, ends in the set-up that `ChildSetup` gives. |
| ShellCp.BackgroundCommand | CP.c:161-208 | A command with a final `&` launches the same child as without it. The shell prints the notice instead of waiting. |
| ShellCp.ExecuteCommand | CP.c:156-211 | `execute_command` returns 1 and ends as `External` gives: one child with the `ChildSetup` of its words, waited for unless the line ends in `&`. |
| ShellCp.StageArgs | CP.c:218-233 | One stage per `|` field, and a single stage when the line has no field. |
| ShellCp.StageLaunches | CP.c:231-257 | One launch per stage handled so far. |
| ShellCp.StageLaunchesAt | CP.c:231-257 | Launch `m` is the child of stage `m`. |
| ShellCp.PipelineShape | CP.c:221-260 | With `n` stages the shell makes `n - 1` pipes over new descriptors. Afterwards it holds exactly what it held before, because it closed every pipe descriptor, and it waits `n` times. |
| ShellCp.PipelineLaunches | CP.c:231-257 | The children come after earlier launches and start from what the shell held before. |
| ShellCp.PipelineWiring | CP.c:231-257 | One child per stage, in stage order. Stage `i` writes `pipefds[2i+1]` unless it is the last, and reads `pipefds[2i-2]` unless it is the first. Each child holds no pipe descriptor. |
| ShellCp.CollectStages | CP.c:215-219 | `commands` holds the `|` fields, NULL-terminated. `n` counts them with the NULL, plus the second NULL when there is no field. |
| ShellCp.StageTokens | CP.c:233 | The tokens of stage `i`. |
| ShellCp.StageChild | CP.c:236-244 | The child of stage `i` is wired through slots `j + 1` and `j - 2`, which the `j += 2` counter keeps at `2i + 1` and `2i - 2`, and it holds no pipe descriptor. |
| ShellCp.LaunchStages | CP.c:231-257 | The stage loop launches the children that `StageLaunches` lists. |
| ShellCp.ExecutePipeline | CP.c:214-261 | `execute_pipeline` ends as `Pipeline` gives, which is `Piped` over the `|` fields of the line. |
| ShellCp.Expand | CP.c:49-60 | Lines not starting with `!` run as typed. A recalled line is always an entry of the history. |
| ShellCp.Step | CP.c:30-76 | One pass of `main`: <br>- a non-empty line is recorded before anything else, `!n` lines as typed; <br>- only the exact line `exit` leaves; <br>- the history never holds more than 100 lines. |
| ShellCp.RecallNumbered | CP.c:49-60 | `!n` recalls entry `n` when `1 <= n <=` the number recorded before it. It yields its own text when `n` names its own slot, which happens only while the history has room. With a full history of 100 lines, `!1` to `!100` still recall and anything else is rejected. |
| ShellCp.RecalledExit | CP.c:42-69 | A recalled `exit` does not leave the shell: it is launched as an external program and waited for. |
| ShellCp.RecallLine | CP.c:49-60 | The `!n` step returns the recalled line and prints it, or prints "No such command in history". |
| ShellCp.DispatchLine | CP.c:62-73 | `Dispatch`: a line with `|` goes to `execute_pipeline`. Any other line with words (`Simple`) goes to `handle_builtin`, and to `execute_command` when that declines. |
| ShellCp.RunInput | CP.c:33-75 | One pass of the loop ends in the world, history and exit decision that `Step` gives. |
| ShellCp.Session | CP.c:30-76 | A run of the loop reads at most the given lines, and the history stays within 100. |
| ShellCp.NonEmpty | CP.c:34 | The lines the loop does not skip. |
| ShellCp.NonEmptyAppend | CP.c:34 | Skipping empty lines distributes over concatenation. |
| ShellCp.NonEmptyThen | CP.c:37-39 | The history after one line and then `m` more is the history of those `m + 1` lines. |
| ShellCp.SessionHistory | CP.c:37-39 | After any run the history holds the first 100 non-empty lines read, in order, with `!n` lines as typed. |
| ShellCp.SessionStep | CP.c:30-76 | One pass of the loop on line `c` either ends the session, having read `c + 1` lines, or leaves the rest of the session to the lines after it. Every history line stays a pipeline of at most nine stages. |
| ShellCp.SessionAt | CP.c:30-76 | A run is one pass followed by the rest of the run. |
| ShellCp.RecordedFits | CP.c:215-219 | Recording keeps every history line a pipeline of at most nine stages. |
| ShellCp.RunSession | CP.c:25-84 | `main` prints the welcome line, then ends in the world, history and line count that `Session` gives. |

## Left out

- Process creation, `execvp`, `dup2`, `wait` and the programs themselves are not run. A launch records what the child would start with, and a wait is only counted.
- `pipe` and `fork` are modelled as always succeeding. The `perror`/`exit` paths for their failure are not modelled, and neither is any `perror` or `strerror` text.
- `read_input`, `print_prompt`, readline, `load_history` and `save_history` are left out: they are terminal and file I/O. A session is a given sequence of lines, with the newline already removed, and it ends at `exit` or when the lines run out.
- `main` and `main_loop` of `CP_1.c` are not modelled. They launch a terminal emulator, print a banner through `figlet` and record each line a second time before `execute_line` records it again.
- Memory management (`strdup`, `free`, `calloc`) is not modelled, nor are its bugs. One is `free` of the static `read_input` buffer at CP_1.c:441 and CP_1.c:447.
- `chdir`, `getcwd` and `getenv` are not modelled. Builtins are recorded as runs with their vector and streams: their own output (the directory, the echoed words, the history listing) is not modelled, and neither is the `dup` save and restore around them. CP.c's `cd: missing argument` and CP_1.c's syntax and pipeline notices are modelled as printed lines. Standard output and standard error share one console.
- ShellCp.Builtin: `cd`, `pwd`, `echo` and `history` are recorded with their vector only. Their effect on the working directory and their printed output are not modelled.
- Only the value `atoi` gives is modelled. Overflow of its `int` is not.
- ShellCp.ExecuteCommand: the `[Background]` notice omits the process id, which the model does not have.
- ShellCp.RunInput, ShellCp.ExecutePipeline and ShellCp.RunSession require every line to be a pipeline of at most nine stages. `execute_pipeline` in `CP.c` writes past `commands[10]` for more stages, which is undefined behaviour.
- The redirection descriptors that `CP_1.c` opens for a single command are kept in its `Launch`, because the child does not close them before `execvp`. A pipeline child closes only the descriptors of its last `<` and last `>`/`>>` (CP_1.c:393-394), and the shell does the same (CP_1.c:408-409), so those of earlier redirections of the same stage stay open in both; the model records exactly that.
- Descriptors are numbered from a counter that only grows: `open` and `pipe` take the next numbers after every descriptor ever allocated, and a closed number is never reused. A POSIX kernel returns the lowest free descriptor instead. The properties that name descriptor numbers, such as the `LastFd` descriptors of a stage, depend on this numbering.
- Each child's descriptor set records the close loop and the redirection closes only. A descriptor closed by `dup2` or its source is not tracked.
- When a pipeline line has no `|` field at all, `CP.c` hands the NULL in `commands[0]` to `tokenize_input`. `strtok` then resumes at the end of the line, which the model gives as a stage with no words whose child exits.
- The `cmd_count < MAX_COMMANDS - 1` limit of CP_1.c:311 is modelled as taking at most 63 parts.
- `execute_line` in CP_1.c never returns 2 from a pipeline: `execute_pipeline` returns only 0, so `exit` inside a pipeline runs as a stage.
