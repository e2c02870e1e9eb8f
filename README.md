# Rewind bookkeeping of the terminal agent client

This project models, in Dafny, the bookkeeping that lets a user of the
terminal client `cli-rewind-py` rewind a conversation with a streaming agent
to an earlier turn. The client keeps a history of completed turns, each
pairing the checkpoint id of the user message with the checkpoint id of the
last assistant message of that turn. Typing `/rewind` lists every turn but the
first, with a preview of its prompt. Picking turn *i* restores the files to
turn *i*'s user checkpoint and restarts the session at turn *i − 1*'s
assistant checkpoint. The restarted session first cuts the history back to
the turn that ends at that checkpoint. While a response streams, the client
folds the raw events into the two checkpoint ids of the turn, and an Esc-key
watcher may interrupt the response.

Files:

- `wrappers.dfy`: `Option`, `Result` and Python truthiness of an optional string.
- `history.dfy`: history entries, rewind targets, previews, the menu, resolving a
  picked entry, and truncation.
- `commands.dfy`: `str.strip()`, `str.lower()` and the dispatch of a typed line.
- `capture.dfy`: raw stream events and the per-turn checkpoint fold.
- `escwatch.dfy`: the decision loop of the Esc-key watcher.
- `session.dfy`: the `SessionState` class, the imperative session loop proved
  equal to its specification functions, and the outer restart loop.

Modelling choices:

- Python truthiness is kept where the code relies on it. `if rewind_to:`
  treats an empty id like `None`. `if current_user_uuid and
  current_assistant_uuid:` needs both ids present and non-empty.
- `history.index(entry)` compares entries by value. `IndexOf` therefore
  returns the first equal entry. `history[idx - 1]` at `idx == 0` follows
  Python's negative indexing (`PyAt`) and yields the last entry.
- A run of the session loop takes its input as a finite script of lines.
  Each line carries the integer the rewind menu would read and the event
  stream a prompt would receive. Running out of lines is end of input at the
  prompt, which ends the run with `None`.
- With unique, non-empty assistant checkpoints, picking history index *i*
  in the rewind menu returns turn *i − 1*'s assistant checkpoint. The next
  run therefore keeps turns 0..*i − 1*, *i* turns in all. `RewindLeavesPrefix`
  and `RewindCycle` state this.

## Model

| member | source | states |
|---|---|---|
| `History.RewindTargets` | cli-rewind-py/main.py:39-44 | The targets number max(0, L − 1) for a history of length L. Target k is history entry k + 1, so entry 0 is never offered. |
| `History.FirstEntryNeverTarget` | cli-rewind-py/main.py:39-44 | With unique assistant checkpoints, the first entry is not among the targets, not even by value. |
| `History.Preview` | cli-rewind-py/main.py:109 | Content of at most 50 characters is shown unchanged. Longer content shows its first 50 characters followed by "...", 53 characters in all. |
| `History.MenuChoice` | cli-rewind-py/main.py:100-122 | With no targets the result is None whatever the choice. Otherwise a choice i with 1 ≤ i < L picks history entry i. 0, negative, too large or unparsable input picks nothing. |
| `History.IndexOf` | cli-rewind-py/main.py:181 | `list.index`: the result is the position of an equal entry, and no earlier entry is equal. |
| `History.ResolveRewind` | cli-rewind-py/main.py:181-186 | Files are restored to the picked entry's user checkpoint. The resume id is the assistant checkpoint of some entry of the history. |
| `History.ResolveSelected` | cli-rewind-py/main.py:181-186 | For entry i ≥ 1 with no equal entry before it: restore to entry i's user checkpoint and resume at entry i − 1's assistant checkpoint. |
| `History.ResolveDuplicateOfFirst` | cli-rewind-py/main.py:181-182 | If a target equals entry 0 by value, `index` returns 0. `history[-1]` then resumes after the last turn. |
| `History.RewindCommand` | cli-rewind-py/main.py:175-187 | `/rewind` yields a plan exactly when the choice is a valid history index ≥ 1. Files are restored to that entry's user checkpoint. With unique checkpoints, the resume id is entry i − 1's assistant checkpoint. |
| `History.FindAssistant` | cli-rewind-py/main.py:149-153 | Returns the first position whose assistant checkpoint equals the id. Returns None exactly when no entry has it. |
| `History.Truncate` | cli-rewind-py/main.py:148-154 | A missing or empty id leaves the history unchanged. Otherwise the history becomes the prefix ending at the first entry with that assistant checkpoint, inclusive. With no such entry, the error carries the id. |
| `History.TruncateToUnique` | cli-rewind-py/main.py:148-152 | With unique checkpoints, truncating at entry i's assistant checkpoint leaves exactly entries 0..i. |
| `History.RewindLeavesPrefix` | cli-rewind-py/main.py:145-186 | Choosing index i ≥ 1 and truncating at the returned resume id leaves the first i entries. This assumes unique, non-empty checkpoints. |
| `Commands.StripLeft` | cli-rewind-py/main.py:189 | Removes exactly the leading whitespace, and the result is a suffix of the input. |
| `Commands.StripRight` | cli-rewind-py/main.py:189 | Removes exactly the trailing whitespace, and the result is a prefix of the input. |
| `Commands.Strip` | cli-rewind-py/main.py:189 | The result is empty exactly for all-whitespace input. Otherwise it neither starts nor ends with whitespace. It is the slice of the input that starts after the leading whitespace, and only whitespace follows it. |
| `Commands.StripOfPadded` | cli-rewind-py/main.py:189-194 | Stripping whitespace + text + whitespace gives the text back, whenever the text has no whitespace at either end. |
| `Commands.Lower` | cli-rewind-py/main.py:172-175 | Keeps the length and maps each ASCII capital to its lower-case letter. Every other character is unchanged. |
| `Commands.Dispatch` | cli-rewind-py/main.py:172-194 | A line that lower-cases to `/exit` exits, and one that lower-cases to `/rewind` rewinds. An all-whitespace line is skipped. Any other line is a prompt whose text is the stripped, non-empty line. |
| `Capture.Step` | cli-rewind-py/main.py:202-209 | A plain-text user event sets the user checkpoint only while it is unset; every other event leaves it alone. An assistant event always overwrites the assistant checkpoint, and no other event touches it. |
| `Capture.Fold` | cli-rewind-py/main.py:198-216 | Each captured checkpoint is the uuid of some event of its kind. `NoUserUuid`, `UserUuidIsFirst`, `NoAssistantUuid` and `AssistantUuidIsLast` characterise the fold exactly. |
| `Capture.NoUserUuid` | cli-rewind-py/main.py:202-206 | Without a plain-text user event that carries a uuid, no user checkpoint is captured. |
| `Capture.UserUuidIsFirst` | cli-rewind-py/main.py:202-206 | The user checkpoint is the uuid of the first plain-text user event that has one. |
| `Capture.NoAssistantUuid` | cli-rewind-py/main.py:208-209 | Without an assistant event, no assistant checkpoint is captured. |
| `Capture.AssistantUuidIsLast` | cli-rewind-py/main.py:208-209 | The assistant checkpoint is the uuid of the last assistant event. |
| `Capture.ResultIndex` | cli-rewind-py/main.py:198-223 | Returns the position of the first `result` event. Returns None exactly when there is none. |
| `Capture.ReceiveTurn` | cli-rewind-py/main.py:192-223 | At most one entry is appended, and earlier entries are untouched. An entry is appended exactly when both checkpoints folded from the events before the first `result` are present and non-empty, and it is (user checkpoint, assistant checkpoint, prompt). A known session id is kept; an unset one is taken from the `result`. A stream with no `result` changes nothing. Reading stops right after the first `result`. |
| `Capture.EventsAfterResultIgnored` | cli-rewind-py/main.py:218-223 | Events after the first `result` have no effect. |
| `Capture.ReceiveTurnKeepsNonEmptyUuids` | cli-rewind-py/main.py:221-222 | Reading a response keeps every history entry's checkpoints non-empty. |
| `Capture.RecordsCompleteTurn` | cli-rewind-py/main.py:192-223 | A completed turn records (first plain-text user uuid, last assistant uuid, prompt). The session id comes from the `result` only if it was unset. |
| `Capture.NoUserEventNoTurn` | cli-rewind-py/main.py:202-222 | A turn with no plain-text user event (only tool results) is never recorded. |
| `Capture.NoAssistantEventNoTurn` | cli-rewind-py/main.py:208-222 | A turn with no assistant event before the first `result` is never recorded. |
| `Capture.EmptyAssistantUuidNoTurn` | cli-rewind-py/main.py:208-222 | When the last assistant event before the first `result` has a missing or empty uuid, the turn is not recorded, and an unset session id is still taken from the `result`. |
| `Capture.EmptyUserUuidNoTurn` | cli-rewind-py/main.py:202-222 | When the first plain-text user event carrying a uuid carries an empty one, the turn is not recorded. |
| `EscWatch.WatchEscKey` | cli-rewind-py/main.py:71-79 | The watcher stops at the first Stop or Esc, and every earlier key is ignored. It interrupts exactly once when an Esc comes before any Stop. Otherwise it never interrupts. |
| `Session.SessionState.constructor` | cli-rewind-py/main.py:30-34 | A new state has no session id and an empty history. |
| `Session.SessionState.AddMessage` | cli-rewind-py/main.py:36-37 | Appends exactly one entry with the given fields. Earlier entries and the session id are unchanged. |
| `Session.TruncateHistory` | cli-rewind-py/main.py:148-154 | The for-else scan leaves the history equal to `Truncate` of the old one. On a missing target it reports the id and leaves the history unchanged. |
| `Session.ReceiveResponse` | cli-rewind-py/main.py:192-223 | The event loop leaves the session id and history that `ReceiveTurn` gives, and reports how many events it read. |
| `Session.StepLine` | cli-rewind-py/main.py:166-223 | No line raises the missing-target error. A resume id is an assistant checkpoint of the history. A line that continues the loop only appends to the history and keeps checkpoints non-empty. |
| `Session.HandleLine` | cli-rewind-py/main.py:166-223 | Handling one line on the state object does what `StepLine` says. |
| `Session.Loop` | cli-rewind-py/main.py:165-223 | Within a run the history only grows at the end and keeps non-empty checkpoints. The run never raises. A returned resume id is the assistant checkpoint of a turn in the final history. |
| `Session.SessionRun` | cli-rewind-py/main.py:145-154 | A run raises the missing-target error exactly when truncation fails, and then changes nothing. |
| `Session.RunSession` | cli-rewind-py/main.py:145-223 | The imperative run returns the outcome and leaves the state that `SessionRun` gives. |
| `Session.RewindCycle` | cli-rewind-py/main.py:175-231 | `/rewind` with choice i returns turn i − 1's assistant checkpoint and restores files to turn i's user checkpoint. The next run starts from exactly the first i turns. This assumes unique, non-empty checkpoints. |
| `Session.MainLoop` | cli-rewind-py/main.py:226-233 | When the first run does not resume (end of input or `TargetNotFound`), the loop ends with that run's result. A final resume id is the assistant checkpoint of a turn in the final history. |
| `Session.MainRestartsAtCheckpoint` | cli-rewind-py/main.py:226-233 | When a run returns the non-empty assistant checkpoint of turn k of its history, and assistant checkpoints are unique, the outer loop continues exactly as a fresh run from turns 0..k would. |
| `Session.MainNeverMissesFrom` | cli-rewind-py/main.py:226-233 | Assume the history's checkpoints are non-empty and the resume id names one of its turns. Then no later run of the outer loop raises the missing-target error. |
| `Session.MainNeverMisses` | cli-rewind-py/main.py:226-233 | From a fresh state, the outer restart loop never raises "Rewind target not found". |

## Left out

- Terminal handling is not modelled: cbreak mode via `termios`/`tty`, `select` over stdin and the stop pipe, and creating, writing and closing the pipe (cli-rewind-py/main.py:47-68, 82-97). These are OS calls. The watcher sees each wake-up as one `KeyEvent`, and a stop that is ready together with a key is modelled as `Stop`.
- Concurrency is not modelled: the asyncio tasks, their cancellation and `run_in_executor`. The watcher's key loop and the event loop are modelled separately, and how they interleave in time is not.
- The agent SDK is not modelled: `ClaudeSDKClient`, `query`, `receive_messages`, `interrupt`, `rewind_files`. Its event stream is an input sequence of `RawEvent`. File restore is the `restoredTo` output. `interrupt` is the counter returned by `WatchEscKey`.
- `create_options` is not modelled (cli-rewind-py/main.py:125-142). It only builds SDK configuration.
- Console output is not modelled: every `print`, including the menu lines around the previews, the debug lines and the "[Rewound to: …]" banner. The banner reads `history[-1]`, and `Truncate` guarantees that entry exists.
- `MenuChoice` does not model `int()` parsing of the typed line. The parsed integer is an input, with None for a line that is not an integer or for end of input.
- Each prompt's event stream is modelled on its own. `HandleLine` drops the count of events read, while the code calls `receive_messages()` again on the same query for each prompt (cli-rewind-py/main.py:198); events the agent leaves unread after a `result` are not described.
- `Commands.Lower`: lower-cases ASCII letters only. No other character lower-cases to a letter of `/exit` or `/rewind` while keeping one character, so the command dispatch is unaffected.
- The loop does not stop on `KeyboardInterrupt` at the prompt as a separate event. End of the script stands for both end of input and Ctrl-C.
- Uniqueness of assistant checkpoints is not modelled. It comes from the agent, and the model takes it as an assumption where a theorem needs it.
- `web/backend/api.py`, `cli-py/main.py` and `cli-interrupt-py/main.py` are not part of this model. They are transport and prompt loops around the SDK with no history of their own.
