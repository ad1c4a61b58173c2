# Command panel core, modelled in Dafny

The panel is a local web server (app.go). It edits TOML configuration files in a `configs`
directory and runs the recipes of a makefile, one at a time, as `make <recipe>` processes. This
project models the parts of its HTTP handlers that hold logic:

- **The command slot** (`commands.dfy`, `command_traces.dfy`). A package-level `currentCmd` is
  either nil or the one running `make` process. It is guarded by `currentCmdMutex`.
  - `/commands/run` fills the slot only when it is empty, the form names a command and the
    process starts.
  - `/commands/stop` kills the held process and empties the slot.
  - A waiter goroutine empties the slot when `cmd.Wait()` returns.
  - Each handler body and the waiter's reset hold the mutex throughout. Each one is therefore one
    atomic step: a pure step function (`RunStep`, `StopStep`) and a method of the `Panel` class
    that is proved to follow it.
  - What the operating system does is a parameter: the error from `cmd.Start()` or
    `Process.Kill()`, and the identity of the new process.
  - `CommandTraces` puts the slot into a world of processes and pending waiters. An execution is
    any interleaving of handler calls and waiter resets. Single flight, meaning at most one
    started command alive, is proved there, and the case where app.go loses it is shown.
- **Recipe names** (`recipes.dfy`). `/commands/get` finds every match of
  `(?m)^[a-zA-Z0-9_-]+:.*` in the makefile text. It trims each match with `strings.TrimSpace` and
  removes every `:` with `strings.ReplaceAll`, in place. The regular-expression search is modelled
  as a scan over positions and proved equal to a plain definition: the lines, split at `\n`, that
  begin with a target.
- **Configuration file names** (`configs.dfy`). `/files/save` appends `.toml` unless the name
  already ends with it.

Notes on app.go's behaviour, which the model follows:
- `/commands/stop` on an empty slot answers 200 "No command is running", not an error.
- `/commands/stop` empties the slot itself, as well as the waiter.
- The stop handler sends `Process.Kill` to the `make` process only. No process group is signalled.
- app.go has no interrupt forwarding on panel shutdown.
- The run handler does not check the name against the recipe list. Any non-empty name is passed
  to `make`.

## Model

| member | source | states |
|---|---|---|
| Commands.RunStep | app.go:140-182 | An occupied slot answers 409 "A command is already running" and stays as it is, even when the name is empty. On an empty slot, an empty name answers 400 "No command provided" and a failed start answers 500 with the start error; the slot stays empty in both cases. The slot changes exactly when the reply is "Command started", and then it holds exactly the new `make <name>`. |
| Commands.StopStep | app.go:184-202 | An empty slot answers 200 "No command is running" and stays empty. A failed kill answers 500 with the kill error and keeps the same command. A successful kill answers 200 "Command stopped" and empties the slot. The slot ends empty exactly when it was empty or the kill succeeded. Stop never installs a command. The reply is 200 exactly when the slot ends empty. |
| Commands.StopUndoesRun | app.go:140-202 | A successful run followed by a successful stop answers "Command stopped" and leaves the slot empty again. |
| Commands.Panel.constructor | app.go:23-26 | The slot starts empty. |
| Commands.Panel.Run | app.go:140-182 | The run handler changes the slot and replies exactly as RunStep says. |
| Commands.Panel.Stop | app.go:184-202 | The stop handler changes the slot and replies exactly as StopStep says. |
| Commands.Panel.ResetAfterWait | app.go:170-179 | The waiter's reset leaves the slot empty, whatever it held. |
| CommandTraces.WaiterReset | app.go:176-178 | As written, a waiter always empties the slot. Under the owner-only rule it empties the slot exactly when the slot is empty or holds the waiter's own command. It never installs a command. |
| CommandTraces.AtMostOneLive | app.go:23-26 | In a world that keeps single flight, at most one started command is alive. |
| CommandTraces.NextKeepsSingleFlight | app.go:140-202 | Every run and stop keeps single flight. So does a waiter reset for the command the slot holds, or when the slot is empty. Only a waiter for a command the slot no longer holds can break it. |
| CommandTraces.OwnerResetKeepsSingleFlight | app.go:170-179 | If each waiter resets the slot only while it still holds its own command, every interleaving keeps single flight and at most one command is alive. |
| CommandTraces.WaiterUnblocksRun | app.go:170-179 | There is no permanent lockout. While single flight holds, the held command's waiter can still run. After it resets, a run with a name and a successful start starts again. |
| CommandTraces.RunReplies | app.go:140-167 | Racing run requests that take the mutex in turn each get one reply. |
| CommandTraces.OccupiedRefusesAll | app.go:144-148 | While a command holds the slot, every run request is refused with the conflict reply. |
| CommandTraces.RacingRunsStartAtMostOne | app.go:140-167 | Of racing run requests, at most one starts, and every later one gets the conflict reply. If the slot is empty and the first request names a command whose start succeeds, that request starts and all the others get the conflict reply. |
| CommandTraces.StaleWaiterRunsTwoCommands | app.go:170-200 | As written, this sequence leaves two commands alive at once: run, stop, run again, the first command's waiter resets, run a third time. |
| CommandTraces.OwnerResetRefusesThirdRun | app.go:170-179 | With owner-only resets, the same sequence refuses the third run and leaves only the second command alive, still in the slot. |
| Recipes.NameRunSpec | app.go:129 | NameRun counts only `[a-zA-Z0-9_-]` characters at the start of a line and stops at the first other character. |
| Recipes.LineEndSpec | app.go:129 | No `\n` lies between a position and its LineEnd, and the character at LineEnd, if any, is the `\n` that ends the line. |
| Recipes.NameEndWithinLine | app.go:129 | A run of name characters never extends past the end of its line, so `.*` never has to cross a `\n`. |
| Recipes.LinesRoundTrip | app.go:129 | Splitting the text at every `\n` and joining the lines back with `\n` gives the original text. |
| Recipes.LinesFromHaveNoNewline | app.go:129 | No line of the split holds a `\n`. |
| Recipes.TargetLinesSound | app.go:129-130 | Every kept line is one of the input lines and begins with a name followed by `:`. |
| Recipes.LineTarget | app.go:129 | The pattern's head `[a-zA-Z0-9_-]+:` matches at a line start exactly when that whole line begins with a target. |
| Recipes.FindAllIsTargetLines | app.go:129-130 | The multi-line regular-expression search finds exactly the lines that begin with `[a-zA-Z0-9_-]+:`. Each one is found whole, in file order, and all other lines are skipped. |
| Recipes.FindAllSound | app.go:129-130 | Every string the search `FindAll` returns for `(?m)^[a-zA-Z0-9_-]+:.*` is one of the text's lines (split at `\n`), holds no `\n`, and begins with a name followed by `:`. |
| Recipes.TrimLeft | app.go:133 | What is dropped is a run of leading spaces. The result is a suffix of the input and does not start with a space. |
| Recipes.TrimRight | app.go:133 | What is dropped is a run of trailing spaces. The result is a prefix of the input and does not end with a space. |
| Recipes.TrimSpace | app.go:133 | The result is no longer than the input and neither begins nor ends with a space. |
| Recipes.IsSpaceLatin1 | app.go:133 | Below U+0100, the space set TrimSpace uses (`unicode.IsSpace`) is exactly tab, newline, vertical tab, form feed, carriage return, space, U+0085 and U+00A0. |
| Recipes.RemoveColons | app.go:134 | The result holds no `:` and is no longer than the input. |
| Recipes.RemoveColonsAppend | app.go:134 | Removing `:` from a concatenation removes it from each part separately. With RemoveColonsNoColon, this fixes the result as the input with every `:` dropped and the other characters kept in order. |
| Recipes.RemoveColonsNoColon | app.go:134 | A string without `:` comes back unchanged. |
| Recipes.Clean | app.go:133-134 | One turn of the loop: trim, then drop every `:`. The result holds no `:` and is no longer than the match. What it keeps of a target line is stated by CleanKeepsName and TrimBeforeReplace. |
| Recipes.CleanKeepsName | app.go:132-135 | A cleaned match begins with its non-empty recipe name and holds no `:`. |
| Recipes.TrimBeforeReplace | app.go:133-134 | Trimming happens before the `:`s are removed, so a line `name:mid:` becomes `name` followed by `mid`, with the spaces at the end of `mid` kept (`build: deps :` becomes `build deps `). |
| Recipes.CleanInPlace | app.go:132-135 | The loop replaces every element of the match array with its trimmed, colon-free form. |
| Recipes.ListCommands | app.go:126-137 | The rendered command list has one entry per line that begins with a target, in file order. Each entry is that line cleaned, begins with the target's non-empty name and holds no `:`. |
| Configs.ConfigFileName | app.go:98-101 | The saved name always ends with `.toml`. A name that already does is unchanged. Otherwise the input is a prefix of the result and the result is 5 characters longer. |
| Configs.ConfigFileNameIdempotent | app.go:99-101 | Normalising twice gives the same name as normalising once. |
| Configs.ConfigFileNameFixedPoints | app.go:99-101 | A name is left unchanged exactly when it already ends with `.toml`. |
| Configs.SaveConfig | app.go:97-113 | The file written is ConfigFileName of the posted name, so it ends with `.toml`. It receives the posted content. The reply is 200 "File saved successfully" exactly when the write succeeds; otherwise it is 500 with the write error. |

## Findings

| source | as written | input that shows it | evidently intended | confidence | as-written member | corrected member |
|---|---|---|---|---|---|---|
| app.go:170-179 | The waiter sets `currentCmd` to nil whatever it holds. The stop handler has already set it to nil (app.go:200), so after a stop the old waiter can clear the slot of a newer command. | Run `build` (process 1), stop it, run `build` again (process 2). Process 1's waiter then resets the slot, and a run of `test` (process 3) starts while process 2 is still running. | The waiter clears the slot only while it still holds the waiter's own `cmd`. | likely; not executed | CommandTraces.StaleWaiterRunsTwoCommands | CommandTraces.OwnerResetKeepsSingleFlight |

`Commands.Panel.ResetAfterWait` keeps the reset as app.go writes it. The single-flight theorem
is stated for the corrected reset. `NextKeepsSingleFlight` shows that, with the reset as
written, single flight fails only through a stale waiter.

## Left out

- HTTP routing, static files, template rendering and `router.Run` (app.go:29-39, 205) are not modelled. Replies are plain status and message values.
- The editor read, file delete and file list handlers (app.go:44-95) are not modelled. They are file I/O with error pass-through and no logic of their own.
- The `/commands/get` reply when `os.ReadFile` fails (app.go:120-124) is not modelled. ListCommands starts from the text of a successful read.
- `filepath.Join` is not modelled. SaveConfig gives the file name inside the configs directory, not the joined path, and the write itself is a parameter.
- Process creation, waiting and killing are not modelled. The start and kill outcomes and the process identity are parameters. The `live` set in CommandTraces tracks the `make` process only. Processes that `make` itself spawns are not modelled, and `Process.Kill` does not reach them.
- The error returned by `cmd.Wait()` is ignored in app.go (app.go:171-174) and does not appear in the model.
- Goroutine scheduling and the mutex are not modelled. Every critical section covers a whole handler or the waiter's reset, so executions are sequences of atomic steps.
- Text is modelled as decoded characters. How Go treats invalid UTF-8 bytes in the makefile is not modelled.
- Recipes.RemoveColons: its own contract only says the result has no `:` and is no longer than the input. RemoveColonsAppend and RemoveColonsNoColon together state that every other character is kept, in order. Putting that on the recursive function itself made the in-place loop's proof too expensive.
- Recipes.TrimSpace: its own contract only says the result has no space at either end. TrimLeft and TrimRight, which it composes, state exactly what is dropped.
