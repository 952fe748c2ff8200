# go-logging in Dafny

A model of the `logging` package of go-logging (`logging.go`). The package is
a small levelled logger that writes to two sinks, plus helpers that run shell
commands and drive the external `dialog` program. The model covers:

- **Levels** (`levels.dfy`). The rank constants, the `LOGLEVELS` registry, the
  `colorlvl` table, how `Alert` resolves an empty level name, and the rank gate
  `LOGLEVELS[logLevel] >= LOGLEVELS[level]`. A Go map miss yields rank 0 and
  colour "".
- **Logger** (`logger.dfy`). The package state is a class `LogState` holding
  the configuration, the `GroupLogger` table and the two sinks:
  - `termLog`, the records that reach standard output;
  - `fileLog`, the records the logger's own writers put in the log file. Output of child
    processes that is copied into the file is not part of it.

  `Init` fills the table in a loop over the registry. `Alert` resolves, gates
  and writes through the table. Both methods are proved against pure
  specification functions:
  - `LoggerTable` specifies the table;
  - `Dispatch` specifies the gating and the payloads;
  - `Outputs` specifies the records written.
- **Text** (`text.dfy`). The Go library behaviour the package relies on:
  - `strings.TrimSpace`, with the white-space set of `unicode.IsSpace`;
  - `strings.ToUpper` on the ASCII level names;
  - the `%d` verb, with a reader (`ParseInt`) that inverts it.
- **Shell** (`shell.dfy`). Each command helper is a pure function:
  - the stream wiring of `ShellExec` and `Dialog`, as sets of sinks;
  - the argument vector each one runs;
  - the trimmed result;
  - the command line of each `dialog` box.

  The command lines are proved against a reference reading of shell words: the
  argv that `sh -c` gives the `dialog` program has each title and text as a
  single word, and has rows before columns, each reading back as the number it
  renders. `DialogMsgBox` is a method, because it writes a debug record through
  `Alert` before it runs the box.

Behaviours of the code that the model keeps as written:

- An `Alert` with an empty level and an error resolves to "error", which passes a "warn" threshold.
- A "skip" threshold (rank 99) admits every level.
- The registry has exactly seven names.

## Model

| member | source | states |
|---|---|---|
| Levels.Rank | logging.go:33-41 | a registered name has its registry rank; a map miss gives 0, so rank 0 means "notset" or an unknown name; every rank lies between 0 and 99 |
| Levels.OrderedIsRegistry | logging.go:33-41 | the seven names listed in order are exactly the registry's keys, each once |
| Levels.RanksStrictlyIncrease | logging.go:15-23 | ranks strictly increase: notset < error < warn < info < debug < trace < skip |
| Levels.ResolveLevel | logging.go:91-93 | a non-empty level is kept; an empty one becomes "error" exactly when an error is given and "info" exactly when none is, both registered names other than "notset" |
| Levels.Admits | logging.go:95 | the gate passes exactly when the level is "notset" or unregistered, or both names are registered and the threshold's rank is at least the level's |
| Levels.AdmitsFollowsOrder | logging.go:95 | between registered names, a level passes the gate exactly when it comes no later than the threshold |
| Levels.SkipAdmitsAll | logging.go:95 | a "skip" threshold lets every level through, unknown names included |
| Levels.NotsetAlwaysAdmitted | logging.go:95 | a "notset" message passes every threshold |
| Levels.NotsetAdmitsOnlyNotset | logging.go:95 | a "notset" threshold lets through exactly "notset" and unregistered names |
| Levels.UnknownThresholdIsNotset | logging.go:95 | an unregistered threshold gates exactly as "notset" does |
| Levels.AdmitsMonotone | logging.go:95 | raising the threshold never blocks a level that passed before |
| Levels.ColorOf | logging.go:26-32 | only a registered level other than "notset" and "skip" can have a colour |
| Levels.SentinelsUncoloured | logging.go:26-32 | "notset" and "skip" have no colour (the map miss gives "") |
| Logger.DistFor | logging.go:76-86 | a level's terminal writer goes to standard output and its file writer to the file (or nowhere); both are time-stamped exactly when the level is not "notset" |
| Logger.LoggerTable | logging.go:75-87 | the table `Init` builds has exactly the registry's names as keys |
| Logger.TableEntries | logging.go:76-86 | every terminal writer goes to standard output; every file writer goes to the file, or nowhere without one; "notset" is unstamped with prefixes "[ <green>..<reset> ] " and "[ .. ] "; every other level is stamped, with terminal prefix "[ <colour><bold>NAME<reset> ] - " and file prefix "[ NAME ] - "; "skip" has no colour |
| Logger.PartialTableStep | logging.go:75-86 | one loop iteration adds exactly that name's entry to the table built so far |
| Logger.LogState.constructor | logging.go:42-47 | the state before `Init`: nil verbosity, empty threshold, no file, empty table, empty sinks |
| Logger.LogState.Init | logging.go:70-88 | stores the configuration; the table becomes the old table overwritten by one entry per registered name, which is exactly `LoggerTable` when the old keys were registered names; the sinks are unchanged |
| Logger.Dispatch | logging.go:90-108 | a message is delivered exactly when the threshold admits its resolved level; if delivered, it carries that level, and a terminal payload exactly when verbose |
| Logger.DispatchPayloads | logging.go:96-106 | "notset" payloads are the raw message; otherwise the file gets the message, the bracketed error if there is one, and a newline; the terminal copy adds the brown/reset colour around the error, and is identical to the file copy when there is no error or the colours are empty |
| Logger.DispatchAtSentinelThresholds | logging.go:95 | under "skip" everything is delivered; under "notset" only "notset" messages and unknown names are |
| Logger.ConnectFailedExample | logging.go:90-106 | "connect failed" with error "io timeout", no level, threshold "warn" and verbose is logged at level "error", coloured on the terminal and as "connect failed [ io timeout ]\n" in the file; an unlevelled message without an error is dropped at "warn" |
| Logger.OutputsThroughTable | logging.go:77-105 | through the built table, a delivered message leaves exactly one record on the terminal when verbose and none otherwise, and exactly one in the file when a file is open and none otherwise, each with its level's prefix and stamp flag; a suppressed message leaves nothing |
| Logger.LogState.Output | logging.go:97-105 | one `Printf`/`Println` appends one record to the sink its writer points to, and nothing when that is the nil file |
| Logger.LogState.Emit | logging.go:97-105 | the terminal write (when there is a terminal payload) comes before the file write |
| Logger.LogState.Alert | logging.go:90-109 | both sinks grow by exactly the records `Dispatch` decides through the current table; verbosity and the level's entry are needed only once the gate has passed |
| Logger.ConfigureThenAlert | logging.go:70-109 | after `Init`, an alert writes exactly the records that `Dispatch` and `LoggerTable` specify; verbosity must be set and the level registered only when the gate admits the alert |
| Text.TrimSpace | logging.go:127 | the result starts and ends with non-white-space (or is empty) and is no longer than the input |
| Text.TrimSpaceStrips | logging.go:127 | the result stands in the input right after its leading white space, with only white space after it |
| Text.TrimSpaceUnique | logging.go:127 | for any split of the input into white space, a trimmed middle and white space, the middle is the result |
| Text.TrimSpaceIdempotent | logging.go:127 | trimming twice is trimming once |
| Text.ToUpper | logging.go:83-84 | same length, each character upper-cased |
| Text.NatToString | logging.go:168 | `%d` of a non-negative number is non-empty decimal digits with no leading zero |
| Text.IntToString | logging.go:168 | `%d` of an int is digits with a leading minus sign exactly when the number is negative |
| Text.IntToStringRoundTrip | logging.go:168 | reading the `%d` rendering back gives the number |
| Text.IntToStringInjective | logging.go:168 | distinct numbers render differently |
| Shell.ShellRouting | logging.go:117-123 | `ShellExec` always captures standard output and never its standard error; nothing goes to a pipe or to the parent's standard output |
| Shell.ShellRoutingRule | logging.go:117-123 | standard output is always captured, and is teed to the log file exactly when one is open; standard error reaches the terminal exactly when verbose and the file exactly when one is open; nothing goes to a pipe |
| Shell.ShellExec | logging.go:111-130 | runs `shell -c command` with the `ShellExec` wiring; returns the child's error and its captured output trimmed |
| Shell.ShellExecOutput | logging.go:127-129 | whatever white space surrounds the child's output, the returned string is what lies between it |
| Shell.EchoHello | logging.go:111-130 | a child printing "hello\n" yields "hello" |
| Shell.DialogRouting | logging.go:146-163 | `Dialog` captures nothing; standard output goes into the pipe exactly when not verbose |
| Shell.Dialog | logging.go:132-177 | runs `shell -c command` with the `Dialog` wiring and returns its error; exactly when not verbose it starts `shell -c` on the viewer command |
| Shell.DialogRoutingRule | logging.go:138-174 | when verbose, both streams go to the terminal, and to the file when one is open; when not verbose, standard output goes into the pipe (and the file), and standard error goes into the pipe only when there is no file; the pipe is written exactly when a viewer reads it |
| Shell.DialogStderrAgainstShellExec | logging.go:146-163 | `Dialog` wires standard error as `ShellExec` does, except with neither verbosity nor a file, where it goes into the pipe |
| Shell.DialogExec | logging.go:179-181 | a viewer is started exactly when not verbose |
| Shell.DialogExecViewer | logging.go:179-181 | without verbosity the viewer runs `dialog` with an empty title and `--progressbox`, titles and text as single words, rows before columns |
| Shell.ViewerCommand | logging.go:168 | the viewer's `Sprintf` format, written as its arguments; no contract of its own, its reading is stated by `ViewerCommandWords` |
| Shell.ViewerCommandWords | logging.go:168 | the viewer command reads back as `dialog --stdout --backtitle B --title T --TYPE TEXT rows cols`, each text one word |
| Shell.DialogInfo | logging.go:183-193 | runs `shell -c` on the info-box command through `ShellExec`; the error returned is the child's |
| Shell.InfoCommand | logging.go:184-188 | the info box's format as arguments; its reading is stated by `InfoCommandWords` |
| Shell.InfoCommandWords | logging.go:184-188 | the info box reads back as `dialog --stdout --backtitle B --title T --infobox TEXT rows cols` |
| Shell.DialogYesNo | logging.go:195-204 | runs `shell -c` on the yes/no command through `ShellExec`; the error (the answer) is the child's |
| Shell.YesNoCommand | logging.go:196-199 | the yes/no box's format as arguments; its reading is stated by `YesNoCommandWords` |
| Shell.YesNoCommandWords | logging.go:196-199 | the yes/no box reads back as `dialog --stdout --backtitle B --yesno TEXT rows cols`, with no title |
| Shell.DialogMsgBox | logging.go:206-218 | first logs the debug record "DialogMsgBox: ..." exactly as `Alert` would, then runs `shell -c` on the message-box command and returns the child's error |
| Shell.DialogMsgBoxRun | logging.go:207-215 | the `ShellExec` call of `DialogMsgBox`: the message-box command, the `ShellExec` wiring, the child's error |
| Shell.MsgBoxCommand | logging.go:207-211 | the message box's format as arguments; its reading is stated by `MsgBoxCommandWords` |
| Shell.MsgBoxCommandWords | logging.go:207-211 | the message box reads back as `dialog --stdout --backtitle B --title T --msgbox TEXT rows cols` |
| Shell.DialogCheckList | logging.go:220-229 | runs `shell -c` on the check-list command with the `ShellExec` wiring; returns the child's error and its output trimmed |
| Shell.CheckListCommand | logging.go:221-226 | the check list's format as arguments, then the raw item field; its reading is stated by `CheckListCommandWords` |
| Shell.CheckListCommandWords | logging.go:221-226 | the check list reads back as `dialog --stdout --title T --backtitle B --no-tags --checklist TEXT rows cols 0` followed by the shell's own words of the item field |
| Shell.DialogInputBox | logging.go:231-240 | runs `shell -c` on the input-box command with the `ShellExec` wiring; returns the child's error and its output trimmed |
| Shell.InputBoxCommand | logging.go:232-237 | the input box's format as arguments, then the raw extra field; its reading is stated by `InputBoxCommandWords` |
| Shell.InputBoxCommandWords | logging.go:232-237 | the input box reads back as `dialog --stdout --title T --backtitle B --no-tags --inputbox TEXT rows cols` followed by the words of the extra field |

## Left out

- Starting processes (`exec.Command`, `cmd.Run`, the environment, standard input) is not modelled. A child's printed output and exit error are parameters (`Outcome`). The interleaving of its two streams is not modelled.
- The progress-box goroutine, the pipe's buffering and its closing are not modelled. `Dialog` records which viewer command it starts, and which sinks feed the pipe.
- `log.Logger` formatting is reduced to a record of prefix, time-stamp flag and payload. This leaves out the clock, the `Lmsgprefix` layout, and the newline `log` adds when a payload lacks one.
- The colour constants of the external colour package are opaque strings (`Palette`).
- An `error` value is its `%v` rendering, a string. A `TLogShell`'s `%v` rendering in `DialogMsgBox` is the parameter `shellText`.
- The open file handle is a flag: writes go to the file when one is open, and nowhere when the handle is nil. Failed writes to an open file are not modelled.
- Logger.LogState.Alert: a nil `verbose`, or a level missing from the table once the gate has passed, panics in Go. These are preconditions here. An unregistered level that passes the gate is one such case.
- Shell.DialogMsgBox: its precondition requires a non-nil `verbose`, because `ShellExec` always dereferences it.
- Text.ToUpper: only ASCII letters are upper-cased, which is enough for the registry's names. Full Unicode case mapping is not modelled.
- Text.TrimSpace: works on characters, not on UTF-8 bytes.
- Shell.ShellExec: returns the error and output it is given. Launch failures and exit codes (such as `exit 7`) are not distinguished.
- Shell.CheckListCommandWords: the reference shell reading knows only spaces and double quotes. The quoted texts are required to be free of `"`, `\`, `$` and backquote, and nothing is stated otherwise.
- The other `*CommandWords` lemmas make the same restriction.
- Shell.ViewerCommandWords: the box type is required only to be free of spaces and double quotes. Other characters the shell would act on (`$`, `*`, `;`, a tab) are read as plain text by the reference reading.
- Shell.DialogMsgBox: `fileLog` holds only the logger's records. When a file is open, `ShellExec` also copies the child's standard output and standard error into it (logging.go:118-119). The model shows that copy only as the `FileSink` entries of the routing. The same holds for every `ShellExec` and `Dialog` call.
- The concrete upper-case prefixes ("[ ERROR ] - " and so on) are stated through `ToUpper` rather than written out for each level; only "SKIP" is worked out.
