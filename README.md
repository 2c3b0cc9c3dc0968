# dkp-cli-runtime core, modelled in Dafny

This project models the core of `dkp-cli-runtime`, the Go runtime that DKP
command-line tools are built on. Every `.dfy` file is given to Dafny together.

- **The output engine** (`core/output`). This is the `Output` interface
  through which a command reports to its user.
  - The non-interactive renderer writes timestamped
    `<stamp> INF|WRN|ERR <msg><pairs>` lines.
  - The interactive renderer writes plain, yellow or red lines through a
    spinner. It ends an operation with a coloured mark (`✓`, `✗`, `∅`).
  - The progress gauge renders a 40-column bar and the elapsed time.
  - The silencing decorator is what `V(level)` returns above the verbosity.
  - There are two discarding outputs.
  - Two `logr` adapters route structured logging into an `Output`.
- **Plugin descriptions** (`core/plugin`). A command tree and its flags become
  a serialisable `CommandSpec` and `FlagSpec`, and the reverse conversion
  gives them back.
- **The `version` command** (`core/cmd/version`). It checks `--output`,
  orders the component names and prints versions.
- **The symlink re-exec handler** (`symlink-reexec`). A program invoked as
  `dkp-create-cluster` re-executes itself as `dkp create cluster`.
- **The `get` command** (`extensions/cmd/get`). This covers the command tree
  built for the allowed resources, the request transforms and the server-side
  table `Accept` header, and the several-kinds test.

Modules follow the Go packages.

| Module | Models |
|---|---|
| `Text` | Helpers for the `strings` functions and string order. |
| `GoFmt` | The slice of `fmt` and `strconv` that the code relies on: a string printed as a format with no operands, and `strconv.Quote`. |
| `Terminal` | Writers as a class that records each write. Colour is an abstract tag pair. |
| `Gauge`, `EndStatus`, `Spinner`, `KeyValues`, `Messages` | The pieces of the output engine. |
| `ConsoleOutput` | The two renderers as classes, and the `Output` interface as a datatype over them, the decorator and the discarding outputs. |
| `LogrSink`, `LogrLogger` | The two `logr` adapters. |
| `PluginFlag`, `PluginCommand` | `core/plugin`. |
| `VersionCmd` | The `version` command. |
| `SymlinkReexec` | The re-exec handler. |
| `GetCmd` | The `get` command. |

The model is imperative where the source is:

- The renderers, the spinner, the gauge and the writers are classes whose
  methods state the new state in full.
- The loops in the source are methods with loop invariants. These are
  `formatKeysAndValues`, `orderedKeys`, `SpecFromCommand`, `ToCommand`,
  `SpecsFromFlagset`, `multipleGVKsRequested`, the argument loop of
  `HandleExec` and the sub-command loop of `NewCommand`.
- Each of these methods is proved against a specification function. The
  properties are proved about that function.

Time is given as parameters: a timestamp text and a clock reading in whole
seconds.

Two points where the model follows the code to the letter:

- **`Enabled` and the silencing decorator.** `Enabled` is not part of the
  `Output` interface (core/output/output.go:8-147). So the decorator
  (runtime_core/output/noop.go:5-19) has no `Enabled`, and both `logr`
  adapters answer `true` for it.
- **Warnings through the decorator.** Here the code and its tests disagree.
  The decorator does not override `Warn`, `WarnWriter` or
  `StartOperationWithProgress`. These reach the renderer it wraps, so a
  warning sent through `V(n)` above the verbosity is still printed. The tests
  at core/output/interactive_test.go:148-161 expect silence instead. The
  definition of the decorator that those tests run against is not part of
  this model.

The interactive renderer ends an operation with what
core/output/interactive.go:137 writes: the mark's `Fprintln` of the
operation's text, which reads that text as a format. Whenever the text holds
no `%`, this is the intended mark line (see "## Findings").

## Model

| member | source | states |
|---|---|---|
| EndStatus.NewStatus | core/output/end_operation_status.go:27-32 | A status keeps the glyph and colour it was made with. |
| EndStatus.Fprintln | core/output/end_operation_status.go:22-25 | One write to the writer. It holds the painted glyph and the operation's text, and the whole line is read as a format. |
| EndStatus.ParseLineRoundTrip | core/output/end_operation_status.go:22-25 | The intended mark line keeps the status and the text apart and intact: both can be read back for any text. |
| EndStatus.FprintlnMatchesLine | core/output/end_operation_status.go:22-25 | When neither the glyph nor the text holds `%`, what is written is exactly the intended mark line. |
| EndStatus.FprintlnMangles | core/output/interactive.go:137 | An operation named "50%" ends with `" ✓ 50%!\n(MISSING)"`, which is not the intended line. |
| Gauge.ProgressGauge.constructor | core/output/gauge.go:24-29 | A new gauge has every field zero and no start time. |
| Gauge.SetCapacity | core/output/gauge.go:50-58 | Sets the capacity. A negative capacity is ignored, nothing else changes, and a nil gauge is left alone. |
| Gauge.SetStatus | core/output/gauge.go:60-65 | Sets the status and nothing else; a nil gauge is left alone. |
| Gauge.Set | core/output/gauge.go:67-72 | Sets the count and nothing else; a nil gauge is left alone. |
| Gauge.Inc | core/output/gauge.go:74-79 | Adds one to the count and changes nothing else. |
| Gauge.Dec | core/output/gauge.go:81-86 | Takes one from the count and changes nothing else. |
| Gauge.InitStartTime | core/output/gauge.go:88-95 | Sets the start time only when it is unset. |
| Gauge.StartAtIdempotent | core/output/gauge.go:88-95 | A second lazy start never moves the start time. |
| Gauge.String | core/output/gauge.go:100-135 | A nil gauge gives "". Otherwise the gauge is started if it was not, the rest of it is unchanged, and the text is the rendering of its fields at `now`. |
| Gauge.HumanReadableDuration | core/output/gauge.go:144-153 | The duration text has at least three characters and ends in `s`. |
| Gauge.DurationRoundTrip | core/output/gauge.go:144-153 | The duration text reads back as the same number of seconds: minutes, never hours, then two-digit seconds. |
| Gauge.DurationInjective | core/output/gauge.go:144-153 | Different durations never show the same text. |
| Gauge.DurationExamples | core/output/gauge_test.go:51-57 | The texts the tests expect: `00s`, `01s`, `1m01s`, `60m00s`, `61m30s`. |
| Gauge.RatioFits | core/output/gauge.go:111-112 | For values that fit Go's `int`, the `current/capacity` ratio is at most 39 characters. |
| Gauge.ProgressBounds | core/output/gauge.go:112-124 | For a ready gauge, progress is never negative and never exceeds the room next to the ratio. It fills that room exactly when the count is complete. |
| Gauge.BracketWidth | core/output/gauge.go:112-134 | The text between the brackets is always 40 characters: the bar, padding, then the ratio at the right edge. The bar is empty exactly when there is no progress. Otherwise it is a run of `=`, then `>`, then spaces up to the ratio, and the run has one `=` fewer when the bar is full. |
| Gauge.ReadyTextLength | core/output/gauge.go:129-134 | A ready gauge's text is 61 characters plus its status and its duration text. |
| Gauge.ReadyTextExample | core/output/gauge_test.go:15-49 | A 13-character status and a duration under a minute give the 77 characters the test expects. |
| Gauge.NotReadyShowsStatus | core/output/gauge.go:107-109 | A gauge that is not ready shows only a space and its status. |
| Gauge.BracketExamples | core/output/gauge_test.go:20-41 | The bars the test expects for 0, 1, 3 and 10 out of 10. |
| Spinner.FrameLead | core/output/spinner.go:55-62 | The frame format starts with a carriage return, after autowrap off except on Windows. |
| Spinner.Written | core/output/spinner.go:154-167 | A write puts the text last, after a line clear only while the spinner is running. |
| Spinner.Spinner.constructor | core/output/spinner.go:55-70 | A new spinner is stopped, with no prefix, suffix or gauge, on the given writer and platform. |
| Spinner.Spinner.SetPrefix | core/output/spinner.go:73-77 | Sets the prefix and nothing else. |
| Spinner.Spinner.SetSuffix | core/output/spinner.go:80-84 | Sets the suffix and nothing else. |
| Spinner.Spinner.SetProgressGauge | core/output/spinner.go:86-90 | Sets the gauge and nothing else. |
| Spinner.Spinner.Start | core/output/spinner.go:93-105 | Does nothing when running. Otherwise it runs from the first frame, and the gauge gets its start time if it had none. |
| Spinner.Spinner.Stop | core/output/spinner.go:139-150 | The spinner is stopped and nothing else changes. |
| Spinner.Spinner.Tick | core/output/spinner.go:122-131 | A tick of a running spinner writes the next frame in one write. The ready gauge's text replaces the suffix. A stopped spinner writes nothing. |
| Spinner.Spinner.Write | core/output/spinner.go:154-167 | Writes straight through when stopped, and clears the line first while running. The whole length is reported. |
| Spinner.FramesShape | core/output/spinner.go:15-31 | There are 15 two-character frames. All are distinct except the repeated sixth one. |
| Spinner.FrameStaysOnLine | core/output/spinner.go:56-61 | A frame holds no newline of its own and starts at the first column. |
| KeyValues.FormatKeysAndValues | core/output/non_interactive.go:32-46 | The suffix is "" for an empty list. Otherwise it is three spaces and every complete pair in order. |
| KeyValues.PairsAppend | core/output/non_interactive.go:37-44 | The pairs of a concatenation of whole pairs are the pairs of each part. |
| KeyValues.AppendPairs | core/output/non_interactive.go:154-161 | Adding pairs with `WithValues` extends the suffix with exactly the new pairs. |
| KeyValues.TrailingKeyDropped | core/output/non_interactive.go:37-44 | A last key without a value adds nothing. |
| KeyValues.FirstPair | core/output/non_interactive.go:36-43 | The first pair follows four spaces. |
| KeyValues.QuotedKeepsValue | core/output/non_interactive.go:39-42 | A value changes exactly when it holds a space or `=`. It then only gains quotes around it, with nothing escaped. |
| Messages.PairsNoNewline | core/output/non_interactive.go:32-46 | Pairs with no newline produce a suffix with no newline. |
| Messages.ExtendedIsOneLine | core/output/non_interactive.go:26-30 | Each non-interactive message is exactly one line when its parts hold no newline. |
| Messages.ErrorLineLayout | core/output/non_interactive.go:81-83 | An error line carries the `err` pair first, with a nil error read as `<nil>`, then the view's pairs. |
| Messages.ErrorTextParts | core/output/interactive.go:67-76 | The interactive error text is the message alone, the error alone, or `msg: err`. |
| Messages.WithPairsAppend | core/output/interactive.go:37-42 | Interactive pairs are invisible at level zero. Above it, new pairs follow the view's own pairs, or make up the whole suffix when the view had none. |
| Messages.ColouredLines | core/output/interactive.go:52-81 | Warnings are yellow and errors red, around exactly the text shown. |
| Messages.EndedTextTellsOutcome | core/output/non_interactive.go:115-128 | Both the operation's status and whether it succeeded can be read back from the text that ends it. |
| ConsoleOutput.NonInteractiveShell.constructor | core/output/non_interactive.go:48-55 | The renderer's fields are as given, with no operation running. |
| ConsoleOutput.NonInteractiveShell.Info | core/output/non_interactive.go:57-59 | One `INF` line is appended to the diagnostics writer. |
| ConsoleOutput.NonInteractiveShell.Warn | core/output/non_interactive.go:69-71 | One `WRN` line is appended to the diagnostics writer. |
| ConsoleOutput.NonInteractiveShell.Error | core/output/non_interactive.go:81-83 | One `ERR` line is appended, carrying the error pair. |
| ConsoleOutput.NonInteractiveShell.EndOperation | core/output/non_interactive.go:115-128 | With an operation running, one `✓` or `✗` line is written and the operation is cleared. Otherwise nothing is written. |
| ConsoleOutput.NonInteractiveShell.StartOperation | core/output/non_interactive.go:95-103 | Ends the running operation as succeeded, then starts and announces the new one. |
| ConsoleOutput.NonInteractiveShell.StartOperationWithProgress | core/output/non_interactive.go:105-113 | Like `StartOperation`, with the gauge's text less one leading space as the status. The gauge is only started. |
| ConsoleOutput.NonInteractiveShell.Result | core/output/non_interactive.go:130-132 | The result and a newline go to the results writer. |
| ConsoleOutput.NonInteractiveShell.V | core/output/non_interactive.go:142-152 | Above the verbosity the result is the decorator. Otherwise it is a new renderer with the same writers, verbosity and pairs, and no operation. |
| ConsoleOutput.NonInteractiveShell.WithValues | core/output/non_interactive.go:154-161 | A new renderer whose pairs are these followed by the new ones. |
| ConsoleOutput.InteractiveShell.constructor | core/output/interactive.go:24-35 | The renderer's fields are as given, with no operation and no gauge. |
| ConsoleOutput.InteractiveShell.Info | core/output/interactive.go:37-42 | The message, with pairs only above level zero, goes through the spinner. |
| ConsoleOutput.InteractiveShell.Warn | core/output/interactive.go:52-57 | The yellow message goes through the spinner. |
| ConsoleOutput.InteractiveShell.Error | core/output/interactive.go:67-81 | The red error text goes through the spinner. |
| ConsoleOutput.InteractiveShell.EndOperationWithStatus | core/output/interactive.go:123-140 | The final text is the gauge's text or the status. If it is empty, nothing changes. Otherwise the spinner stops, and a carriage return is written. Then comes the mark's `Fprintln` of the final text, which reads that text as a format. The operation is then cleared. |
| ConsoleOutput.InteractiveShell.EndOperation | core/output/interactive.go:115-121 | Ends with the success mark or the failure mark, writing what `EndOperationWithStatus` writes. |
| ConsoleOutput.EndChunksWithoutPercent | core/output/interactive.go:136-137 | When the final text holds no `%`, the end of an operation writes the intended mark line. The mark and the text both read back from that line. |
| ConsoleOutput.EndChunksMangle | core/output/interactive.go:137 | An operation named "50%" does not end with its intended line. |
| ConsoleOutput.InteractiveShell.StartOperation | core/output/interactive.go:93-102 | Ends the last operation as succeeded, writing the success mark's `Fprintln` of its text. Then the status is set, ` status ` is shown after the spinner, and the spinner runs. |
| ConsoleOutput.InteractiveShell.StartOperationWithProgress | core/output/interactive.go:104-113 | Ends the last operation as succeeded, writing the success mark's `Fprintln` of its text. Then the gauge is the renderer's and the spinner's, and the spinner runs. |
| ConsoleOutput.InteractiveShell.Result | core/output/interactive.go:142-144 | The result and a newline go to the results writer. |
| ConsoleOutput.InteractiveShell.V | core/output/interactive.go:154-165 | Above the verbosity the result is the decorator. Otherwise it is a renderer at `level`, not added to the current level, sharing the writer, spinner, verbosity and pairs. |
| ConsoleOutput.InteractiveShell.WithValues | core/output/interactive.go:167-175 | A new renderer at the same level whose pairs are these followed by the new ones. |
| ConsoleOutput.NewNonInteractiveShell | core/output/non_interactive.go:14-20 | A fresh renderer on the given writers and verbosity, with no pairs. |
| ConsoleOutput.NewInteractiveShell | core/output/interactive.go:15-22 | A fresh renderer at level zero whose diagnostics go through a new, stopped spinner. |
| ConsoleOutput.NewDiscardingOutput | core/output/discarding.go:7-9 | Returns the discarding output. |
| ConsoleOutput.Say | core/output/output.go:8-147 | `Info`, `Warn` and `Error` on any output: exactly one line to the printer's diagnostics writer, or nothing. The decorator passes only warnings on, to the renderer it wraps. It prints nothing for other messages, and the discarding outputs print nothing at all. |
| ConsoleOutput.Result | core/output/output.go:120-131 | Only a renderer writes the result. Every other output writes nothing. |
| ConsoleOutput.WritersCarryMessages | core/output/interactive.go:177-182 | Writing to a message writer is the message call. Only a renderer hands out a raw results writer. |
| ConsoleOutput.Write | core/output/interactive.go:177-182 | A message writer strips one trailing newline and sends one message. A raw writer takes the bytes as they are. Every write reports the whole length. |
| ConsoleOutput.StartOperation | runtime_core/output/noop.go:15-16 | The renderer ends the running operation as succeeded and starts the new one, writing exactly what its own method writes. The decorator and the discarding outputs do nothing. |
| ConsoleOutput.StartOperationWithProgress | runtime_core/output/noop.go:5-7 | Reaches the renderer also through the decorator, which does not override it. The renderer writes the end of the running operation, and the non-interactive one also writes the started line with the gauge's text. |
| ConsoleOutput.EndOperation | runtime_core/output/noop.go:15-16 | The renderer ends the operation, writing its end lines. The interactive one keeps its state when there is no text to show, and otherwise clears the operation and stops the spinner. The decorator and the discarding outputs do nothing. |
| ConsoleOutput.V | core/output/output.go:133-139 | `V` on any output. The discarding outputs return themselves, and the decorator passes `V` on, so the ceiling still applies. |
| ConsoleOutput.WithValues | core/output/output.go:141-146 | `WithValues` on any output. A renderer gives a sibling with the new pairs, and every other output returns itself. |
| ConsoleOutput.WithValuesChain | core/output/output.go:141-146 | Chained `WithValues` calls carry every pair in order, at the same level, on the same writers. |
| ConsoleOutput.VCeiling | core/output/interactive.go:154-165 | A message through `V(level)` is printed exactly when the level is within the verbosity. |
| ConsoleOutput.VLastWins | core/output/interactive_test.go:480-490 | `V(a).V(b)` prints exactly what `V(b)` prints, at the same level: the ceiling never moves. |
| ConsoleOutput.InteractivePairsShownAboveZero | core/output/interactive.go:37-81 | At level zero, interactive messages show no pairs, old or new. Above it, every message shows all the view's pairs after its text, with the new ones last. |
| ConsoleOutput.TestedViewPairs | core/output/interactive_test.go:296-318 | `V(1).WithValues("key", "value")` shows `    key=value` after the info, warning and error texts the test expects. |
| LogrSink.NewOutputLogr | core/output/logr_sink.go:9-13 | A sink at level zero over the output. |
| LogrSink.Enabled | core/output/logr_sink.go:26-31 | The renderer's answer, `level <= verbosity`. The answer is `true` for outputs without `Enabled`. |
| LogrSink.V | core/output/logr_sink.go:33-39 | The level is added to the sink's, and the output is the view at the sum. |
| LogrSink.WithValues | core/output/logr_sink.go:49-53 | The output with the pairs added, and the level back at zero. |
| LogrSink.WithName | core/output/logr_sink.go:55-58 | The sink is unchanged. |
| LogrSink.Info | core/output/logr_sink.go:41-43 | The message, less trailing newlines, is printed exactly when the level is within the verbosity, with the new pairs after the renderer's. |
| LogrSink.Error | core/output/logr_sink.go:45-47 | The error is printed at the renderer's own level, with the new pairs after the renderer's. |
| LogrLogger.NewOutputLogr | core/output/logr.go:12-16 | A logger at level zero over the output. |
| LogrLogger.Enabled | core/output/logr.go:27-32 | The renderer's answer for the logger's level. The answer is `true` for outputs without `Enabled`. |
| LogrLogger.V | core/output/logr.go:42-48 | The level is added to the logger's, and the output is the view at the sum. |
| LogrLogger.WithValues | core/output/logr.go:50-55 | The level is kept, and the output has the pairs added. |
| LogrLogger.WithName | core/output/logr.go:57-60 | The logger is unchanged. |
| LogrLogger.Log | core/output/logr.go:34-40 | `Info` or `Error`, less trailing newlines, on the output with the pairs added. A silenced output prints nothing. |
| LogrLogger.VThenInfo | core/output/logr.go:42-48 | `V(a).V(b)` prints exactly when `a + b` is within the verbosity, and the corrected `Enabled` agrees. |
| LogrLogger.EnabledWhenSilenced | core/output/logr.go:27-32 | As written, a logger past the verbosity says it is enabled while `Info` prints nothing. |
| LogrLogger.CorrectedEnabled | core/output/logr.go:27-32 | The corrected `Enabled` is `true` when there is no renderer behind the output. |
| LogrLogger.CorrectedEnabledMatchesInfo | core/output/logr.go:27-32 | The corrected `Enabled` answers whether `Info` would print, for every logger made by `V`. |
| PluginFlag.SetTyped | core/plugin/flag.go:65-75 | The placeholder accepts any input, keeps its type and prints as "". |
| PluginFlag.SpecRoundTrip | core/plugin/flag.go:23-61 | A spec survives the trip through a flag unchanged. |
| PluginFlag.FlagRoundTrip | core/plugin/flag.go:23-61 | A flag keeps its value's type through its spec. It comes back equal up to the value exactly when it was not parsed. |
| PluginFlag.SpecsFromFlagset | core/plugin/flag.go:39-45 | One spec per flag, in order. |
| PluginFlag.SpecsRoundTrip | core/plugin/flag.go:39-61 | A list of specs survives the trip through flags unchanged. |
| PluginCommand.Name | core/plugin/command.go:58-60 | The name is the first word of `Use`: a space-free prefix followed by a space or the end. |
| PluginCommand.Kept | core/plugin/command.go:58-64 | The kept sub-commands are exactly those not named `_plugin_commands` or `completion`. |
| PluginCommand.SpecFromCommand | core/plugin/command.go:35-66 | The spec of the command: every field, its flags' specs, whether it runs, and its kept sub-commands recursively. |
| PluginCommand.ToCommand | core/plugin/command.go:69-103 | The command of the spec: the flags, the sub-commands recursively, and the run override on exactly the runnable ones. |
| PluginCommand.SpecOmitsSkipped | core/plugin/command.go:58-64 | No skipped name appears below the top of a description. |
| PluginCommand.SpecRoundTrip | core/plugin/command.go:35-103 | A spec without skipped names survives the trip through a command unchanged. |
| PluginCommand.CommandRoundTrip | core/plugin/command.go:35-103 | A command through its spec comes back normalised. Skipped sub-commands are gone, flag values are typed placeholders, and the override runs exactly the runnable commands. |
| VersionCmd.Validate | core/cmd/version/version.go:100-106 | Accepts exactly "", `yaml` and `json`, and otherwise returns the fixed error. |
| VersionCmd.OrderedKeys | core/cmd/version/version.go:161-168 | The map's names in strictly ascending order. |
| VersionCmd.SortedKeys | core/cmd/version/version.go:161-168 | The specification of that order: strictly sorted, with exactly the set's names. |
| VersionCmd.SortedUnique | core/cmd/version/version.go:166 | Two strictly sorted lists of the same names are equal, so the order is determined. |
| VersionCmd.PrintComponents | core/cmd/version/version.go:130-138 | One line per component, in name order. |
| VersionCmd.WriteLines | core/cmd/version/version.go:132-138 | Writes the `name: version` line of each given name, in the order given. |
| VersionCmd.Run | core/cmd/version/version.go:109-159 | Returns the error and writes the lines that `RunEffect` gives for the getter's and the marshaller's outcomes. |
| VersionCmd.ComponentsInOrder | core/cmd/version/version.go:130-138 | Several components print `name: gitVersion` lines, one each, in ascending name order. |
| VersionCmd.GetterErrorPassesThrough | core/cmd/version/version.go:110-113 | A getter error is returned as it is, and nothing is written. |
| VersionCmd.ValidatedRunFailsOnlyUpstream | core/cmd/version/version.go:100-159 | After `Validate` accepts, `Run` fails only when the getter or the marshaller does. |
| VersionCmd.SingleNamedComponent | core/cmd/version/version.go:115-126 | A single component under a non-empty name prints the zero version's empty `GitVersion`. |
| VersionCmd.ShortOutputIsGitVersion | core/cmd/version/version.go:122-126 | Without `--long`, one version prints only its `GitVersion`. |
| SymlinkReexec.Base | symlink-reexec/handler.go:29 | `filepath.Base` is never empty, and is either `/` or holds no separator. |
| SymlinkReexec.NormalisedPrefix | symlink-reexec/handler.go:23-25 | The prefix ends in `-`, with one added only if it was missing. |
| SymlinkReexec.ReexecName | symlink-reexec/handler.go:26 | The re-exec name plus `-` is the normalised prefix. |
| SymlinkReexec.Subcommands | symlink-reexec/handler.go:40-44 | One sub-command per `-`-separated piece, with `_` spelt as `-`. |
| SymlinkReexec.HandleExec | symlink-reexec/handler.go:22-67 | The argument list built is the one `ReexecArgv` specifies. |
| SymlinkReexec.NormalisedPrefixIdempotent | symlink-reexec/handler.go:23-26 | Normalising twice changes nothing. |
| SymlinkReexec.ReexecNameDropsOneDash | symlink-reexec/handler.go:23-26 | Exactly one trailing `-` is dropped for the re-exec name. |
| SymlinkReexec.ArgvLayout | symlink-reexec/handler.go:29-62 | It re-executes exactly when the invoked base name has the prefix. The argument list is then the name, the sub-commands and the original arguments. |
| SymlinkReexec.SubcommandsRoundTrip | symlink-reexec/handler.go:40-44 | The sub-commands give back the rest of the invoked name, and none holds `_`. |
| SymlinkReexec.ReexecutedProcessRunsDirectly | symlink-reexec/handler.go:26-35 | The re-executed process does not re-execute again. |
| SymlinkReexec.DirectInvocations | symlink-reexec/handler_test.go:38-75 | `simple` and `simple_symlink` run directly. |
| SymlinkReexec.SubcommandInvocation | symlink-reexec/handler_test.go:77-93 | `simple-subcommand` re-executes as `simple subcommand` with the flags behind it. |
| GetCmd.MultipleGVKsRequested | extensions/cmd/get/get.go:169-180 | True exactly when there are at least two infos and one differs in kind from the first. |
| GetCmd.SeveralKindsAnyPair | extensions/cmd/get/get.go:169-180 | That is the same as the infos not being all of one kind. |
| GetCmd.SeveralKindsOrderFree | extensions/cmd/get/get.go:169-180 | The answer does not depend on the order of the infos. |
| GetCmd.AcceptHeaderValue | extensions/cmd/get/get.go:162-167 | The header is `application/json;as=Table;v=v1;g=meta.k8s.io,application/json`, with the table first. |
| GetCmd.RequestTransformers | extensions/cmd/get/get.go:70-73 | The server-side table request is used exactly for the `table` output format. |
| GetCmd.TableQueryAcceptsTable | extensions/cmd/get/get.go:70-76 | A table query sets `Accept` to the header and leaves the other headers alone. Any other query changes nothing. |
| GetCmd.NewCommand | extensions/cmd/get/get.go:24-60 | `get` has one sub-command per allowed resource, in order. Without resources it queries its arguments. With resources it takes no arguments and only errs. |
| GetCmd.FindSubcommand | extensions/cmd/get/get.go:39-47 | The sub-command found has the name. `None` means no sub-command has it. |
| GetCmd.RunCommand | extensions/cmd/get/get.go:53-56 | The corrected run never panics, and agrees with the code whenever the code does not panic. |
| GetCmd.UnrestrictedGetQueriesArguments | extensions/cmd/get/get.go:49-51 | Without allowed resources, `get` queries its arguments, with the table request exactly for `table`. |
| GetCmd.AllowedResourceQueried | extensions/cmd/get/get.go:39-47 | Naming an allowed resource queries it, followed by the other arguments. |
| GetCmd.OtherArgumentRejected | extensions/cmd/get/get.go:52-57 | Any other first argument is rejected, without a query. |
| GetCmd.RestrictedGetWithoutArgumentsPanics | extensions/cmd/get/get.go:53-56 | As written, a restricted `get` run without arguments panics, and its error message is never reached. |
| GetCmd.GetNeverPanics | extensions/cmd/get/get.go:53-56 | Corrected, no invocation panics, and a restricted `get` without arguments shows its usage. |
| GoFmt.PercentFreeUnchanged | core/output/end_operation_status.go:22-25 | Text without `%` printed as a format is unchanged. |
| GoFmt.QuoteRoundTrip | core/cmd/version/version.go:128 | The quoted strings inside `%#v` read back as the original string. |

## Left out

- Concurrency is not modelled: the spinner's goroutine, its ticker and channels, and the renderers' mutexes. Each method runs as one critical section, and a frame is the `Tick` method.
- `time.Now` and `time.Since` become parameters: a timestamp text and a clock reading in whole seconds. Durations under one second are cut to whole seconds.
- Colour (the SGR bytes of `gchalk`) is an abstract pair of tags around text. Terminals without colour support are not modelled.
- Lengths are counted in characters, not bytes: a Dafny `string` is a sequence of characters.
- `Infof`, `Warnf` and `Errorf` are not modelled: they format with `fmt.Sprintf` and then call the plain methods. Only formatting with no operands is modelled.
- Keys and values are the strings `%s` and `%v` would print. `%v` of arbitrary Go values is not modelled.
- Spinner.Spinner.Write: writers never fail in the model. So the early return of the line-clear write's error (core/output/spinner.go:162-165) is not modelled, and every write reports the whole length.
- Writers (`Terminal.Writer`) record every write and never return an error. The code ignores the errors of its `Fprint` calls, and the only place that checks one is the spinner's `Write`.
- PluginCommand.SpecRoundTrip: holds for the sub-command list in the order the model keeps. The command library's `Commands()` sorts sub-commands by name by default, so in Go the round trip gives back the same list only when it is already in name order.
- PluginFlag.SpecsRoundTrip: holds for the flag list in the order the model keeps. `VisitAll` of the flag library visits flags in name order by default, so in Go the round trip gives back the same list only when it is already in name order and its names are distinct.
- Gauge.Inc: does not model 64-bit wrap-around at the largest `int`.
- Gauge.Dec: does not model 64-bit wrap-around at the smallest `int`.
- Gauge.Set: any integer is accepted, without the 64-bit bound.
- ConsoleOutput.Say: a warning sent to the `discardingOutput` is excluded by a precondition. Go calls its nil embedded `Output` and panics.
- ConsoleOutput.Printer: has the same precondition, for the same reason.
- ConsoleOutput.WarnWriter: has the same precondition, for the same reason.
- ConsoleOutput.StartOperationWithProgress: has the same precondition, for the same reason.
- The `WithValues` key/value slices are values here. Go's `append` can share a backing array between sibling views, and that aliasing is not modelled.
- The interactive `V` sets the level it is given, as the code does. The summing of levels exists only in the `logr` adapters.
- `strconv.Quote` keeps every non-ASCII character as it is. Go escapes the non-printable ones with `\u` or `\U`, and that is not modelled.
- The command and flag libraries are not modelled.
  - Commands and flags are values. A command's sub-commands are the list `Commands()` returns, and its local flags are the list `LocalNonPersistentFlags()` visits. `AddFlag` on duplicate names is not modelled.
  - Run functions are named by numbers.
  - A flag's `Changed` is set only by parsing, which is not modelled. Nor is the parsing of real flag values.
- The Kubernetes client, the resource builder, the printers and the visit of results in `get` are not modelled. The several-kinds test is over the kinds of the infos.
- For `get`, the command library is reduced to dispatch by first argument, the `NoArgs` check before the run, and the run. Usage text and error message wording are not modelled.
- `version`: the version getter and the YAML and JSON marshallers become parameters, which are their outcomes. `NewCommandWithVersionGetter` and the flag wiring are not modelled.
- The `%#v` rendering of a `Version` is modelled as field-by-field Go syntax with quoted strings.
- `sort.Strings` is specified by its result, a strictly ascending list, and computed by insertion.
- `HandleExec`: `os.Executable`, `filepath.EvalSymlinks`, `syscall.Exec` and their panics are not modelled. The result is the argument list handed to `exec`, or `None` where the handler returns false. `os.Args` is non-empty for a running program, and this is a precondition.
- `filepath.Base` is modelled for Unix paths only.
- The klog and context plumbing of `core/output` is not part of this model.

## Findings

| source | as written | input that shows it | evidently intended | confidence | as-written member | corrected member |
|---|---|---|---|---|---|---|
| core/output/interactive.go:137 | The operation's status is passed to `Fprintln` as the format, and the end-mark line is then formatted again with no operands. The renderer in this model writes exactly that. | Operation "50%" ending in success, which prints `" ✓ 50%!\n(MISSING)"` | The status is printed as it is: `" ✓ 50%\n"`, the line `EndStatus.Line` defines | high, not executed | ConsoleOutput.EndChunksMangle | EndStatus.ParseLineRoundTrip |
| core/output/logr.go:27-32 | `Enabled()` type-asserts the output to `Enabled(int)`. The silencing decorator from `V` has no such method, so the answer is `true`. | Logger over a renderer of verbosity 0, then `V(1).Enabled()`: `true`, while `V(1).Info` prints nothing | `Enabled()` is `level <= verbosity` of the renderer behind the output | high, not executed | LogrLogger.EnabledWhenSilenced | LogrLogger.CorrectedEnabledMatchesInfo |
| extensions/cmd/get/get.go:53-56 | With allowed resources, the root `get` has `NoArgs`, and its run reads `args[0]`. | `get` with allowed resources and no arguments: `NoArgs` accepts the empty list, and `args[0]` then panics with index out of range | The command shows its usage or a proper error instead of panicking | medium (assumes the argument check runs before the run, as in the command library), not executed | GetCmd.RestrictedGetWithoutArgumentsPanics | GetCmd.GetNeverPanics |
