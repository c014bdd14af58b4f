# mlog: a verified model of the `Log` logger

`mlog` is a small Go logging package. Its one process-wide logger carries
two things:
- a `console` flag;
- an output sink: nil at first, then one writer, then an `io.MultiWriter`
  that composes every writer added since.

Five level methods (`Debug`, `Notice`, `Info`, `Warning`, `Error`) each pass
a four-character tag to `out`. `out` does three things:
- it composes the line `<date> [<TAG>]: <message>`;
- it prints that line to the console in the tag's colour when the console is
  on;
- it ends the line with a newline if it lacks one, and writes it to the sink.

`Critical` logs at CRIT and then runs a fixed drain sequence: an
announcement, a five-second countdown and a farewell. It then ends the
process with exit status 1.

The model has three modules:

- `LineFormat` (`line_format.dfy`) holds the pure parts of `out`:
  - how a line is composed from date, tag, template and arguments;
  - the newline rule;
  - the tag-to-colour table;
  - a reader that splits a record back into its fields.
- `Dispatch` (`dispatch.dfy`) describes everything the logger does
  observably as a sequence of events: a coloured console print, a `Write`
  on a registered writer (and whether it succeeded), a sleep, and the exit.
  - `Deliver` is the `io.MultiWriter` behaviour: writers in registration
    order, stopping after the first one that fails; the error is dropped.
  - `OutEvents` is one call of `out`.
  - `CriticalPlan` is the sequence of steps `Critical` performs; `Run`
    gives the events of a plan.
- `MLog` (`mlog.dfy`) is the logger itself, the class `Log`. Its fields are
  the console flag, the registered writers in order and the event trace, and
  the methods update them in place:
  - `AddWriter`, `SetFileWriter`, `EnableConsole` and `DisableConsole`
    configure it;
  - `Out` and the level methods append what they do to the trace;
  - `Critical` runs its countdown in a `while` loop, as the source does.

  Each method is proved against the `Dispatch` function of the same step.
  `Package` is `init` and `Get`.

The outside world enters as parameters:
- the timestamp string;
- the set of writers whose `Write` fails during a call;
- `fmt.Sprintf` for templates with arguments (`Formatter`);
- for `Critical`, all three indexed by step number (`Env`);
- the answers of the filesystem calls of `SetFileWriter` (`FileSystem`).

The newline rule follows the code: `"\n"` is appended only when the line
does not already end in one. A line ending in `"\n\n"` therefore reaches the
writers with both newlines; the rule is not "exactly one terminator". The
doc comments of the level methods say that arguments are handled "in the
manner of fmt.Print". The code, however, uses the caller's template as a
`fmt.Sprintf` format when arguments are present, and prints it verbatim
through `%v` when there are none. The model follows the code.

## Model

| member | source | states |
|---|---|---|
| `LineFormat.ComposeVerbatim` | mlog.go:114-120 | With no arguments the line is the header `date [tag]: ` followed by the template unchanged, whatever formatter is in force: a `%` in the template is never interpreted. |
| `LineFormat.SplitLine` | mlog.go:114 | A record that splits yields a timestamp as wide as the layout, a four-character tag and a payload that reassemble into the record. |
| `LineFormat.ComposeHeader` | mlog.go:114-125 | Every line starts with the header `date [tag]: `: always without arguments, and with arguments whenever `fmt.Sprintf` renders the two leading `%s` verbs from the date and tag operands (`KeepsHeader`). |
| `LineFormat.SplitHeader` | mlog.go:114 | Any line that starts with a header of the record layout splits back into that timestamp, that tag and the rest of the line. |
| `LineFormat.SplitComposedHeader` | mlog.go:114-125 | Every record, with or without arguments, splits so that its timestamp and tag are exactly the date and tag `out` was given, under the same assumption about `fmt.Sprintf`. |
| `LineFormat.SplitComposed` | mlog.go:114-120 | A line composed without arguments, from a timestamp of the layout's width and a four-character tag, splits back into exactly that timestamp, tag and template: the record layout is unambiguous. |
| `LineFormat.Terminated` | mlog.go:153-155 | The line handed to the sink ends in a newline, extends the composed line by at most one character, and equals it exactly when the composed line already ends in a newline. |
| `LineFormat.TerminatedIdempotent` | mlog.go:153-155 | Applying the newline rule twice gives the same line as applying it once. |
| `LineFormat.TerminatedShortest` | mlog.go:153-155 | No newline-terminated extension of the composed line is shorter than the one the rule produces. |
| `LineFormat.ConsoleColorTable` | mlog.go:130-149 | The colour switch maps DEBG, NOTI, INFO, WARN, `ERR ` and CRIT one-to-one onto HiCyan, HiGreen, HiWhite, HiYellow, HiRed and HiMagenta (both directions); every other tag gets no colour. |
| `Dispatch.DeliverInOrder` | mlog.go:157-160 | The sink writes the same text to the writers in registration order, stopping only after a writer that fails; every writer before that one succeeded, and an unfailing sink reaches them all. |
| `Dispatch.DeliverToAll` | mlog.go:157-160 | When no writer fails, every registered writer receives the text exactly once, in registration order. |
| `Dispatch.OutEventsShape` | mlog.go:112-161 | With the console off and no sink, `out` does nothing. Otherwise it prints to the console first, exactly when the console is on and the tag has a colour, showing the composed line in that colour; every other event is a sink write of the newline-terminated line. |
| `Dispatch.OutReachesEveryWriter` | mlog.go:153-161 | With healthy writers, one call hands every registered writer the identical newline-terminated line, in registration order, right after the console print if there is one. |
| `Dispatch.RunTimeline` | mlog.go:182-197 | Logging never sleeps or exits by itself: the pauses and exits of a run are exactly the sleep and exit steps, in order, under any configuration and outside world. |
| `Dispatch.RunWithoutDestinations` | mlog.go:113 | With the console off and no writer, a run produces only its pauses and its exit. |
| `Dispatch.CountdownTimeline` | mlog.go:189-192 | A countdown from `i` pauses one second per round, `i` times. |
| `Dispatch.CriticalPlanSpelledOut` | mlog.go:182-197 | `Critical`'s steps, in order: the CRIT line with the caller's template and arguments, a 100 ms sleep, WARN "The program will exit in:", WARN "%v seconds" for 5, 4, 3, 2, 1 each followed by a one-second sleep, INFO "Bye!", a one-second sleep, exit status 1. |
| `Dispatch.OpeningRun` | mlog.go:183-187 | The opening of `Critical` produces the CRIT line's events, a 100 ms pause, then the events of the exit announcement. |
| `Dispatch.CountdownRound` | mlog.go:189-192 | One round of the countdown, the WARN line naming `i` and a one-second pause, leaves exactly the countdown from `i - 1` still to do. |
| `Dispatch.ClosingRun` | mlog.go:194-196 | The closing of `Critical` produces the events of INFO "Bye!", a one-second pause and the exit with status 1. |
| `Dispatch.CriticalTimeline` | mlog.go:185-196 | The drain sequence sleeps 100 ms, then one second six times, then exits with status 1. |
| `Dispatch.CriticalEndsWithExit` | mlog.go:196 | The last event of `Critical` is the exit with status 1, under any configuration and outside world. |
| `Dispatch.CriticalExits` | mlog.go:182-197 | `Critical` ends with the exit as its last event, after exactly the drain sequence's pauses and no other exit. With no destination it still pauses and exits, and does nothing else. |
| `MLog.Log.constructor` | mlog.go:27-32 | The logger starts with the console enabled, no writer, an empty trace, and not exited. |
| `MLog.Log.AddWriter` | mlog.go:40-52 | A nil writer changes nothing. Any other writer is appended after those already registered, becoming the sink when there is none. No writer is ever dropped, and the console flag and trace are untouched. |
| `MLog.Log.SetFileWriter` | mlog.go:57-96 | "No file specified" comes back exactly when the path is empty. For a non-empty path, each error names exactly the filesystem call that failed: resolving the path; making the directory (only tried when neither file nor directory exists); creating or closing the empty file (only tried when the file does not exist); opening for append. The call succeeds exactly when the path is non-empty and every call it makes succeeds. On success exactly the opened file is appended to the writers; on any error nothing is registered. |
| `MLog.Log.EnableConsole` | mlog.go:99-103 | Turns the console on, changing nothing else; on an enabled console it changes nothing at all. |
| `MLog.Log.DisableConsole` | mlog.go:106-110 | Turns the console off, changing nothing else; on a disabled console it changes nothing at all. |
| `MLog.Log.Out` | mlog.go:112-163 | Appends to the trace exactly the events of `out` for the current configuration: composition, console print, newline rule and sink delivery. The configuration is unchanged. |
| `MLog.Log.Debug` | mlog.go:168-170 | `out` with tag DEBG. |
| `MLog.Log.Notice` | mlog.go:175-177 | `out` with tag NOTI. |
| `MLog.Log.Error` | mlog.go:202-204 | `out` with tag `ERR `. |
| `MLog.Log.Info` | mlog.go:209-211 | `out` with tag INFO. |
| `MLog.Log.Warning` | mlog.go:216-218 | `out` with tag WARN. |
| `MLog.Log.Sleep` | mlog.go:185 | A sleep appends one pause of the given length and changes nothing else. |
| `MLog.Log.Countdown` | mlog.go:189-192 | The `for i := 5; i > 0; i--` loop appends the events of the countdown steps 3 to 12 of `Critical`, for the configuration in force. |
| `MLog.Log.Critical` | mlog.go:182-197 | Appends to the trace exactly the events of `Critical`'s plan, step `k` seeing the clock, failing writers and formatter of step `k`. It leaves the configuration unchanged and marks the process exited, so no method can run afterwards. |
| `MLog.Package.constructor` | mlog.go:27-37 | `init` builds a fresh logger with the console enabled and no writer. It is held in the constant field `log`, which `Get` returns, so every call of `Get` hands out that one logger. |

## Left out

- Locking: the `sync.Mutex` and the unlocked read of `console` and `writer` in the guard of `out` are not modelled. Every method is one atomic step on a single thread.
- Timestamps: `time.Now().Format` is not modelled; the date string is an input.
- Formatting with arguments: `fmt.Sprintf` on a template with arguments is a `Formatter` parameter. Its placeholder substitution is not modelled. The one thing `out` relies on, that the two leading `%s` verbs render the date and the tag, is the hypothesis `KeepsHeader`. Facts about records logged with arguments that need the header are proved under that hypothesis, not for an arbitrary formatter. With no arguments, the `%s`/`%v` rendering of three strings is modelled exactly.
- Console printing: the `fatih/color` printers are foreign code. The model records which colour was chosen and the composed line; how those printers interpret `%` in the line or add a newline is not modelled.
- Writer behaviour: the model does not know what a writer does with the bytes. Which writers fail during a call is an input set. Short writes count as failures, as `io.MultiWriter` treats them.
- `MLog.Log.SetFileWriter`: `filepath.Abs`, `os.Stat`, `os.MkdirAll`, `os.Create`, `Close` and `os.OpenFile` become the answers of a `FileSystem` record. The error values other than "No file specified" become the failing step, and the `0666` permission bits and append mode are not modelled.
- `MLog.Log.Critical`: `time.Sleep` and `os.Exit` are `Pause` and `Exit` events, not real effects; the exit is modelled as a flag that every method requires to be unset.
- The example program `example/example.go` is not part of this model: it only calls the package.
