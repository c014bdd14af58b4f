/** The process-wide logger: its `console` flag and writer list, changed in
    place by the configuration methods, and the events its log methods
    produce. */
module MLog {
  import opened LineFormat
  import opened Dispatch

  /** The `io.Writer` argument of `AddWriter`: nil, or a writer. */
  datatype WriterRef = Nil | Ref(id: WriterId)

  /** The filesystem step of `SetFileWriter` that failed. */
  datatype FsStep = ResolvePath | MakeDirs | CreateFile | CloseFile | OpenFile

  /** The errors `SetFileWriter` returns. */
  datatype SetupError = NoFileSpecified | IoFailure(step: FsStep)

  /** How the filesystem answers the calls of `SetFileWriter`: whether
      `filepath.Abs` succeeds, whether `os.Stat` finds the file and its
      directory, whether `os.MkdirAll`, `os.Create` and `Close` succeed, and the
      file `os.OpenFile` opens for appending, if it does. */
  datatype FileSystem = FileSystem(
    absOk: bool, fileFound: bool, dirFound: bool,
    mkdirOk: bool, createOk: bool, closeOk: bool,
    file: Option<WriterId>)

  /** `SetFileWriter` opens a file exactly when every filesystem call it makes
      succeeds: the directory is made only when neither file nor directory is
      found, and the empty file is created only when the file is not found. */
  predicate FileOpens(fs: FileSystem) {
    fs.absOk
    && (fs.fileFound || ((fs.dirFound || fs.mkdirOk) && fs.createOk && fs.closeOk))
    && fs.file.Some?
  }

  class Log {
    var console: bool
    /** The sink, as the writers behind it in registration order; empty while
        the sink is nil. */
    var writers: seq<WriterId>
    /** Everything the logger has printed, written, slept and exited, in order. */
    var trace: seq<Event>
    /** Set by `os.Exit`; nothing runs after it. */
    var exited: bool

    function Config(): Dispatch.Config
      reads this
    {
      Dispatch.Config(console, writers)
    }

    /** The logger `init` builds: console on, no sink. */
    constructor ()
      ensures console && writers == [] && trace == [] && !exited
    {
      console := true;
      writers := [];
      trace := [];
      exited := false;
    }

    /** A nil writer is ignored; any other writer becomes the sink if there is
        none, and is composed after the existing sink otherwise. The console
        flag is untouched and no registered writer is ever dropped. */
    method AddWriter(w: WriterRef)
      requires !exited
      modifies this
      ensures console == old(console) && trace == old(trace) && !exited
      ensures w.Nil? ==> writers == old(writers)
      ensures w.Ref? ==> writers == old(writers) + [w.id]
      ensures old(writers) <= writers && |writers| <= |old(writers)| + 1
    {
      if w.Nil? {
        return;
      }
      if writers == [] {
        writers := [w.id];
      } else {
        writers := writers + [w.id];   // io.MultiWriter(l.writer, writer)
      }
    }

    /** Registers the file at `path`, opened for appending, as one more writer.
        An empty path is refused before the filesystem is touched; a failing
        filesystem call returns its error; in either case nothing is
        registered. On success exactly the opened file is appended. */
    method SetFileWriter(path: string, fs: FileSystem) returns (err: Option<SetupError>)
      requires !exited
      modifies this
      ensures console == old(console) && trace == old(trace) && !exited
      ensures err.None? <==> path != "" && FileOpens(fs)
      ensures err.None? ==> writers == old(writers) + [fs.file.value]
      ensures err.Some? ==> writers == old(writers)
      ensures err == Some(NoFileSpecified) <==> path == ""
      ensures err == Some(IoFailure(ResolvePath)) <==> path != "" && !fs.absOk
      ensures err == Some(IoFailure(MakeDirs)) <==>
                path != "" && fs.absOk && !fs.fileFound && !fs.dirFound && !fs.mkdirOk
      ensures err == Some(IoFailure(CreateFile)) <==>
                path != "" && fs.absOk && !fs.fileFound && (fs.dirFound || fs.mkdirOk) && !fs.createOk
      ensures err == Some(IoFailure(CloseFile)) <==>
                path != "" && fs.absOk && !fs.fileFound && (fs.dirFound || fs.mkdirOk) && fs.createOk && !fs.closeOk
      ensures err == Some(IoFailure(OpenFile)) <==>
                path != "" && fs.absOk && (fs.fileFound || ((fs.dirFound || fs.mkdirOk) && fs.createOk && fs.closeOk))
                && fs.file.None?
    {
      if path == "" {
        return Some(NoFileSpecified);
      }
      if !fs.absOk {
        return Some(IoFailure(ResolvePath));
      }
      if !fs.fileFound {
        if !fs.dirFound && !fs.mkdirOk {
          return Some(IoFailure(MakeDirs));
        }
        if !fs.createOk {
          return Some(IoFailure(CreateFile));
        }
        if !fs.closeOk {
          return Some(IoFailure(CloseFile));
        }
      }
      if fs.file.None? {
        return Some(IoFailure(OpenFile));
      }
      AddWriter(Ref(fs.file.value));
      return None;
    }

    /** Turns console output on; on an enabled console it changes nothing. */
    method EnableConsole()
      requires !exited
      modifies this
      ensures console && writers == old(writers) && trace == old(trace) && !exited
      ensures old(console) ==> unchanged(this)
    {
      console := true;
    }

    /** Turns console output off; on a disabled console it changes nothing. */
    method DisableConsole()
      requires !exited
      modifies this
      ensures !console && writers == old(writers) && trace == old(trace) && !exited
      ensures !old(console) ==> unchanged(this)
    {
      console := false;
    }

    /** `out`: compose the line, print it to the console in the tag's colour if
        the console is on, end it with a newline if it lacks one, and write it
        to the sink if there is one. Nothing at all happens with the console
        off and no sink. */
    method Out(level: string, format: string, args: seq<Value>, date: string,
               failing: set<WriterId>, sprintf: Formatter)
      requires !exited
      modifies this
      ensures unchanged(this`console, this`writers) && !exited
      ensures trace == old(trace) + Emitted(Config(), level, format, args, date, failing, sprintf)
    {
      if console || writers != [] {
        var s := "";
        if |args| == 0 {
          // fmt.Sprintf("%s [%s]: %v", date, level, format): three string operands
          s := date + " [" + level + "]: " + format;
        } else {
          var nf := "%s [%s]: " + format;
          s := sprintf(nf, [Str(date), Str(level)] + args);
        }
        ghost var line := s;
        assert line == Compose(date, level, format, args, sprintf);
        if console {
          var color := ConsoleColor(level);
          if color.Some? {
            trace := trace + [Console(color.value, s)];
          }
        }
        ghost var printed := trace;
        assert printed == old(trace) + ConsoleEvents(console, level, line);
        if !HasSuffix(s, "\n") {
          s := s + "\n";
        }
        assert s == Terminated(line);
        if writers != [] {
          trace := trace + Deliver(writers, s, failing);
        }
        assert trace == printed + (if writers == [] then [] else Deliver(writers, Terminated(line), failing));
        ghost var written := if writers == [] then [] else Deliver(writers, Terminated(line), failing);
        AppendAssociative(old(trace), ConsoleEvents(console, level, line), written);
        assert OutEvents(Config(), level, line, failing) == ConsoleEvents(console, level, line) + written;
        assert Emitted(Config(), level, format, args, date, failing, sprintf) == OutEvents(Config(), level, line, failing);
      } else {
        assert Emitted(Config(), level, format, args, date, failing, sprintf) == [];
      }
    }

    method Debug(format: string, args: seq<Value>, date: string, failing: set<WriterId>, sprintf: Formatter)
      requires !exited
      modifies this
      ensures unchanged(this`console, this`writers) && !exited
      ensures trace == old(trace) + Emitted(Config(), DebugTag, format, args, date, failing, sprintf)
    {
      Out(DebugTag, format, args, date, failing, sprintf);
    }

    method Notice(format: string, args: seq<Value>, date: string, failing: set<WriterId>, sprintf: Formatter)
      requires !exited
      modifies this
      ensures unchanged(this`console, this`writers) && !exited
      ensures trace == old(trace) + Emitted(Config(), NoticeTag, format, args, date, failing, sprintf)
    {
      Out(NoticeTag, format, args, date, failing, sprintf);
    }

    method Info(format: string, args: seq<Value>, date: string, failing: set<WriterId>, sprintf: Formatter)
      requires !exited
      modifies this
      ensures unchanged(this`console, this`writers) && !exited
      ensures trace == old(trace) + Emitted(Config(), InfoTag, format, args, date, failing, sprintf)
    {
      Out(InfoTag, format, args, date, failing, sprintf);
    }

    method Warning(format: string, args: seq<Value>, date: string, failing: set<WriterId>, sprintf: Formatter)
      requires !exited
      modifies this
      ensures unchanged(this`console, this`writers) && !exited
      ensures trace == old(trace) + Emitted(Config(), WarningTag, format, args, date, failing, sprintf)
    {
      Out(WarningTag, format, args, date, failing, sprintf);
    }

    method Error(format: string, args: seq<Value>, date: string, failing: set<WriterId>, sprintf: Formatter)
      requires !exited
      modifies this
      ensures unchanged(this`console, this`writers) && !exited
      ensures trace == old(trace) + Emitted(Config(), ErrorTag, format, args, date, failing, sprintf)
    {
      Out(ErrorTag, format, args, date, failing, sprintf);
    }

    /** `time.Sleep`. */
    method Sleep(ms: nat)
      requires !exited
      modifies this
      ensures unchanged(this`console, this`writers) && !exited
      ensures trace == old(trace) + [Pause(ms)]
    {
      trace := trace + [Pause(ms)];
    }

    /** The countdown loop of `Critical`: for `i` from 5 down to 1, a WARN
        line `"<i> seconds"` followed by a one-second sleep, as steps 3 to 12. */
    method Countdown(env: Env)
      requires !exited
      modifies this
      ensures unchanged(this`console, this`writers) && !exited
      ensures trace == old(trace) + Run(CountdownSteps(Seconds), 3, Semantics(old(Config()), env))
    {
      ghost var cfg := Config();
      ghost var goal := trace + Run(CountdownSteps(Seconds), 3, Semantics(cfg, env));
      var i, k := Seconds, 3;
      while i > 0
        invariant 0 <= i <= Seconds && k == 13 - 2 * i
        invariant Config() == cfg && !exited
        invariant trace + Run(CountdownSteps(i), k, Semantics(cfg, env)) == goal
      {
        ghost var t := trace;
        Warning("%v seconds", [Int(i)], env.clock(k), env.faults(k), env.sprintf);
        Sleep(1000);
        var i', k' := i - 1, k + 2;
        CountdownRound(i, k, i', k', cfg, env, t, trace, goal);
        i, k := i', k';
      }
      assert Run(CountdownSteps(0), 13, Semantics(cfg, env)) == [];
    }

    /** Logs at CRIT, then runs the drain sequence and ends the process with
        status 1: every step of `CriticalPlan` in order, step `k` seeing the
        clock, the failing writers and the formatter `env` gives for `k`.
        Nothing can be called afterwards. */
    method Critical(format: string, args: seq<Value>, env: Env)
      requires !exited
      modifies this
      ensures unchanged(this`console, this`writers) && exited
      ensures trace == old(trace) + Run(CriticalPlan(format, args), 0, Semantics(old(Config()), env))
    {
      ghost var cfg := Config();
      ghost var start := trace;
      Out(CriticalTag, format, args, env.clock(0), env.faults(0), env.sprintf);
      Sleep(100);
      Warning("The program will exit in:", [], env.clock(2), env.faults(2), env.sprintf);
      Countdown(env);
      ghost var after := trace;
      Info("Bye!", [], env.clock(13), env.faults(13), env.sprintf);
      Sleep(1000);
      trace := trace + [Exit(1)];
      exited := true;
      OpeningRun(format, args, cfg, env);
      AppendThree(start, Emitted(cfg, CriticalTag, format, args, env.clock(0), env.faults(0), env.sprintf), [Pause(100)],
                  Emitted(cfg, WarningTag, "The program will exit in:", [], env.clock(2), env.faults(2), env.sprintf));
      ClosingRun(cfg, env);
      AppendThree(after, Emitted(cfg, InfoTag, "Bye!", [], env.clock(13), env.faults(13), env.sprintf), [Pause(1000)],
                  [Exit(1)]);
      ghost var m := Semantics(cfg, env);
      CriticalPlanRun(format, args, m);
      AppendThree(start, Run(OpeningSteps(format, args), 0, m), Run(CountdownSteps(Seconds), 3, m), Run(ClosingSteps(), 13, m));
    }
  }

  /** The package: `init` builds the one logger, `Get` hands it out. */
  class Package {
    const log: Log

    constructor ()
      ensures fresh(log) && log.console && log.writers == [] && log.trace == [] && !log.exited
    {
      log := new Log();
    }

    /** The logger built at initialisation: `log` is a constant field, so every
        call returns the same logger. */
    function Get(): Log {
      log
    }
  }
}
